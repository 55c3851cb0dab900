/** oauth2/shared.go: the daemon token, refreshed at most once a minute. Times are in nanoseconds. */
module Tokens {
  import opened Common

  const MINUTE: int := 60_000_000_000

  datatype Credentials = Credentials(clientId: string, clientSecret: string)

  /** The fields of requestResponse. */
  datatype Fields = Fields(accessToken: string, expiresIn: int, error: string)

  /** What the decoder makes of the body: nothing at all, or the fields it could fill. */
  datatype Body = NotJson | Json(fields: Fields)

  datatype Response = Unreachable | Answer(body: Body)

  /** The decoder's error is ignored, so a body that is not JSON leaves every field at its zero value. */
  function Decoded(body: Body): Fields {
    match body
    case NotJson => Fields("", 0, "")
    case Json(fields) => fields
  }

  /** A call is made after a 401, or by RefreshIfStale, which looked at the clock at `seen`. */
  datatype Trigger = Unauthorized | Stale(seen: int)

  /** One attempt, in the order of the lock: when it looks at the clock, and when it stamps. */
  datatype Call = Call(trigger: Trigger, now: int, credentials: Credentials, response: Response, stamped: int)

  /** The package variables that the lock protects. */
  datatype Store = Store(daemonToken: string, lastRefresh: int, expiresIn: int)

  /** A refresh in the last minute blocks another. */
  predicate Recent(lastRefresh: int, now: int) {
    lastRefresh + MINUTE > now
  }

  /** RefreshToken returns true. */
  predicate Refreshes(lastRefresh: int, c: Call) {
    && !Recent(lastRefresh, c.now)
    && c.credentials.clientId != "" && c.credentials.clientSecret != ""
    && c.response.Answer? && Decoded(c.response.body).error == ""
  }

  /** The attempt gets as far as RefreshToken, and that returns true. */
  predicate Succeeds(store: Store, c: Call) {
    && (c.trigger.Stale? ==> store.lastRefresh + store.expiresIn < c.trigger.seen)
    && Refreshes(store.lastRefresh, c)
  }

  function Renewed(c: Call): Store
    requires c.response.Answer?
  {
    var fields := Decoded(c.response.body);
    Store(fields.accessToken, c.stamped, fields.expiresIn)
  }

  function After(store: Store, c: Call): Store {
    if Succeeds(store, c) then Renewed(c) else store
  }

  class TokenStore {
    var daemonToken: string
    var lastRefresh: int
    var expiresIn: int

    constructor (lastRefresh: int)
      ensures View() == Store("", lastRefresh, 0)
    {
      daemonToken, this.lastRefresh, expiresIn := "", lastRefresh, 0;
    }

    function View(): Store
      reads this
    {
      Store(daemonToken, lastRefresh, expiresIn)
    }

    /** Refreshes exactly when it may and the server gives no error; otherwise changes nothing. */
    method RefreshToken(c: Call) returns (refreshed: bool)
      modifies this
      ensures refreshed <==> Refreshes(old(lastRefresh), c)
      ensures refreshed <==>
                && old(lastRefresh) + 60_000_000_000 <= c.now
                && c.credentials.clientId != "" && c.credentials.clientSecret != ""
                && c.response.Answer? && (c.response.body.Json? ==> c.response.body.fields.error == "")
      ensures View() == if refreshed then Renewed(c) else old(View())
      ensures refreshed && c.response.body.Json? ==>
                View() == Store(c.response.body.fields.accessToken, c.stamped, c.response.body.fields.expiresIn)
      ensures refreshed && c.response.body.NotJson? ==> View() == Store("", c.stamped, 0)
    {
      if lastRefresh + MINUTE > c.now {
        return false;
      }
      if c.credentials.clientId == "" {
        return false;
      }
      if c.credentials.clientSecret == "" {
        return false;
      }
      if c.response.Unreachable? {
        return false;
      }
      var responseData := Decoded(c.response.body);
      if responseData.error != "" {
        return false;
      }
      daemonToken := responseData.accessToken;
      lastRefresh := c.stamped;
      expiresIn := responseData.expiresIn;
      return true;
    }

    /** Only a stale token is refreshed, and then as by RefreshToken. */
    method RefreshIfStale(c: Call) returns (refreshed: bool)
      requires c.trigger.Stale?
      modifies this
      ensures refreshed <==> Succeeds(old(View()), c)
      ensures refreshed <==>
                && old(lastRefresh) + old(expiresIn) < c.trigger.seen
                && old(lastRefresh) + 60_000_000_000 <= c.now
                && c.credentials.clientId != "" && c.credentials.clientSecret != ""
                && c.response.Answer? && (c.response.body.Json? ==> c.response.body.fields.error == "")
      ensures View() == After(old(View()), c)
      ensures !refreshed ==> View() == old(View())
      ensures refreshed && c.response.body.Json? ==>
                View() == Store(c.response.body.fields.accessToken, c.stamped, c.response.body.fields.expiresIn)
    {
      refreshed := false;
      var oldCache := lastRefresh + expiresIn < c.trigger.seen;
      if oldCache {
        refreshed := RefreshToken(c);
      }
    }

    /** Any run of attempts, each triggered in its own way. */
    method RefreshAll(calls: seq<Call>) returns (stamps: seq<int>)
      modifies this
      ensures stamps == Stamps(old(View()), calls)
      ensures View() == AfterAll(old(View()), calls)
    {
      stamps := [];
      for i := 0 to |calls|
        invariant stamps + Stamps(View(), calls[i..]) == Stamps(old(View()), calls)
        invariant AfterAll(View(), calls[i..]) == AfterAll(old(View()), calls)
      {
        ghost var before, was := stamps, View();
        var refreshed;
        if calls[i].trigger.Stale? {
          refreshed := RefreshIfStale(calls[i]);
        } else {
          refreshed := RefreshToken(calls[i]);
        }
        if refreshed {
          stamps := stamps + [calls[i].stamped];
        }
        OneCall(was, calls, i, before);
      }
    }
  }

  /** The times at which a run of attempts refreshed the token. */
  function Stamps(store: Store, calls: seq<Call>): seq<int>
    decreases calls
  {
    if calls == [] then []
    else (if Succeeds(store, calls[0]) then [calls[0].stamped] else []) + Stamps(After(store, calls[0]), calls[1..])
  }

  function AfterAll(store: Store, calls: seq<Call>): Store
    decreases calls
  {
    if calls == [] then store else AfterAll(After(store, calls[0]), calls[1..])
  }

  lemma OneCall(store: Store, calls: seq<Call>, i: nat, before: seq<int>)
    requires i < |calls|
    ensures var now := if Succeeds(store, calls[i]) then [calls[i].stamped] else [];
            before + Stamps(store, calls[i..]) == before + now + Stamps(After(store, calls[i]), calls[i + 1..])
    ensures AfterAll(store, calls[i..]) == AfterAll(After(store, calls[i]), calls[i + 1..])
  {
    assert calls[i..][1..] == calls[i + 1..];
    var now := if Succeeds(store, calls[i]) then [calls[i].stamped] else [];
    var rest := Stamps(After(store, calls[i]), calls[i + 1..]);
    assert before + (now + rest) == before + now + rest;
  }

  // ---- The rate limit ----

  /** The clock never runs backwards over the critical sections. */
  predicate Clocked(calls: seq<Call>) {
    && (forall i :: 0 <= i < |calls| ==> calls[i].now <= calls[i].stamped)
    && (forall i, j :: 0 <= i < j < |calls| ==> calls[i].stamped <= calls[j].now)
  }

  /** At least a minute apart, and none before `first`. */
  predicate Spaced(times: seq<int>, first: int) {
    && (forall i :: 0 <= i < |times| ==> first <= times[i])
    && (forall i, j :: 0 <= i < j < |times| ==> times[i] + MINUTE <= times[j])
  }

  /** Two refreshes are at least a minute apart. */
  lemma {:induction false} StampsSpaced(store: Store, calls: seq<Call>)
    requires Clocked(calls)
    ensures Spaced(Stamps(store, calls), store.lastRefresh + MINUTE)
    decreases calls
  {
    if calls != [] {
      assert Clocked(calls[1..]) by {
        assert forall i :: 0 <= i < |calls[1..]| ==> calls[1..][i] == calls[i + 1];
      }
      StampsSpaced(After(store, calls[0]), calls[1..]);
    }
  }

  /** How many of the times lie in the window that starts at `from` and has length w. */
  function Within(times: seq<int>, from: int, w: nat): nat {
    if times == [] then 0
    else (if from <= times[0] <= from + w then 1 else 0) + Within(times[1..], from, w)
  }

  /** Times a minute apart, the first not before `first`: each one in the window uses up a minute. */
  lemma {:induction false} SpacedWithin(times: seq<int>, from: int, w: nat, first: int)
    requires Spaced(times, first)
    ensures Within(times, from, w) > 0 ==> (Within(times, from, w) - 1) * MINUTE <= from + w - Max(first, from)
  {
    if times != [] {
      assert Spaced(times[1..], times[0] + MINUTE) by {
        assert forall i :: 0 <= i < |times[1..]| ==> times[1..][i] == times[i + 1];
      }
      SpacedWithin(times[1..], from, w, times[0] + MINUTE);
    }
  }

  /**
   * The rate limit: over any run of attempts with a clock that does not run backwards, however each
   * was triggered, at most floor(w / 1min) + 1 refreshes fall in any window of length w. A stale look
   * that another call overtakes before the lock is taken only adds or drops an attempt, so
   * interleaved callers are runs of this kind, too.
   */
  lemma RateLimited(store: Store, calls: seq<Call>, from: int, w: nat)
    requires Clocked(calls)
    ensures Within(Stamps(store, calls), from, w) <= w / 60_000_000_000 + 1
  {
    var times := Stamps(store, calls);
    StampsSpaced(store, calls);
    SpacedWithin(times, from, w, store.lastRefresh + MINUTE);
    var n := Within(times, from, w) - 1;
    if n >= 0 {
      assert n * MINUTE <= w;
      assert n <= w / MINUTE;
    }
  }

  // ---- What a refresh is worth ----

  /** Nothing that is tried within a minute of a refresh changes the store. */
  lemma {:induction false} BlockedForAMinute(store: Store, calls: seq<Call>)
    requires forall i :: 0 <= i < |calls| ==> calls[i].now < store.lastRefresh + MINUTE
    ensures AfterAll(store, calls) == store && Stamps(store, calls) == []
    decreases calls
  {
    if calls != [] {
      assert forall i :: 0 <= i < |calls[1..]| ==> calls[1..][i] == calls[i + 1];
      BlockedForAMinute(store, calls[1..]);
    }
  }

  /**
   * A refresh that reports success leaves the daemon with a token if and only if the body was JSON
   * with an access token, and that stays so for a minute: whatever else is tried within it changes
   * nothing, so after an undecodable body the daemon has no token until the minute is over.
   */
  lemma {:induction false} UsableIffTokenDecoded(store: Store, c: Call, later: seq<Call>)
    requires Succeeds(store, c)
    requires forall i :: 0 <= i < |later| ==> later[i].now < c.stamped + 60_000_000_000
    ensures AfterAll(After(store, c), later).daemonToken != ""
            <==> c.response.body.Json? && c.response.body.fields.accessToken != ""
    ensures Stamps(store, [c] + later) == [c.stamped]
  {
    BlockedForAMinute(After(store, c), later);
    assert ([c] + later)[1..] == later;
  }

  /** An attempt with a body that is not JSON succeeds whenever one without an error would. */
  lemma UndecodableBodyBlocks(store: Store, c: Call, later: seq<Call>)
    requires c.response == Answer(NotJson)
    requires forall i :: 0 <= i < |later| ==> later[i].now < c.stamped + 60_000_000_000
    ensures forall fields: Fields :: fields.error == "" ==>
              (Succeeds(store, c) <==> Succeeds(store, c.(response := Answer(Json(fields)))))
    ensures Succeeds(store, c) ==> AfterAll(store, [c] + later) == Store("", c.stamped, 0)
  {
    assert ([c] + later)[1..] == later;
    if Succeeds(store, c) {
      BlockedForAMinute(After(store, c), later);
    }
  }
}
