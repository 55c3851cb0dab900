/** utils/websockettracker.go: fan-out of console output that drops broken sockets while iterating. */
module WebSockets {

  datatype Socket = Socket(id: nat)

  /** One WriteMessage call: the socket and the packet it was given. */
  datatype Attempt = Attempt(socket: Socket, packet: seq<char>)

  /** The sockets whose write succeeds, when the k-th write of the call is the one to `sockets[0]`. */
  function Kept(sockets: seq<Socket>, fails: nat -> bool, k: nat): seq<Socket> {
    if sockets == [] then []
    else (if fails(k) then [] else [sockets[0]]) + Kept(sockets[1..], fails, k + 1)
  }

  lemma {:induction false} KeptAppend(sockets: seq<Socket>, last: Socket, fails: nat -> bool, k: nat)
    ensures Kept(sockets + [last], fails, k)
            == Kept(sockets, fails, k) + (if fails(k + |sockets|) then [] else [last])
  {
    if sockets == [] {
      assert [] + [last] == [last];
    } else {
      assert (sockets + [last])[1..] == sockets[1..] + [last];
      KeptAppend(sockets[1..], last, fails, k + 1);
    }
  }

  /**
   * Kept is exactly the successful sockets in their original order: the i-th socket survives if
   * and only if its write succeeds, and then stands right after the survivors before it.
   */
  lemma {:induction false} KeptInOrder(sockets: seq<Socket>, fails: nat -> bool, i: nat)
    requires i < |sockets|
    ensures var before := |Kept(sockets[..i], fails, 0)|;
            && |Kept(sockets[..i + 1], fails, 0)| == before + (if fails(i) then 0 else 1)
            && |Kept(sockets[..i + 1], fails, 0)| <= |Kept(sockets, fails, 0)| <= |sockets|
            && (!fails(i) ==> Kept(sockets, fails, 0)[before] == sockets[i])
    decreases |sockets| - i
  {
    assert sockets[..i + 1] == sockets[..i] + [sockets[i]];
    KeptAppend(sockets[..i], sockets[i], fails, 0);
    KeptPrefix(sockets, fails, i + 1);
    KeptLength(sockets, fails, 0);
  }

  lemma {:induction false} KeptPrefix(sockets: seq<Socket>, fails: nat -> bool, i: nat)
    requires i <= |sockets|
    ensures Kept(sockets[..i], fails, 0) <= Kept(sockets, fails, 0)
    decreases |sockets| - i
  {
    if i == |sockets| {
      assert sockets[..i] == sockets;
    } else {
      assert sockets[..i + 1] == sockets[..i] + [sockets[i]];
      KeptAppend(sockets[..i], sockets[i], fails, 0);
      KeptPrefix(sockets, fails, i + 1);
    }
  }

  lemma {:induction false} KeptLength(sockets: seq<Socket>, fails: nat -> bool, k: nat)
    ensures |Kept(sockets, fails, k)| <= |sockets|
  {
    if sockets != [] { KeptLength(sockets[1..], fails, k + 1); }
  }

  /** The state of the loop after j writes: the survivors, then the sockets not yet written to. */
  predicate Written(all: seq<Socket>, fails: nat -> bool, j: nat, sockets: seq<Socket>, i: int) {
    j <= |all| && sockets == Kept(all[..j], fails, 0) + all[j..] && i == |Kept(all[..j], fails, 0)|
  }

  /** One attempt for each socket, in order, all with the same packet. */
  function Attempts(sockets: seq<Socket>, packet: seq<char>): (r: seq<Attempt>)
    ensures |r| == |sockets|
    ensures forall j :: 0 <= j < |r| ==> r[j] == Attempt(sockets[j], packet)
  {
    seq(|sockets|, j requires 0 <= j < |sockets| => Attempt(sockets[j], packet))
  }

  lemma AttemptNext(all: seq<Socket>, packet: seq<char>, j: nat)
    requires j < |all|
    ensures Attempts(all[..j + 1], packet) == Attempts(all[..j], packet) + [Attempt(all[j], packet)]
  {
  }

  /** The slice without its i-th element. */
  function Cut(sockets: seq<Socket>, i: nat): (r: seq<Socket>)
    requires i < |sockets|
    ensures |r| == |sockets| - 1
  {
    sockets[..i] + sockets[i + 1..]
  }

  /** One write: its socket is the next one of the original list, and it is cut out or stepped over. */
  lemma WriteNext(all: seq<Socket>, fails: nat -> bool, j: nat, sockets: seq<Socket>, i: nat)
    requires Written(all, fails, j, sockets, i) && i < |sockets|
    ensures j < |all| && sockets[i] == all[j]
    ensures !fails(j) ==> Written(all, fails, j + 1, sockets, i + 1)
    ensures fails(j) ==> Written(all, fails, j + 1, Cut(sockets, i), i)
    ensures i + 1 == |sockets| ==> sockets[..i] == Cut(sockets, i)
  {
    assert all[..j + 1] == all[..j] + [all[j]];
    KeptAppend(all[..j], all[j], fails, 0);
  }

  lemma AllWritten(all: seq<Socket>, fails: nat -> bool, j: nat, sockets: seq<Socket>, i: nat)
    requires Written(all, fails, j, sockets, i) && i >= |sockets|
    ensures j == |all| && all[..j] == all && sockets == Kept(all, fails, 0)
  {
    assert all[..|all|] == all;
  }

  class WsManager {
    var sockets: seq<Socket>

    constructor ()
      ensures sockets == []
    {
      sockets := [];
    }

    method Register(conn: Socket)
      modifies this
      ensures sockets == old(sockets) + [conn]
    {
      sockets := sockets + [conn];
    }

    /**
     * Attempts every registered socket exactly once, in order, with the same packet, and ends with
     * exactly those whose write succeeded, in their original order. `fails(k)` says how the k-th
     * write ends. The index steps back after a removal; the loop ends because len - index shrinks.
     */
    method Write(source: seq<char>, packet: seq<char>, fails: nat -> bool) returns (n: nat, attempts: seq<Attempt>)
      modifies this
      ensures attempts == Attempts(old(sockets), packet)
      ensures sockets == Kept(old(sockets), fails, 0)
      ensures n == |source|
    {
      ghost var all := sockets;
      attempts := [];
      var i := 0;
      assert Written(all, fails, 0, sockets, 0);
      hide Written, Cut, Kept, Attempts;
      while i < |sockets|
        invariant 0 <= i && |attempts| <= |all|
        invariant attempts == Attempts(all[..|attempts|], packet)
        invariant Written(all, fails, |attempts|, sockets, i)
        decreases |sockets| - i
      {
        WriteNext(all, fails, |attempts|, sockets, i);
        AttemptNext(all, packet, |attempts|);
        var socket := sockets[i];
        var err := fails(|attempts|);
        attempts := attempts + [Attempt(socket, packet)];
        if err {
          if i + 1 == |sockets| {
            sockets := sockets[..i];
          } else {
            sockets := Cut(sockets, i);
          }
          i := i - 1;
        }
        i := i + 1;
      }
      AllWritten(all, fails, |attempts|, sockets, i);
      n := |source|;
    }
  }
}
