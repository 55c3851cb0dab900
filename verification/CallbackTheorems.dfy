/**
 * The callback of one run, left alone, does what Program.AfterExit does: its lines in the
 * machine of module Supervisor add up to AfterExitOutcome, which is what the method ensures.
 */
module CallbackTheorems {
  import opened Common
  import opened Restart
  import opened Supervisor
  import E = Environment
  import SI = SupervisorInvariant

  ghost predicate AtHandler(s: System, at: nat, r: nat, p: nat, h: E.Handler) {
    && WellFormed(s) && at < |s.servers| && s.servers[at].owner == p && r < |s.servers[at].env.runs|
    && s.servers[at].env.runs[r].handler == h
  }

  /** One line of the callback, as far as its own run and program are concerned. */
  lemma LineFacts(s: System, a: Action, p: nat)
    requires Possible(s, a) && IsCallback(a) && s.servers[a.at].owner == p
    ensures p < |s.programs| && AtHandler(Step(s, a), a.at, a.r, p, CallbackTo(s, a))
    ensures p < |Step(s, a).programs| && Step(s, a).programs[p].config == s.programs[p].config
    ensures Step(s, a).limit == s.limit
    ensures Step(s, a).programs[p].crashes
            == (if a.Reset? then CounterAfterReset(s.programs[p].crashes, a.graceful)
                else if a.Decide? && CrashRestart(s.programs[p].config, s.programs[p].crashes, s.limit,
                                                  s.servers[a.at].env.runs[a.r].handler.graceful)
                then s.programs[p].crashes + 1
                else s.programs[p].crashes)
    ensures Step(s, a).service == if a.Requeue? then Push(s.service, p) else s.service
  {
    LineHandler(s, a, p);
    LineCounter(s, a, p);
    LineService(s, a, p);
    hide Step, AtHandler, CrashRestart, CounterAfterReset;
  }

  lemma LineHandler(s: System, a: Action, p: nat)
    requires Possible(s, a) && IsCallback(a) && s.servers[a.at].owner == p
    ensures p < |Step(s, a).programs| && AtHandler(Step(s, a), a.at, a.r, p, CallbackTo(s, a))
  {
    SI.StepWellFormed(s, a);
    SI.ProgramsKept(s, a);
    CallbackServer(s, a);
    hide Possible, WellFormed, ServersAfter, ProgramsAfter, ServiceAfter, StoppersAfter, GroupAfter, CallbackTo;
  }

  lemma CallbackServer(s: System, a: Action)
    requires Possible(s, a) && IsCallback(a)
    ensures |ServersAfter(s, a)| == |s.servers|
    ensures var e := s.servers[a.at].env;
            ServersAfter(s, a)[a.at] == s.servers[a.at].(env := E.WithHandler(e, a.r, CallbackTo(s, a)))
  {
    hide WellFormed, CallbackTo;
    assert EnvPart(s, a) == Some((a.at, E.Advance(a.r, CallbackTo(s, a))));
  }

  lemma LineService(s: System, a: Action, p: nat)
    requires Possible(s, a) && IsCallback(a) && s.servers[a.at].owner == p
    ensures Step(s, a).limit == s.limit
    ensures Step(s, a).service == if a.Requeue? then Push(s.service, p) else s.service
  {
    hide ServersAfter, ProgramsAfter, StoppersAfter, GroupAfter;
  }

  lemma LineCounter(s: System, a: Action, p: nat)
    requires Possible(s, a) && IsCallback(a) && s.servers[a.at].owner == p
    ensures p < |s.programs| == |Step(s, a).programs| && Step(s, a).programs[p].config == s.programs[p].config
    ensures Step(s, a).programs[p].crashes
            == (if a.Reset? then CounterAfterReset(s.programs[p].crashes, a.graceful)
                else if a.Decide? && CrashRestart(s.programs[p].config, s.programs[p].crashes, s.limit,
                                                  s.servers[a.at].env.runs[a.r].handler.graceful)
                then s.programs[p].crashes + 1
                else s.programs[p].crashes)
  {
    hide ServersAfter, ServiceAfter, StoppersAfter, GroupAfter, CallbackTo;
  }

  /** The lines of one callback that a restart decision of `again` more lines implies. */
  function CallbackLines(at: nat, r: nat, graceful: bool, ok: bool, restart: bool): seq<Action> {
    [Reset(at, r, graceful), Post(at, r, ok)]
    + (if ok then [Decide(at, r)] + (if restart then [Requeue(at, r)] else []) else [])
  }

  lemma Next(pol: Policy, s: System, acts: seq<Action>, now: System, a: Action)
    requires Legal(pol, s, acts) && Exec(pol, s, acts) == now && Possible(now, a) && IsCallback(a)
    ensures Legal(pol, s, acts + [a]) && Exec(pol, s, acts + [a]) == Step(now, a)
  {
    Extend(pol, s, acts, a);
  }

  /** The decision and the push. */
  lemma DecideRuns(pol: Policy, s: System, acts: seq<Action>, now: System,
                   at: nat, r: nat, p: nat, g: bool, again: bool)
    returns (t: System)
    requires Legal(pol, s, acts) && Exec(pol, s, acts) == now
    requires AtHandler(now, at, r, p, E.Calling(E.Deciding, g, again)) && p < |now.programs|
    ensures var o := now.programs[p];
            var restart := RequestsRestart(o.config, o.crashes, now.limit, g);
            var more := [Decide(at, r)] + (if restart then [Requeue(at, r)] else []);
            && Legal(pol, s, acts + more) && Exec(pol, s, acts + more) == t
            && AtHandler(t, at, r, p, E.AfterCallback(again)) && p < |t.programs|
            && t.programs[p].crashes
               == (if CrashRestart(o.config, o.crashes, now.limit, g) then o.crashes + 1 else o.crashes)
            && t.service == if restart then Push(now.service, p) else now.service
  {
    hide Legal, Exec, Step;
    var o := now.programs[p];
    Next(pol, s, acts, now, Decide(at, r));
    LineFacts(now, Decide(at, r), p);
    t := Step(now, Decide(at, r));
    if RequestsRestart(o.config, o.crashes, now.limit, g) {
      Next(pol, s, acts + [Decide(at, r)], t, Requeue(at, r));
      LineFacts(t, Requeue(at, r), p);
      t := Step(t, Requeue(at, r));
      assert acts + [Decide(at, r)] + [Requeue(at, r)] == acts + ([Decide(at, r)] + [Requeue(at, r)]);
    } else {
      assert [Decide(at, r)] + [] == [Decide(at, r)];
    }
  }

  /** The reset of the counter and the post-execution steps. */
  lemma AfterReset(s: System, at: nat, r: nat, p: nat, g: bool, again: bool) returns (t: System)
    requires AtHandler(s, at, r, p, E.Calling(E.Resetting, g, again)) && p < |s.programs|
    ensures Possible(s, Reset(at, r, g)) && t == Step(s, Reset(at, r, g))
    ensures AtHandler(t, at, r, p, E.Calling(E.PostExecution, g, again)) && p < |t.programs|
    ensures t.programs[p].config == s.programs[p].config && t.limit == s.limit
    ensures t.programs[p].crashes == CounterAfterReset(s.programs[p].crashes, g) && t.service == s.service
  {
    hide Step;
    LineFacts(s, Reset(at, r, g), p);
    t := Step(s, Reset(at, r, g));
  }

  lemma AfterPost(s: System, at: nat, r: nat, p: nat, g: bool, again: bool, ok: bool) returns (t: System)
    requires AtHandler(s, at, r, p, E.Calling(E.PostExecution, g, again)) && p < |s.programs|
    ensures Possible(s, Post(at, r, ok)) && t == Step(s, Post(at, r, ok))
    ensures AtHandler(t, at, r, p, if ok then E.Calling(E.Deciding, g, again) else E.AfterCallback(again))
    ensures p < |t.programs| && t.programs[p].config == s.programs[p].config && t.limit == s.limit
    ensures t.programs[p].crashes == s.programs[p].crashes && t.service == s.service
  {
    hide Step;
    LineFacts(s, Post(at, r, ok), p);
    t := Step(s, Post(at, r, ok));
  }

  lemma ResetRuns(pol: Policy, s: System, at: nat, r: nat, p: nat, g: bool, again: bool, ok: bool)
    returns (t: System)
    requires AtHandler(s, at, r, p, E.Calling(E.Resetting, g, again)) && p < |s.programs|
    ensures Legal(pol, s, [Reset(at, r, g), Post(at, r, ok)]) && Exec(pol, s, [Reset(at, r, g), Post(at, r, ok)]) == t
    ensures AtHandler(t, at, r, p, if ok then E.Calling(E.Deciding, g, again) else E.AfterCallback(again))
    ensures p < |t.programs| && t.programs[p].config == s.programs[p].config && t.limit == s.limit
    ensures t.programs[p].crashes == CounterAfterReset(s.programs[p].crashes, g) && t.service == s.service
  {
    var reset, post := Reset(at, r, g), Post(at, r, ok);
    var mid := AfterReset(s, at, r, p, g, again);
    t := AfterPost(mid, at, r, p, g, again, ok);
    assert Legal(pol, t, []) && Exec(pol, t, []) == t;
    hide Legal, Exec, Step, Possible, AtHandler;
    First(pol, mid, post, []);
    First(pol, s, reset, [post] + []);
    assert [reset] + ([post] + []) == [reset, post];
  }

  lemma CallbackIsAfterExit(pol: Policy, s: System, at: nat, r: nat, p: nat, g: bool, again: bool, ok: bool)
    returns (t: System)
    requires AtHandler(s, at, r, p, E.Calling(E.Resetting, g, again)) && p < |s.programs|
    ensures var o := s.programs[p];
            var c := CounterAfterReset(o.crashes, g);
            var lines := CallbackLines(at, r, g, ok, RequestsRestart(o.config, c, s.limit, g));
            var outcome := AfterExitOutcome(o.config, o.crashes, s.limit, g, ok);
            && Legal(pol, s, lines) && Exec(pol, s, lines) == t
            && AtHandler(t, at, r, p, E.AfterCallback(again)) && p < |t.programs|
            && t.programs[p].crashes == outcome.0
            && t.service == if outcome.1 then Push(s.service, p) else s.service
    ensures var o := s.programs[p];
            var crashed := !g && o.config.onCrash && o.crashes < s.limit;
            var pushes := ok && s.service.running && ((g && o.config.onGraceful) || crashed);
            && t.programs[p].crashes == (if g then 0 else if ok && crashed then o.crashes + 1 else o.crashes)
            && t.service == s.service.(queue := if pushes then s.service.queue + [p] else s.service.queue)
  {
    hide Legal, Exec, Step, AtHandler;
    var first := [Reset(at, r, g), Post(at, r, ok)];
    t := ResetRuns(pol, s, at, r, p, g, again, ok);
    if ok {
      t := DecideRuns(pol, s, first, t, at, r, p, g, again);
    } else {
      assert first + [] == first;
    }
  }
}
