/**
 * The queue processor starts one server after the other and waits inside each start. This module
 * shows which start it never comes back from: one that waits in an environment whose spawn failed.
 */
module ProcessorTheorems {
  import opened Common
  import opened Restart
  import opened Supervisor
  import opened SupervisorRuns
  import E = Environment
  import EI = EnvironmentInvariant
  import ET = EnvironmentTheorems
  import SI = SupervisorInvariant
  import ST = SupervisorTheorems

  // ---- One environment, left to itself, gets out of the way ----

  /** How many lines a start is away from its spawn. */
  function Stage(st: E.Starter): nat {
    if st.Raising? then 3 else if st.Installing? then 2 else if st.Spawning? then 1 else 0
  }

  /** How many lines an environment is away from letting the next start through. */
  ghost function Work(e: E.Env): nat {
    if exists k :: 0 <= k < |e.starters| && ET.BeforeSpawn(e.starters[k]) then
      var k :| 0 <= k < |e.starters| && ET.BeforeSpawn(e.starters[k]);
      17 + Stage(e.starters[k])
    else ET.Rank(e)
  }

  lemma StarterWork(e: E.Env, k: nat)
    requires EI.Inv(e) && k < |e.starters| && ET.BeforeSpawn(e.starters[k])
    ensures Work(e) == 17 + Stage(e.starters[k])
  {
    assert forall i :: 0 <= i < |e.starters| && ET.BeforeSpawn(e.starters[i]) ==> E.InFlight(e.starters[i]) && i == k;
  }

  /** One step towards that: less work, and starts before Wait.Wait() have not moved. */
  ghost predicate Moved(e: E.Env, e': E.Env) {
    && Work(e') < Work(e) && !ET.Wedged(e') && |e'.starters| == |e.starters|
    && StartersKept(e, e')
  }

  predicate StartersKept(e: E.Env, e': E.Env) {
    && |e'.starters| == |e.starters|
    && (forall k :: 0 <= k < |e.starters| && !E.InFlight(e.starters[k]) ==> e'.starters[k] == e.starters[k])
    && (forall k :: 0 <= k < |e.starters| && E.InFlight(e.starters[k]) ==>
          E.InFlight(e'.starters[k]) || e'.starters[k].Returned?)
  }

  function StartLine(st: E.Starter, k: nat): E.Action {
    if st.Raising? then E.Raise(k) else if st.Installing? then E.Install(k) else E.Spawn(k, true)
  }

  lemma StartMoves(e: E.Env, k: nat)
    requires EI.Inv(e) && !ET.Wedged(e) && k < |e.starters| && ET.BeforeSpawn(e.starters[k])
    ensures E.Enabled(E.Exclusive, e, StartLine(e.starters[k], k)) && Moved(e, E.Step(e, StartLine(e.starters[k], k)))
  {
    var b := StartLine(e.starters[k], k);
    StartGoesOn(e, k);
    var e' := E.Step(e, b);
    EI.StepKeeps(e, b);
    StarterWork(e, k);
    hide EI.Inv, E.Step, ET.Rank;
    if ET.BeforeSpawn(e'.starters[k]) {
      StarterWork(e', k);
    }
  }

  /** The one start in flight takes its next line; nobody else is affected. */
  lemma StartGoesOn(e: E.Env, k: nat)
    requires EI.Inv(e) && !ET.Wedged(e) && k < |e.starters| && ET.BeforeSpawn(e.starters[k])
    ensures var b := StartLine(e.starters[k], k);
            && E.Enabled(E.Exclusive, e, b)
            && (var e' := E.Step(e, b);
                && !ET.Wedged(e') && StartersKept(e, e')
                && (b.Spawn? ==> !ET.BeforeSpawn(e'.starters[k]) && ET.Rank(e') == 16)
                && (!b.Spawn? ==> ET.BeforeSpawn(e'.starters[k]) && Stage(e'.starters[k]) < Stage(e.starters[k]))
                && (forall i :: 0 <= i < |e'.starters| && i != k ==> !ET.BeforeSpawn(e'.starters[i])))
  {
    assert EI.StarterOk(e, e.starters[k]);
  }

  /** The newest run goes on by itself. */
  lemma RunMoves(e: E.Env, b: E.Action)
    requires EI.Inv(e) && !ET.Wedged(e) && E.Enabled(E.Exclusive, e, b) && (b.Launch? || E.Closes(b))
    requires forall k :: 0 <= k < |e.starters| ==> !ET.BeforeSpawn(e.starters[k])
    requires ET.Rank(E.Step(e, b)) < ET.Rank(e)
    ensures Moved(e, E.Step(e, b))
  {
    ET.NotWedgedKept(e, b);
    assert b.Launch? ==> E.Step(e, b).starters == e.starters[b.k := E.Returned(true)];
    assert E.Closes(b) ==> E.Step(e, b).starters == e.starters;
    hide EI.Inv, E.Step, ET.Rank;
  }

  // ---- The same in the daemon ----

  function CallbackLine(at: nat, r: nat, h: E.Handler): Action
    requires h.Calling?
  {
    match h.line
    case Resetting => Reset(at, r, h.graceful)
    case PostExecution => Post(at, r, false)
    case Deciding => Decide(at, r)
    case Requeueing => Requeue(at, r)
  }

  lemma CallbackFrame(s: System, a: Action)
    requires Possible(s, a) && IsCallback(a)
    ensures Frame(s, Step(s, a), a.at)
    ensures E.Possible(s.servers[a.at].env, E.Advance(a.r, CallbackTo(s, a)))
    ensures Step(s, a).servers[a.at].env == E.Step(s.servers[a.at].env, E.Advance(a.r, CallbackTo(s, a)))
  {
    CallbackServers(s, a);
    CallbackPrograms(s, a);
    hide Possible, CallbackTo, E.Step, ServersAfter, ProgramsAfter, StoppersAfter, GroupAfter;
  }

  lemma CallbackServers(s: System, a: Action)
    requires Possible(s, a) && IsCallback(a)
    ensures a.at < |s.servers| == |ServersAfter(s, a)|
    ensures ServersAfter(s, a)[a.at].owner == s.servers[a.at].owner
    ensures E.Possible(s.servers[a.at].env, E.Advance(a.r, CallbackTo(s, a)))
    ensures ServersAfter(s, a)[a.at].env == E.Step(s.servers[a.at].env, E.Advance(a.r, CallbackTo(s, a)))
    ensures forall i :: 0 <= i < |s.servers| && i != a.at ==> ServersAfter(s, a)[i] == s.servers[i]
  {
    assert EnvPart(s, a) == Some((a.at, E.Advance(a.r, CallbackTo(s, a))));
    EnvPartPossible(s, a);
    hide Possible, CallbackTo, E.Step, EnvPart;
  }

  lemma CallbackPrograms(s: System, a: Action)
    requires Possible(s, a) && IsCallback(a)
    ensures |ProgramsAfter(s, a)| == |s.programs|
    ensures forall p :: 0 <= p < |s.programs| ==>
              ProgramsAfter(s, a)[p].env == s.programs[p].env && ProgramsAfter(s, a)[p].config == s.programs[p].config
  {
  }

  /** A callback that holds the handle up goes on. */
  lemma CallbackGoesOn(pol: Policy, s: System, at: nat)
    requires WellFormed(s) && at < |s.servers| && |s.servers[at].env.runs| > 0
    requires var h := s.servers[at].env.runs[|s.servers[at].env.runs| - 1].handler; h.Calling? && h.again
    ensures var e := s.servers[at].env;
            var a := CallbackLine(at, |e.runs| - 1, e.runs[|e.runs| - 1].handler);
            && Enabled(pol, s, a) && IsCallback(a) && a.at == at && a.r == |e.runs| - 1
            && E.Possible(e, E.Advance(a.r, CallbackTo(s, a)))
            && ET.Rank(E.Step(e, E.Advance(a.r, CallbackTo(s, a)))) < ET.Rank(e)
  {
    hide WellFormed;
  }

  lemma LocalFrame(s: System, at: nat, e: E.Env)
    requires at < |s.servers|
    ensures Frame(s, WithEnv(s, at, e), at)
  {
  }

  /** While there is work, some line of the daemon does it. */
  lemma NextMove(pol: Policy, s: System, at: nat) returns (a: Action)
    requires pol.starts.Exclusive? && WellFormed(s) && SI.EnvsOk(s) && at < |s.servers|
    requires !ET.Wedged(s.servers[at].env) && Work(s.servers[at].env) > 0
    ensures Enabled(pol, s, a) && Plain(a) && Frame(s, Step(s, a), at)
    ensures Moved(s.servers[at].env, Step(s, a).servers[at].env)
  {
    hide EI.Inv, E.Step, E.Possible, Step, Possible, WellFormed, ET.Rank, Moved, StartersKept;
    var e := s.servers[at].env;
    if k :| 0 <= k < |e.starters| && ET.BeforeSpawn(e.starters[k]) {
      var b := StartLine(e.starters[k], k);
      StartMoves(e, k);
      a := Local(at, b);
      LocalStep(pol, s, at, b);
      LocalFrame(s, at, E.Step(e, b));
    } else {
      var b := ET.NextLine(e);
      if b.Advance? {
        a := CallbackMoves(pol, s, at);
      } else {
        RunMoves(e, b);
        a := Local(at, b);
        LocalStep(pol, s, at, b);
        LocalFrame(s, at, E.Step(e, b));
      }
    }
  }

  lemma CallbackMoves(pol: Policy, s: System, at: nat) returns (a: Action)
    requires pol.starts.Exclusive? && WellFormed(s) && SI.EnvsOk(s) && at < |s.servers|
    requires var e := s.servers[at].env;
             && !ET.Wedged(e) && (forall k :: 0 <= k < |e.starters| ==> !ET.BeforeSpawn(e.starters[k]))
             && ET.Rank(e) > 0 && e.runs[|e.runs| - 1].handler.Calling?
    ensures Enabled(pol, s, a) && Plain(a) && Frame(s, Step(s, a), at)
    ensures Moved(s.servers[at].env, Step(s, a).servers[at].env)
  {
    var e := s.servers[at].env;
    a := CallbackLine(at, |e.runs| - 1, e.runs[|e.runs| - 1].handler);
    CallbackGoesOn(pol, s, at);
    hide EI.Inv, E.Step, Step, Possible, WellFormed, ET.Rank, Moved, CallbackTo;
    CallbackFrame(s, a);
    RunMoves(e, E.Advance(a.r, CallbackTo(s, a)));
  }

  /** Where an environment stands once it is out of the way. */
  ghost predicate Driven(s: System, t: System, at: nat) {
    && Frame(s, t, at) && WellFormed(t) && SI.EnvsOk(t)
    && !ET.Wedged(t.servers[at].env) && Work(t.servers[at].env) == 0
    && StartersKept(s.servers[at].env, t.servers[at].env)
  }

  /** An environment that is not wedged gets out of the way of the next start. */
  lemma {:induction false} Drive(pol: Policy, s0: System, s: System, at: nat) returns (t: System)
    requires pol.starts.Exclusive? && WellFormed(s) && SI.EnvsOk(s) && at < |s.servers|
    requires !ET.Wedged(s.servers[at].env) && PlainTo(pol, s0, s)
    ensures PlainTo(pol, s0, t) && Driven(s, t, at)
    decreases Work(s.servers[at].env)
  {
    hide PlainTo, Step, Possible, WellFormed, EI.Inv, Work, ET.Wedged, StartersKept;
    if Work(s.servers[at].env) == 0 {
      t := s;
      KeptSelf(s.servers[at].env);
    } else {
      var a := NextMove(pol, s, at);
      SI.StepWellFormed(s, a);
      SI.EnvsKept(pol, s, a);
      PlainOn(pol, s0, s, a);
      t := Drive(pol, s0, Step(s, a), at);
      KeptTrans(s.servers[at].env, Step(s, a).servers[at].env, t.servers[at].env);
      FrameTrans(s, Step(s, a), t, at);
    }
  }

  lemma KeptSelf(e: E.Env)
    ensures StartersKept(e, e)
  {
  }

  lemma KeptTrans(e: E.Env, e1: E.Env, e2: E.Env)
    requires StartersKept(e, e1) && StartersKept(e1, e2)
    ensures StartersKept(e, e2)
  {
  }

  lemma FrameTrans(s: System, s1: System, s2: System, at: nat)
    requires Frame(s, s1, at) && Frame(s1, s2, at)
    ensures Frame(s, s2, at)
  {
  }

  // ---- A start comes back ----

  /** An environment out of the way: nobody runs in it, and nobody is past Wait.Wait(). */
  lemma FreeMeaning(e: E.Env)
    requires EI.Inv(e) && Work(e) == 0
    ensures !E.IsRunning(e) && ET.Passable(E.Exclusive, e)
    ensures forall k :: 0 <= k < |e.starters| ==> !E.InFlight(e.starters[k])
  {
    assert forall k :: 0 <= k < |e.starters| ==> !ET.BeforeSpawn(e.starters[k]);
    ET.IdlePassable(e);
    forall k | 0 <= k < |e.starters| ensures !E.InFlight(e.starters[k]) {
      assert EI.StarterOk(e, e.starters[k]);
    }
  }

  /** The start waits, or is about to, for a wait group that nobody will ever lower. */
  predicate Hopeless(e: E.Env, st: E.Starter) {
    ET.Wedged(e) && (st.Entering? || st.Blocked?)
  }

  /** How many lines a start is away from its end, if nothing holds it up. */
  function ToGo(st: E.Starter): nat {
    match st
    case Polled => 6
    case Requested => 5
    case Preparing => 4
    case Entering => 3
    case Blocked => 2
    case Returned(_) => 0
    case _ => 1
  }

  /** The next line of a start that is not in flight; it asks nothing of its steps. */
  function NextOf(st: E.Starter, k: nat, enabled: bool): E.Action {
    match st
    case Polled => E.Poll(k)
    case Requested => E.Check(k, enabled)
    case Preparing => E.Prepare(k, false)
    case Entering => E.Enter(k)
    case _ => E.PassWait(k)
  }

  lemma NextOfGoes(e: E.Env, k: nat, enabled: bool)
    requires k < |e.starters| && !Hopeless(e, e.starters[k]) && !E.InFlight(e.starters[k]) && !e.starters[k].Returned?
    requires e.starters[k].Blocked? ==> ET.Passable(E.Exclusive, e)
    ensures var b := NextOf(e.starters[k], k, enabled);
            && E.Enabled(E.Exclusive, e, b) && OwnLine(b, enabled)
            && (var e' := E.Step(e, b);
                |e'.starters| == |e.starters| && !Hopeless(e', e'.starters[k])
                && ToGo(e'.starters[k]) < ToGo(e.starters[k]))
  {
  }

  /** A start that is not hopeless comes back in some continuation. */
  lemma {:induction false} StartReturns(pol: Policy, s0: System, s: System, at: nat, k: nat) returns (t: System)
    requires pol.starts.Exclusive? && WellFormed(s) && SI.EnvsOk(s) && at < |s.servers|
    requires k < |s.servers[at].env.starters| && !Hopeless(s.servers[at].env, s.servers[at].env.starters[k])
    requires PlainTo(pol, s0, s)
    ensures PlainTo(pol, s0, t) && WellFormed(t) && Frame(s, t, at)
    ensures k < |t.servers[at].env.starters| && t.servers[at].env.starters[k].Returned?
    decreases ToGo(s.servers[at].env.starters[k])
  {
    hide PlainTo, Step, Possible, E.Step, E.Possible, WellFormed, EI.Inv, Work, ET.Rank, ET.Passable, NextOf;
    var st := s.servers[at].env.starters[k];
    t := s;
    if st.Returned? {
      return;
    }
    if st.Blocked? || E.InFlight(st) {
      if ET.Wedged(s.servers[at].env) { WedgedInFlight(s.servers[at].env, k); }
      t := Drive(pol, s0, s, at);
      FreeMeaning(t.servers[at].env);
    }
    var now := t;
    if !now.servers[at].env.starters[k].Returned? {
      var b := NextOf(now.servers[at].env.starters[k], k, Owner(now, at).config.enabled);
      NextOfGoes(now.servers[at].env, k, Owner(now, at).config.enabled);
      LocalStep(pol, now, at, b);
      SI.EnvsKept(pol, now, Local(at, b));
      PlainOn(pol, s0, now, Local(at, b));
      LocalFrame(now, at, E.Step(now.servers[at].env, b));
      t := StartReturns(pol, s0, Step(now, Local(at, b)), at, k);
      FrameTrans(now, Step(now, Local(at, b)), t, at);
      if now != s { FrameTrans(s, now, t, at); }
    }
  }

  lemma WedgedInFlight(e: E.Env, k: nat)
    requires EI.Inv(e) && ET.Wedged(e) && k < |e.starters|
    ensures !E.InFlight(e.starters[k])
  {
    assert EI.StarterOk(e, e.starters[k]);
    EI.WaitMeaning(e);
  }

  // ---- The processor ----

  /** The processor is inside a start that will never come back. */
  predicate Stuck(s: System) {
    match s.service.processor
    case Starting(at, k) =>
      && at < |s.servers| && k < |s.servers[at].env.starters|
      && Hopeless(s.servers[at].env, s.servers[at].env.starters[k])
    case _ => false
  }

  lemma HopelessStays(e: E.Env, b: E.Action, k: nat)
    requires EI.Inv(e) && k < |e.starters| && Hopeless(e, e.starters[k]) && E.Enabled(E.Exclusive, e, b)
    ensures k < |E.Step(e, b).starters| && Hopeless(E.Step(e, b), E.Step(e, b).starters[k])
  {
    ET.WedgedStays(e, b);
    ET.InvTracked(e);
    hide EI.Inv;
  }

  lemma StuckStays(pol: Policy, s: System, a: Action)
    requires pol.starts.Exclusive? && SI.EnvsOk(s) && Stuck(s) && Enabled(pol, s, a)
    ensures Stuck(Step(s, a)) && !a.Receive? && !a.Pop? && !a.Resume?
  {
    hide Hopeless, ServersAfter, ProgramsAfter, SI.EnvsOk;
    SI.ServersGrow(s, a);
    HopelessServer(pol, s, a, s.service.processor.at, s.service.processor.k);
    assert Stuck(Step(s, a)) by {
      assert !a.Receive? && !a.Pop? && !a.Resume? by { HopelessMeaning(s); }
      hide Possible;
    }
    HopelessMeaning(s);
  }

  /** A start that never comes back is not over. */
  lemma HopelessMeaning(s: System)
    requires Stuck(s)
    ensures !s.servers[s.service.processor.at].env.starters[s.service.processor.k].Returned?
    ensures s.service.processor.Starting?
  {
  }

  lemma HopelessServer(pol: Policy, s: System, a: Action, at: nat, k: nat)
    requires pol.starts.Exclusive? && SI.EnvsOk(s) && Enabled(pol, s, a)
    requires at < |s.servers| && k < |s.servers[at].env.starters|
    requires Hopeless(s.servers[at].env, s.servers[at].env.starters[k])
    ensures at < |ServersAfter(s, a)| && k < |ServersAfter(s, a)[at].env.starters|
    ensures Hopeless(ServersAfter(s, a)[at].env, ServersAfter(s, a)[at].env.starters[k])
  {
    hide EI.Inv, E.Step, Hopeless;
    if !a.Reload? && EnvPart(s, a).Some? && EnvPart(s, a).value.0 == at {
      EnvPartPossible(s, a);
      HopelessStays(s.servers[at].env, EnvPart(s, a).value.1, k);
    }
  }

  /** Once stuck, the processor stays stuck: nothing is dequeued in any continuation. */
  lemma {:induction false} StuckForGood(pol: Policy, s: System, acts: seq<Action>)
    requires pol.starts.Exclusive? && SI.EnvsOk(s) && Stuck(s) && Legal(pol, s, acts)
    ensures Stuck(Exec(pol, s, acts))
    ensures forall i :: 0 <= i < |acts| ==> !acts[i].Pop?
    decreases acts
  {
    hide Stuck, Step, Possible, SI.EnvsOk;
    if acts != [] {
      StuckStays(pol, s, acts[0]);
      SI.EnvsKept(pol, s, acts[0]);
      StuckForGood(pol, Step(s, acts[0]), acts[1..]);
      forall i | 0 <= i < |acts| ensures !acts[i].Pop? {
        if i > 0 { assert acts[i] == acts[1..][i - 1]; }
      }
    }
  }

  /** A start that has come back gives the processor back to the queue. */
  lemma Resumes(pol: Policy, s0: System, s: System, at: nat, k: nat) returns (t: System)
    requires PlainTo(pol, s0, s) && WellFormed(s) && s.service.processor == Starting(at, k)
    requires s.servers[at].env.starters[k].Returned?
    ensures PlainTo(pol, s0, t) && WellFormed(t)
    ensures t.servers == s.servers && t.programs == s.programs && t.service == s.service.(processor := Idle)
  {
    hide PlainTo;
    SI.StepWellFormed(s, Resume);
    PlainOn(pol, s0, s, Resume);
    t := Step(s, Resume);
  }

  /** A tick in hand is used: either nothing is queued, or the front program gets a start of its own. */
  lemma Pops(pol: Policy, s0: System, s: System) returns (t: System)
    requires PlainTo(pol, s0, s) && WellFormed(s) && s.service.processor.Ticked?
    ensures PlainTo(pol, s0, t) && WellFormed(t) && t.programs == s.programs
    ensures s.service.queue == [] ==> t.service == s.service.(processor := Idle) && t.servers == s.servers
    ensures s.service.queue != [] ==>
              var at := s.programs[s.service.queue[0]].env;
              var e := s.servers[at].env;
              && t == WithEnv(s, at, e.(starters := e.starters + [E.Polled]))
                      .(service := s.service.(queue := s.service.queue[1..], processor := Starting(at, |e.starters|)))
  {
    hide PlainTo;
    var a := Pop(s.service.queue != []);
    SI.StepWellFormed(s, a);
    PlainOn(pol, s0, s, a);
    t := Step(s, a);
    hide WellFormed;
    if a.hit {
      assert EnvPart(s, a) == Some((s.programs[s.service.queue[0]].env, E.Arrive(true)));
    }
  }

  lemma ArrivedInv(e: E.Env, e': E.Env)
    requires EI.Inv(e) && e' == e.(starters := e.starters + [E.Polled])
    ensures EI.Inv(e')
  {
    assert e' == E.Step(e, E.Arrive(true));
    EI.StepKeeps(e, E.Arrive(true));
  }

  lemma StartingComesBack(pol: Policy, s0: System, s: System) returns (t: System)
    requires pol.starts.Exclusive? && WellFormed(s) && SI.EnvsOk(s) && PlainTo(pol, s0, s)
    requires s.service.processor.Starting? && !Stuck(s)
    ensures PlainTo(pol, s0, t) && t.service.processor.Idle?
  {
    hide PlainTo, SI.EnvsOk, Hopeless;
    var at, k := s.service.processor.at, s.service.processor.k;
    t := StartReturns(pol, s0, s, at, k);
    t := Resumes(pol, s0, t, at, k);
  }

  /**
   * In every reachable state, the processor can come back to its queue if and only if it is not
   * inside a start that is about to wait, or waits, in an environment whose newest spawn failed.
   */
  lemma ProcessorFreeIff(pol: Policy, s: System)
    requires pol.starts.Exclusive? && Reachable(pol, s)
    ensures (exists t :: LeadsTo(pol, s, t) && t.service.processor.Idle?) <==> !Stuck(s)
  {
    SI.ReachableEnvs(pol, s);
    SI.ReachableWellFormed(pol, s);
    PlainNowhere(pol, s);
    hide Reachable, PlainTo, Stuck, SI.EnvsOk;
    if Stuck(s) {
      forall t | LeadsTo(pol, s, t) ensures !t.service.processor.Idle? {
        var acts :| Legal(pol, s, acts) && Exec(pol, s, acts) == t;
        StuckForGood(pol, s, acts);
        assert Stuck(t);
        StuckNotIdle(t);
      }
    } else {
      var t := ComesBack(pol, s);
      PlainLeads(pol, s, t);
    }
  }

  lemma StuckNotIdle(s: System)
    requires Stuck(s)
    ensures !s.service.processor.Idle?
  {
  }

  lemma ComesBack(pol: Policy, s: System) returns (t: System)
    requires pol.starts.Exclusive? && WellFormed(s) && SI.EnvsOk(s) && PlainTo(pol, s, s) && !Stuck(s)
    ensures PlainTo(pol, s, t) && t.service.processor.Idle?
  {
    hide PlainTo, WellFormed, EI.Inv;
    t := s;
    if s.service.processor.Ticked? {
      t := Pops(pol, s, s);
      PoppedEnvs(s, t);
    }
    if t.service.processor.Starting? {
      t := StartingComesBack(pol, s, t);
    }
  }

  lemma PoppedEnvs(s: System, t: System)
    requires WellFormed(s) && SI.EnvsOk(s) && s.service.processor.Ticked?
    requires s.service.queue == [] ==> t.service.processor.Idle? && t.servers == s.servers
    requires s.service.queue != [] ==>
              var at := s.programs[s.service.queue[0]].env;
              var e := s.servers[at].env;
              && t == WithEnv(s, at, e.(starters := e.starters + [E.Polled]))
                      .(service := s.service.(queue := s.service.queue[1..], processor := Starting(at, |e.starters|)))
    ensures SI.EnvsOk(t) && !Stuck(t)
  {
    if s.service.queue != [] {
      var at := s.programs[s.service.queue[0]].env;
      ArrivedInv(s.servers[at].env, t.servers[at].env);
    }
    hide EI.Inv;
  }

  lemma EnterLines(e: E.Env, k: nat)
    requires k < |e.starters| && e.starters[k].Polled? && !E.IsRunning(e)
    ensures var e1, e2 := e.(starters := e.starters[k := E.Requested]), e.(starters := e.starters[k := E.Preparing]);
            && E.Enabled(E.Exclusive, e, E.Poll(k)) && E.Step(e, E.Poll(k)) == e1
            && E.Enabled(E.Exclusive, e1, E.Check(k, true)) && E.Step(e1, E.Check(k, true)) == e2
            && E.Enabled(E.Exclusive, e2, E.Prepare(k, true))
            && E.Step(e2, E.Prepare(k, true)) == e.(starters := e.starters[k := E.Entering])
  {
  }

  /** A queue start of an enabled program that finds nothing running gets into ExecuteAsync. */
  lemma Enters(pol: Policy, s0: System, s: System, at: nat, k: nat) returns (t: System)
    requires pol.starts.Exclusive? && PlainTo(pol, s0, s) && WellFormed(s) && at < |s.servers|
    requires Owner(s, at).config.enabled && !E.IsRunning(s.servers[at].env)
    requires k < |s.servers[at].env.starters| && s.servers[at].env.starters[k].Polled?
    ensures var e := s.servers[at].env;
            t == WithEnv(s, at, e.(starters := e.starters[k := E.Entering]))
    ensures PlainTo(pol, s0, t) && WellFormed(t)
  {
    hide PlainTo, WellFormed, E.Step, E.Enabled;
    var e := s.servers[at].env;
    EnterLines(e, k);
    assert s == WithEnv(s, at, e);
    var e1, e2 := e.(starters := e.starters[k := E.Requested]), e.(starters := e.starters[k := E.Preparing]);
    t := Go(pol, s0, s, at, e, E.Poll(k), e1);
    t := Go(pol, s0, s, at, e1, E.Check(k, true), e2);
    t := Go(pol, s0, s, at, e2, E.Prepare(k, true), e.(starters := e.starters[k := E.Entering]));
  }

  // ---- It happens ----

  /** A single program whose first spawn failed. */
  function Failing(starters: seq<E.Starter>, v: Service): System {
    ST.Lone(v).(servers := [Server(0, FirstStarted(false).(starters := starters))])
  }

  lemma FirstRequest()
    ensures var s := ST.Lone(ST.NewService());
            && Possible(s, Request(0)) && WellFormed(Step(s, Request(0)))
            && Step(s, Request(0)) == s.(servers := [Server(0, E.Fresh(E.Tty).(starters := [E.Requested]))])
  {
    ST.LoneReachable(Policy(E.Exclusive, true));
    ST.RequestArrives(ST.Lone(ST.NewService()), 0);
    assert [] + [E.Requested] == [E.Requested];
  }

  lemma SpawnFails(pol: Policy)
    requires pol.starts.Exclusive?
    ensures Reachable(pol, Failing([E.Returned(false)], ST.NewService()))
  {
    hide Step, Possible, Reachable, Legal, Exec, WellFormed, StartLines;
    var s := ST.Lone(ST.NewService());
    ST.LoneReachable(pol);
    FirstRequest();
    ReachableStep(pol, s, Request(0));
    var s1 := Step(s, Request(0));
    StartComesUp(pol, s1, 0, false);
    ReachableRun(pol, s1, Locals(0, StartLines(false)));
    assert WithEnv(s1, 0, FirstStarted(false)) == Failing([E.Returned(false)], ST.NewService());
  }

  /** A step of the service alone. */
  lemma Serves(pol: Policy, s0: System, v: Service, a: Action, v': Service)
    requires var s := Failing([E.Returned(false)], v);
             PlainTo(pol, s0, s) && Possible(s, a) && v' == ServiceAfter(s, a)
    requires a.Enqueue? || a.Tick? || a.Receive?
    ensures PlainTo(pol, s0, Failing([E.Returned(false)], v'))
    ensures WellFormed(Failing([E.Returned(false)], v'))
  {
    hide PlainTo;
    var s := Failing([E.Returned(false)], v);
    SI.StepWellFormed(s, a);
    PlainOn(pol, s0, s, a);
    assert Step(s, a) == Failing([E.Returned(false)], v');
  }

  /** The failed program is queued and dequeued. */
  lemma FailingPopped(pol: Policy, s0: System)
    requires s0 == Failing([E.Returned(false)], ST.NewService())
    ensures PlainTo(pol, s0, Failing([E.Returned(false), E.Polled], Service([], true, false, false, Starting(0, 1))))
  {
    PlainNowhere(pol, s0);
    hide PlainTo;
    var v := ST.NewService();
    Serves(pol, s0, v, Enqueue(0), v.(queue := [0]));
    Serves(pol, s0, v.(queue := [0]), Tick, v.(queue := [0], pending := true));
    Serves(pol, s0, v.(queue := [0], pending := true), Receive, v.(queue := [0], processor := Ticked));
    var s := Failing([E.Returned(false)], v.(queue := [0], processor := Ticked));
    var t := Pops(pol, s0, s);
    assert [E.Returned(false)] + [E.Polled] == [E.Returned(false), E.Polled];
    assert t == Failing([E.Returned(false), E.Polled], Service([], true, false, false, Starting(0, 1)));
  }

  lemma ComesToEnter(pol: Policy, s0: System, s: System) returns (t: System)
    requires pol.starts.Exclusive? && PlainTo(pol, s0, s)
    requires s == Failing([E.Returned(false), E.Polled], Service([], true, false, false, Starting(0, 1)))
    ensures PlainTo(pol, s0, t) && Stuck(t)
  {
    hide PlainTo;
    t := Enters(pol, s0, s, 0, 1);
    assert t.servers[0].env.starters[1] == E.Entering;
  }

  /** A queue start that follows a failed spawn of the same program takes the processor with it. */
  lemma StuckOccurs(pol: Policy) returns (s: System)
    requires pol.starts.Exclusive?
    ensures Reachable(pol, s) && Stuck(s)
  {
    hide PlainTo, Reachable, Stuck;
    var s0 := Failing([E.Returned(false)], ST.NewService());
    SpawnFails(pol);
    FailingPopped(pol, s0);
    s := ComesToEnter(pol, s0, Failing([E.Returned(false), E.Polled], Service([], true, false, false, Starting(0, 1))));
    PlainLeads(pol, s0, s);
    ReachableLeads(pol, s0, s);
  }
}
