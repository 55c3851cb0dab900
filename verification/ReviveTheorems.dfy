/**
 * Whether a shutdown can be undone. When ShutdownService returns with no start under way, only the
 * ticks already delivered can start anything; RevivedIff says when they can if programs may still be
 * reloaded, and RevivedPlainIff when they can otherwise.
 */
module ReviveTheorems {
  import opened Common
  import opened Restart
  import opened Supervisor
  import opened ShutdownTheorems
  import E = Environment
  import EI = EnvironmentInvariant
  import ET = EnvironmentTheorems
  import PT = ProcessorTheorems
  import SI = SupervisorInvariant
  import SR = SupervisorRuns
  import ST = SupervisorTheorems

  // ---- With reloads ----

  /** Some run without direct starts, from s on, spawns a process. */
  ghost predicate Revives(s: System) {
    exists acts: seq<Action> :: Legal(ST.Disciplined(), s, acts) && Reviving(acts)
  }

  predicate Reviving(acts: seq<Action>) {
    && (forall i :: 0 <= i < |acts| ==> Undisturbed(acts[i]))
    && (exists i :: 0 <= i < |acts| && Spawns(acts[i]))
  }

  lemma RevivesFirst(s: System, a: Action)
    requires Enabled(ST.Disciplined(), s, a) && Undisturbed(a) && Revives(Step(s, a))
    ensures Revives(s)
  {
    hide Possible, Step;
    var acts :| Legal(ST.Disciplined(), Step(s, a), acts) && Reviving(acts);
    var i :| 0 <= i < |acts| && Spawns(acts[i]);
    First(ST.Disciplined(), s, a, acts);
    assert Spawns(([a] + acts)[i + 1]);
    assert Reviving([a] + acts);
  }

  lemma PollGoesOn()
    ensures E.Enabled(E.Exclusive, E.Fresh(E.Tty).(starters := [E.Polled]), E.Poll(0))
    ensures E.Step(E.Fresh(E.Tty).(starters := [E.Polled]), E.Poll(0)) == E.Fresh(E.Tty).(starters := [E.Requested])
  {
  }

  /** The processor has just entered an untouched environment of an enabled program. */
  lemma PolledRevives(s: System, at: nat)
    requires WellFormed(s) && at < |s.servers| && Owner(s, at).config.enabled
    requires s.servers[at].env == E.Fresh(E.Tty).(starters := [E.Polled])
    ensures Revives(s)
  {
    hide Legal, WellFormed, Step, Possible, E.Step, E.Possible, E.Permitted, SR.StartLines;
    PollGoesOn();
    SR.LocalStep(ST.Disciplined(), s, at, E.Poll(0));
    var s' := Step(s, Local(at, E.Poll(0)));
    SR.StartComesUp(ST.Disciplined(), s', at, true);
    assert Reviving(SR.Locals(at, SR.StartLines(true)));
    assert Revives(s');
    RevivesFirst(s, Local(at, E.Poll(0)));
  }

  /** The program at the front of the queue is enabled and points to an untouched tty environment. */
  ghost predicate FrontFresh(s: System) {
    && WellFormed(s) && s.service.queue != []
    && Current(s, s.service.queue[0]) == E.Fresh(E.Tty) && s.programs[s.service.queue[0]].config.enabled
  }

  lemma TickedRevives(s: System)
    requires FrontFresh(s) && s.service.processor.Ticked?
    ensures Revives(s)
  {
    var p, a := s.service.queue[0], Pop(true);
    var at := s.programs[p].env;
    assert E.Step(E.Fresh(E.Tty), E.Arrive(true)) == E.Fresh(E.Tty).(starters := [E.Polled]);
    assert EnvPart(s, a) == Some((at, E.Arrive(true)));
    SI.StepWellFormed(s, a);
    var s' := Step(s, a);
    assert s'.servers == s.servers[at := s.servers[at].(env := E.Fresh(E.Tty).(starters := [E.Polled]))];
    PolledRevives(s', at);
    RevivesFirst(s, a);
  }

  /** A step of the processor alone, on its way to the queue. */
  lemma ProcessorNext(s: System, a: Action)
    requires FrontFresh(s) && Possible(s, a) && (a.Receive? || a.Resume?)
    ensures Enabled(ST.Disciplined(), s, a) && FrontFresh(Step(s, a))
    ensures Step(s, a).service == ServiceAfter(s, a)
  {
    SI.StepWellFormed(s, a);
  }

  lemma FreshRevives(s: System)
    requires FrontFresh(s) && Closed(s) && TickFinds(s.service)
    ensures Revives(s)
  {
    hide Revives;
    if s.service.processor.Ticked? {
      TickedRevives(s);
    } else if s.service.processor.Idle? {
      IdleRevives(s);
    } else {
      assert Possible(s, Resume);
      ProcessorNext(s, Resume);
      IdleRevives(Step(s, Resume));
      RevivesFirst(s, Resume);
    }
  }

  lemma IdleRevives(s: System)
    requires FrontFresh(s) && s.service.processor.Idle? && s.service.pending
    ensures Revives(s)
  {
    hide Revives;
    ProcessorNext(s, Receive);
    TickedRevives(Step(s, Receive));
    RevivesFirst(s, Receive);
  }

  /** With no process in the way, a reload gives the program an untouched environment. */
  lemma ReloadableRevives(s: System)
    requires WellFormed(s) && Closed(s) && TickFinds(s.service) && Reloadable(Current(s, s.service.queue[0]))
    ensures Revives(s)
  {
    hide Revives;
    var p := s.service.queue[0];
    var a := Reload(p, E.Tty, Config(true, false, false));
    ST.ReloadedFresh(s, a);
    ReloadKeepsClosed(s, a);
    FreshRevives(Step(s, a));
    RevivesFirst(s, a);
  }

  lemma ReloadKeepsClosed(s: System, a: Action)
    requires Closed(s) && Possible(s, a) && a.Reload?
    ensures Closed(Step(s, a)) && Step(s, a).service == s.service
  {
    SI.ReloadedServer(s, a);
  }

  /** A process in an environment where nobody starts can end, and be reaped by its handler. */
  lemma LiveEnds(e: E.Env) returns (b: E.Action)
    requires EI.Inv(e) && ST.Unstarted(e) && !Reloadable(e)
    ensures E.Enabled(E.Exclusive, e, b) && SR.OwnLine(b, true) && SR.OwnLine(b, false) && !b.Spawn?
    ensures ST.Unstarted(E.Step(e, b)) && ET.Rank(E.Step(e, b)) < ET.Rank(e)
  {
    var r :| 0 <= r < |e.runs| && E.Live(e.runs[r].proc);
    LiveHandled(e, r);
    b := ET.HandlerLine(r, e.runs[r]);
    ET.HandlerGoesOn(e);
    ET.OwnHandle(e, r);
    hide EI.Inv, E.Step;
    ET.HandlerLowers(e);
    UnstartedShrinks(e, b);
  }

  lemma LiveHandled(e: E.Env, r: nat)
    requires EI.Inv(e) && ST.Unstarted(e) && r < |e.runs| && E.Live(e.runs[r].proc)
    ensures r == |e.runs| - 1 && (e.runs[r].handler.Attaching? || e.runs[r].handler.Waiting?)
  {
    assert EI.RunOk(e.kind, r, e.runs[r]);
  }

  /** What the lines up to the reload keep. */
  ghost predicate Reviveable(s: System) {
    WellFormed(s) && SI.EnvsOk(s) && Closed(s) && TickFinds(s.service)
  }

  lemma {:induction false} ClosedRevives(s: System)
    requires Reviveable(s)
    ensures Revives(s)
    decreases ET.Rank(Current(s, s.service.queue[0]))
  {
    hide Revives, E.Step, EI.Inv, ET.Rank, Reloadable, ST.Unstarted;
    var at := s.programs[s.service.queue[0]].env;
    if Reloadable(s.servers[at].env) {
      ReloadableRevives(s);
    } else {
      var b := LiveEnds(s.servers[at].env);
      var a := Local(at, b);
      SR.LocalStep(ST.Disciplined(), s, at, b);
      SI.EnvsKept(ST.Disciplined(), s, a);
      ClosedRevives(Step(s, a));
      RevivesFirst(s, a);
    }
  }

  /**
   * Whether shutdown can be undone at all, decided at ShutdownService: if no start is under way when
   * it returns, some run without direct starts, but perhaps with reloads, spawns a process again if
   * and only if a tick that was already delivered will find a program in the queue.
   */
  lemma RevivedIff(s: System)
    requires Reachable(ST.Disciplined(), s) && Closed(s)
    ensures Revives(s) <==> s.service.queue != [] && (s.service.pending || s.service.processor.Ticked?)
  {
    if TickFinds(s.service) {
      SI.ReachableWellFormed(ST.Disciplined(), s);
      SI.ReachableEnvs(ST.Disciplined(), s);
      ClosedRevives(s);
    } else if Revives(s) {
      hide Reachable, Step, Possible;
      var acts :| Legal(ST.Disciplined(), s, acts) && Reviving(acts);
      QuietRun(ST.Disciplined(), s, acts);
      assert false;
    }
  }

  // ---- Without reloads ----

  /** Some run without direct starts and without reloads, from s on, spawns a process. */
  ghost predicate RevivesPlainly(s: System) {
    exists t: System, a: Action ::
      SR.PlainTo(ST.Disciplined(), s, t) && Enabled(ST.Disciplined(), t, a) && Spawns(a)
  }

  /** The ticks that were delivered and have not been used. */
  function Ticks(v: Service): nat {
    (if v.pending then 1 else 0) + (if v.processor.Ticked? then 1 else 0)
  }

  /** The program is enabled, and the newest spawn of its environment did not fail. */
  predicate Startable(s: System, p: nat)
    requires WellFormed(s) && p < |s.programs|
  {
    s.programs[p].config.enabled && !ET.Wedged(Current(s, p))
  }

  /** A start that has only arrived gives up: it is refused, or a pre-execution step fails. */
  lemma {:induction false} GivesUp(s0: System, s: System, at: nat, k: nat) returns (t: System)
    requires SR.PlainTo(ST.Disciplined(), s0, s) && WellFormed(s) && SI.EnvsOk(s) && at < |s.servers|
    requires k < |s.servers[at].env.starters|
    requires var st := s.servers[at].env.starters[k]; st.Polled? || st.Requested? || st.Preparing?
    ensures SR.PlainTo(ST.Disciplined(), s0, t) && WellFormed(t) && SI.EnvsOk(t)
    ensures var e := s.servers[at].env;
            t == SR.WithEnv(s, at, e.(starters := e.starters[k := E.Returned(false)]))
    decreases PT.ToGo(s.servers[at].env.starters[k])
  {
    hide SR.PlainTo, WellFormed, EI.Inv, Step, Possible;
    var e, enabled := s.servers[at].env, Owner(s, at).config.enabled;
    var b := PT.NextOf(e.starters[k], k, enabled);
    SR.LocalStep(ST.Disciplined(), s, at, b);
    SI.EnvsKept(ST.Disciplined(), s, Local(at, b));
    SR.PlainOn(ST.Disciplined(), s0, s, Local(at, b));
    t := Step(s, Local(at, b));
    var st := t.servers[at].env.starters[k];
    assert t.servers[at].env == e.(starters := e.starters[k := st]);
    if st != E.Returned(false) {
      SR.WithEnvTwice(s, at, t.servers[at].env, e.(starters := e.starters[k := E.Returned(false)]));
      t := GivesUp(s0, t, at, k);
      assert e.starters[k := st][k := E.Returned(false)] == e.starters[k := E.Returned(false)];
    }
  }

  /** The lines of the queue start up to its spawn, in an environment that is out of the way. */
  lemma FreeStart(s0: System, s: System, at: nat, k: nat)
    requires SR.PlainTo(ST.Disciplined(), s0, s) && WellFormed(s) && at < |s.servers|
    requires Owner(s, at).config.enabled && k < |s.servers[at].env.starters|
    requires s.servers[at].env.starters[k].Polled?
    requires !E.IsRunning(s.servers[at].env) && ET.Passable(E.Exclusive, s.servers[at].env)
    ensures RevivesPlainly(s0)
  {
    hide SR.PlainTo, WellFormed, RevivesPlainly, ET.Passable;
    var pol, e := ST.Disciplined(), s.servers[at].env;
    var t := PT.Enters(pol, s0, s, at, k);
    t := SR.Go(pol, s0, s, at, e.(starters := e.starters[k := E.Entering]), E.Enter(k),
               e.(starters := e.starters[k := E.Blocked]));
    BlockedStart(s0, s, at, e, k);
  }

  lemma BlockedStart(s0: System, s: System, at: nat, e: E.Env, k: nat)
    requires at < |s.servers| && k < |e.starters| && ET.Passable(E.Exclusive, e) && !e.starters[k].Raising?
    requires var now := SR.WithEnv(s, at, e.(starters := e.starters[k := E.Blocked]));
             SR.PlainTo(ST.Disciplined(), s0, now) && WellFormed(now)
    ensures RevivesPlainly(s0)
  {
    hide SR.PlainTo, WellFormed;
    var pol, r := ST.Disciplined(), |e.runs|;
    var e4, e5 := e.(starters := e.starters[k := E.Blocked]), e.(starters := e.starters[k := E.Raising]);
    var e6 := e.(wait := e.wait + 1, runs := e.runs + [E.Run(E.Unspawned, false, E.Unlaunched)],
                 starters := e.starters[k := E.Installing(r)]);
    var e7 := e6.(handle := Some(r), starters := e.starters[k := E.Spawning(r)]);
    var t := SR.Go(pol, s0, s, at, e4, E.PassWait(k), e5);
    t := SR.Go(pol, s0, s, at, e5, E.Raise(k), e6);
    t := SR.Go(pol, s0, s, at, e6, E.Install(k), e7);
    SR.LocalStep(pol, t, at, E.Spawn(k, true));
    assert Spawns(Local(at, E.Spawn(k, true)));
  }

  /** A start that has just been dequeued spawns, if its program is enabled and its environment not wedged. */
  lemma PolledSpawns(s0: System, s: System, at: nat, k: nat)
    requires SR.PlainTo(ST.Disciplined(), s0, s) && WellFormed(s) && SI.EnvsOk(s) && at < |s.servers|
    requires k < |s.servers[at].env.starters| && s.servers[at].env.starters[k].Polled?
    requires Owner(s, at).config.enabled && !ET.Wedged(s.servers[at].env)
    ensures RevivesPlainly(s0)
  {
    hide SR.PlainTo, EI.Inv, RevivesPlainly, PT.Work, E.IsRunning, ET.Passable, ET.Wedged;
    var t := PT.Drive(ST.Disciplined(), s0, s, at);
    PT.FreeMeaning(t.servers[at].env);
    FreeStart(s0, t, at, k);
  }

  /** Where the search for a program that can be started stands: entry i is still to come. */
  ghost predicate Awaits(s: System, i: nat) {
    && WellFormed(s) && SI.EnvsOk(s) && Closed(s) && i < |s.service.queue| && i < Ticks(s.service)
    && Startable(s, s.service.queue[i])
  }

  lemma {:induction false} Dequeues(s0: System, s: System, i: nat)
    requires SR.PlainTo(ST.Disciplined(), s0, s) && Awaits(s, i)
    ensures RevivesPlainly(s0)
    decreases i, if s.service.processor.Starting? then 2 else if s.service.processor.Idle? then 1 else 0
  {
    hide SR.PlainTo, RevivesPlainly, EI.Inv, ET.Wedged;
    var pol := ST.Disciplined();
    if s.service.processor.Starting? {
      var t := PT.Resumes(pol, s0, s, s.service.processor.at, s.service.processor.k);
      Dequeues(s0, t, i);
    } else if s.service.processor.Idle? {
      var t := Receives(s0, s);
      Dequeues(s0, t, i);
    } else if i == 0 {
      var t := PT.Pops(pol, s0, s);
      PT.PoppedEnvs(s, t);
      WedgedByRuns(Current(s, s.service.queue[0]), t.servers[t.service.processor.at].env);
      PolledSpawns(s0, t, t.service.processor.at, t.service.processor.k);
    } else {
      var t := Skips(s0, s);
      SkipAwaits(s, t, i);
      Dequeues(s0, t, i - 1);
    }
  }

  lemma WedgedByRuns(e: E.Env, e': E.Env)
    requires e.runs == e'.runs
    ensures ET.Wedged(e) <==> ET.Wedged(e')
  {
  }

  lemma Receives(s0: System, s: System) returns (t: System)
    requires SR.PlainTo(ST.Disciplined(), s0, s) && WellFormed(s)
    requires s.service.processor.Idle? && s.service.pending
    ensures SR.PlainTo(ST.Disciplined(), s0, t) && WellFormed(t)
    ensures t == s.(service := s.service.(pending := false, processor := Ticked))
  {
    hide SR.PlainTo;
    SI.StepWellFormed(s, Receive);
    SR.PlainOn(ST.Disciplined(), s0, s, Receive);
    t := Step(s, Receive);
  }

  /** The tick in hand is spent on the front program, whose start gives up. */
  lemma Skips(s0: System, s: System) returns (t: System)
    requires SR.PlainTo(ST.Disciplined(), s0, s) && WellFormed(s) && SI.EnvsOk(s)
    requires s.service.processor.Ticked? && s.service.queue != []
    ensures SR.PlainTo(ST.Disciplined(), s0, t) && WellFormed(t) && SI.EnvsOk(t)
    ensures t.programs == s.programs
    ensures t.service == s.service.(queue := s.service.queue[1..], processor := Idle)
    ensures var at := s.programs[s.service.queue[0]].env;
            var e := s.servers[at].env;
            t.servers == SR.WithEnv(s, at, e.(starters := e.starters + [E.Returned(false)])).servers
  {
    hide SR.PlainTo, EI.Inv;
    var pol := ST.Disciplined();
    var at := s.programs[s.service.queue[0]].env;
    var e := s.servers[at].env;
    var k := |e.starters|;
    t := PT.Pops(pol, s0, s);
    PT.PoppedEnvs(s, t);
    assert t.servers[at].env.starters[k] == E.Polled;
    t := GivesUp(s0, t, at, k);
    assert (e.starters + [E.Polled])[k := E.Returned(false)] == e.starters + [E.Returned(false)];
    assert t.servers[at].env == e.(starters := e.starters + [E.Returned(false)]);
    t := PT.Resumes(pol, s0, t, at, k);
  }

  lemma SkipAwaits(s: System, t: System, i: nat)
    requires Awaits(s, i) && i > 0 && s.service.processor.Ticked? && WellFormed(t) && SI.EnvsOk(t)
    requires t.programs == s.programs
    requires t.service == s.service.(queue := s.service.queue[1..], processor := Idle)
    requires var at := s.programs[s.service.queue[0]].env;
             var e := s.servers[at].env;
             t.servers == SR.WithEnv(s, at, e.(starters := e.starters + [E.Returned(false)])).servers
    ensures Awaits(t, i - 1)
  {
    hide EI.Inv;
  }

  // ---- Programs that cannot be started ----

  /** A start that will not get to a spawn as long as the program is not reloaded. */
  predicate Barred(e: E.Env, enabled: bool, st: E.Starter) {
    || st.Returned?
    || (ET.Wedged(e) && !E.InFlight(st))
    || (!enabled && (st.Polled? || st.Requested?))
  }

  predicate BarredEnv(e: E.Env, enabled: bool) {
    forall k :: 0 <= k < |e.starters| ==> Barred(e, enabled, e.starters[k])
  }

  lemma BarredLine(e: E.Env, enabled: bool, b: E.Action)
    requires EI.Inv(e) && BarredEnv(e, enabled) && E.Enabled(E.Exclusive, e, b)
    requires (b.Check? ==> b.enabled == enabled) && (b.Arrive? ==> b.polled && (!enabled || ET.Wedged(e)))
    ensures BarredEnv(E.Step(e, b), enabled) && !b.Spawn?
    ensures ET.Wedged(e) ==> ET.Wedged(E.Step(e, b))
  {
    if ET.Wedged(e) {
      WedgedLine(e, enabled, b);
    } else {
      DisabledLine(e, enabled, b);
    }
  }

  lemma WedgedLine(e: E.Env, enabled: bool, b: E.Action)
    requires EI.Inv(e) && ET.Wedged(e) && E.Enabled(E.Exclusive, e, b)
    ensures BarredEnv(E.Step(e, b), enabled) && !b.Spawn? && ET.Wedged(E.Step(e, b))
  {
    hide EI.Inv, E.Step, ET.Wedged;
    ET.WedgedStays(e, b);
    EI.StepKeeps(e, b);
    forall k | 0 <= k < |E.Step(e, b).starters| ensures !E.InFlight(E.Step(e, b).starters[k]) {
      PT.WedgedInFlight(E.Step(e, b), k);
    }
  }

  lemma DisabledLine(e: E.Env, enabled: bool, b: E.Action)
    requires !ET.Wedged(e) && BarredEnv(e, enabled) && E.Possible(e, b)
    requires (b.Check? ==> b.enabled == enabled) && (b.Arrive? ==> b.polled && !enabled)
    ensures BarredEnv(E.Step(e, b), enabled) && !b.Spawn?
  {
    assert forall k :: 0 <= k < |e.starters| ==> Barred(e, enabled, e.starters[k]);
  }

  /** No start gets to a spawn, and no delivered tick can reach a program that can be started. */
  ghost predicate Dormant(s: System) {
    && WellFormed(s) && SI.EnvsOk(s) && !s.service.running && s.service.stopped
    && (forall at :: 0 <= at < |s.servers| ==> BarredEnv(s.servers[at].env, Owner(s, at).config.enabled))
    && (forall i :: 0 <= i < |s.service.queue| && i < Ticks(s.service) ==> !Startable(s, s.service.queue[i]))
  }

  lemma ConfigsKept(s: System, a: Action)
    requires Possible(s, a) && !a.Reload?
    ensures |ProgramsAfter(s, a)| == |s.programs|
    ensures forall p :: 0 <= p < |s.programs| ==>
              ProgramsAfter(s, a)[p].config == s.programs[p].config && ProgramsAfter(s, a)[p].env == s.programs[p].env
  {
  }

  /** The only starts that arrive are of a program at the front of the queue, which cannot be started. */
  lemma ArrivalBarred(s: System, a: Action)
    requires Dormant(s) && Possible(s, a) && SR.Plain(a) && EnvPart(s, a).Some? && EnvPart(s, a).value.1.Arrive?
    ensures EnvPart(s, a).value.1.polled && EnvPart(s, a).value.0 < |s.servers|
    ensures var at := EnvPart(s, a).value.0; !Owner(s, at).config.enabled || ET.Wedged(s.servers[at].env)
  {
    hide EI.Inv, BarredEnv, ET.Wedged;
    assert a.Pop? && a.hit;
    assert !Startable(s, s.service.queue[0]);
  }

  lemma ServerBarred(s: System, a: Action, at: nat)
    requires Dormant(s) && Enabled(ST.Disciplined(), s, a) && SR.Plain(a) && at < |s.servers|
    ensures at < |ServersAfter(s, a)| == |s.servers| && ServersAfter(s, a)[at].owner == s.servers[at].owner
    ensures BarredEnv(ServersAfter(s, a)[at].env, Owner(s, at).config.enabled)
    ensures ET.Wedged(s.servers[at].env) ==> ET.Wedged(ServersAfter(s, a)[at].env)
    ensures a.Local? && a.at == at ==> !Attempts(a)
  {
    hide EI.Inv, BarredEnv, ET.Wedged, E.Step, E.Possible, Startable;
    if EnvPart(s, a).Some? && EnvPart(s, a).value.0 == at {
      EnvPartPossible(s, a);
      if EnvPart(s, a).value.1.Arrive? { ArrivalBarred(s, a); }
      BarredLine(s.servers[at].env, Owner(s, at).config.enabled, EnvPart(s, a).value.1);
    }
  }

  /** A step uses the ticks up, from the front of the queue. */
  lemma QueueUsed(s: System, a: Action)
    requires Possible(s, a) && SR.Plain(a) && !s.service.running && s.service.stopped
    ensures var v, v' := s.service, ServiceAfter(s, a);
            && !v'.running && v'.stopped
            && exists d: nat :: d <= |v.queue| && v'.queue == v.queue[d..] && Ticks(v') + d <= Ticks(v)
  {
    var d := if a.Pop? && a.hit then 1 else 0;
    assert ServiceAfter(s, a).queue == s.service.queue[d..] && Ticks(ServiceAfter(s, a)) + d <= Ticks(s.service);
  }

  lemma DormantStays(s: System, a: Action)
    requires Dormant(s) && Enabled(ST.Disciplined(), s, a) && SR.Plain(a)
    ensures Dormant(Step(s, a)) && !Attempts(a)
  {
    hide EI.Inv, BarredEnv, ET.Wedged, E.Step, E.Possible, ServersAfter, ProgramsAfter, ServiceAfter, Ticks;
    SI.StepWellFormed(s, a);
    SI.EnvsKept(ST.Disciplined(), s, a);
    ConfigsKept(s, a);
    QueueUsed(s, a);
    var s' := Step(s, a);
    forall at | 0 <= at < |s'.servers|
      ensures BarredEnv(s'.servers[at].env, Owner(s', at).config.enabled)
    {
      ServerSize(s, a);
      ServerBarred(s, a, at);
    }
    QueueStaysBarred(s, a);
    if a.Local? { ServerBarred(s, a, a.at); }
  }

  lemma ServerSize(s: System, a: Action)
    requires Possible(s, a) && !a.Reload?
    ensures |ServersAfter(s, a)| == |s.servers|
  {
    SI.ServersGrow(s, a);
  }

  lemma QueueStaysBarred(s: System, a: Action)
    requires Dormant(s) && Enabled(ST.Disciplined(), s, a) && SR.Plain(a)
    ensures WellFormed(Step(s, a))
    ensures var s' := Step(s, a);
            forall i :: 0 <= i < |s'.service.queue| && i < Ticks(s'.service) ==> !Startable(s', s'.service.queue[i])
  {
    hide EI.Inv, BarredEnv, Startable, Possible, ServersAfter, ProgramsAfter, ServiceAfter, Ticks;
    SI.StepWellFormed(s, a);
    QueueUsed(s, a);
    var s' := Step(s, a);
    var d: nat :| d <= |s.service.queue| && s'.service.queue == s.service.queue[d..]
                  && Ticks(s'.service) + d <= Ticks(s.service);
    forall i | 0 <= i < |s'.service.queue| && i < Ticks(s'.service) ensures !Startable(s', s'.service.queue[i]) {
      var p := s.service.queue[i + d];
      assert s'.service.queue[i] == p && !Startable(s, p);
      UnstartableStays(s, a, p);
    }
  }

  lemma UnstartableStays(s: System, a: Action, p: nat)
    requires Dormant(s) && Enabled(ST.Disciplined(), s, a) && SR.Plain(a) && p < |s.programs| && !Startable(s, p)
    ensures WellFormed(Step(s, a)) && p < |Step(s, a).programs| && !Startable(Step(s, a), p)
  {
    SI.StepWellFormed(s, a);
    ConfigsKept(s, a);
    ServerBarred(s, a, s.programs[p].env);
    hide EI.Inv, BarredEnv, ET.Wedged, Possible, ServersAfter, ProgramsAfter, ServiceAfter, Ticks;
  }

  lemma {:induction false} DormantRun(s: System, acts: seq<Action>)
    requires Dormant(s) && Legal(ST.Disciplined(), s, acts) && forall i :: 0 <= i < |acts| ==> SR.Plain(acts[i])
    ensures Dormant(Exec(ST.Disciplined(), s, acts))
    decreases acts
  {
    hide Dormant, Step, Possible;
    if acts != [] {
      DormantStays(s, acts[0]);
      assert forall i :: 0 <= i < |acts[1..]| ==> acts[1..][i] == acts[i + 1];
      DormantRun(Step(s, acts[0]), acts[1..]);
    }
  }

  /** Some queue entry that the delivered ticks can reach belongs to a program that can be started. */
  ghost predicate TickReaches(s: System)
    requires WellFormed(s)
  {
    exists i: nat :: i < |s.service.queue| && i < Ticks(s.service) && Startable(s, s.service.queue[i])
  }

  lemma ClosedDormant(s: System)
    requires WellFormed(s) && SI.EnvsOk(s) && Closed(s) && !TickReaches(s)
    ensures Dormant(s)
  {
    hide EI.Inv, Startable, Ticks;
  }

  lemma DormantNever(s: System)
    requires Dormant(s)
    ensures !RevivesPlainly(s)
  {
    hide Dormant, Step, Possible;
    if t: System, a: Action :| SR.PlainTo(ST.Disciplined(), s, t) && Enabled(ST.Disciplined(), t, a) && Spawns(a) {
      var acts: seq<Action> :| Legal(ST.Disciplined(), s, acts) && Exec(ST.Disciplined(), s, acts) == t
                               && forall i :: 0 <= i < |acts| ==> SR.Plain(acts[i]);
      DormantRun(s, acts);
      DormantStays(t, a);
      assert false;
    }
  }

  /**
   * What the daemon can still start by itself, decided at ShutdownService: if no start is under way
   * when it returns, some run without direct starts and reloads spawns a process if and only if one
   * of the queue entries that the delivered ticks can reach (at most two) belongs to an enabled program
   * whose environment's newest spawn did not fail.
   */
  lemma RevivedPlainIff(s: System)
    requires Reachable(ST.Disciplined(), s) && Closed(s)
    ensures WellFormed(s) && (RevivesPlainly(s) <==> TickReaches(s))
  {
    SI.ReachableWellFormed(ST.Disciplined(), s);
    SI.ReachableEnvs(ST.Disciplined(), s);
    hide Reachable, SI.EnvsOk, WellFormed, Closed, Startable, RevivesPlainly, SR.PlainTo, Dormant;
    if TickReaches(s) {
      var i: nat :| i < |s.service.queue| && i < Ticks(s.service) && Startable(s, s.service.queue[i]);
      SR.PlainNowhere(ST.Disciplined(), s);
      assert Awaits(s, i);
      Dequeues(s, s, i);
    } else {
      ClosedDormant(s);
      DormantNever(s);
    }
  }

  // ---- It happens ----

  /** Steps of the service alone. */
  lemma ServiceNext(v: Service, a: Action, v': Service)
    requires WellFormed(ST.Lone(v)) && Possible(ST.Lone(v), a) && v' == ServiceAfter(ST.Lone(v), a)
    requires a.Enqueue? || a.Tick? || a.ShutdownService?
    ensures Enabled(ST.Disciplined(), ST.Lone(v), a) && Step(ST.Lone(v), a) == ST.Lone(v')
    ensures WellFormed(ST.Lone(v'))
  {
    SI.StepWellFormed(ST.Lone(v), a);
  }

  /** ShutdownService returns with a program queued and a tick delivered. */
  lemma TickPending() returns (s: System)
    ensures Reachable(ST.Disciplined(), s)
    ensures s == ST.Lone(Service([0], false, true, true, Idle))
  {
    hide Reachable, Step;
    var pol, v0 := ST.Disciplined(), ST.NewService();
    var v1, v2 := v0.(queue := [0]), v0.(queue := [0], pending := true);
    ST.LoneReachable(pol);
    ServiceNext(v0, Enqueue(0), v1);
    ReachableStep(pol, ST.Lone(v0), Enqueue(0));
    ServiceNext(v1, Tick, v2);
    ReachableStep(pol, ST.Lone(v1), Tick);
    ServiceNext(v2, ShutdownService, v2.(running := false, stopped := true));
    ReachableStep(pol, ST.Lone(v2), ShutdownService);
    s := ST.Lone(v2.(running := false, stopped := true));
  }

  /** So a tick pending at ShutdownService can start a server afterwards, although every server was dead. */
  lemma PendingTickRevives() returns (s: System)
    ensures Reachable(ST.Disciplined(), s) && Closed(s) && RevivesPlainly(s)
    ensures forall at :: 0 <= at < |s.servers| ==> Dead(s.servers[at].env)
  {
    hide Reachable, RevivesPlainly;
    s := TickPending();
    RevivedPlainIff(s);
    assert s.service.queue[0] == 0 && Startable(s, 0);
    assert TickReaches(s);
  }
}
