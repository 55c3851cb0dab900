/**
 * What the standard environment guarantees when starts overtake a close handler. Its handler calls
 * Wait.Done() before it is done with mainProcess: PassSafeIff says when a start may pass without
 * getting lost, and this module when it may pass without ending in two running processes.
 */
module StandardTheorems {
  import opened Common
  import opened Environment
  import opened EnvironmentInvariant
  import opened EnvironmentTheorems

  /** The lines on which a run stands in the way of the next one. */
  predicate InTheWay(d: Discipline, h: Handler) {
    Holds(Standard, h) || (d.Released? && Unreleased(Standard, h))
  }

  /** The lines before Wait() has returned. */
  predicate Early(h: Handler) {
    h.Unlaunched? || h.Attaching? || h.Waiting?
  }

  /**
   * A run whose Wait() has returned is not running, and nobody waits on another's. Under Released it
   * is not even unreaped, because no other handler has released it; under Serialised that takes that
   * no process closes its output.
   */
  predicate EndedOk(d: Discipline, r: nat, run: Run) {
    && (run.handler.Waiting? ==> run.handler.target == r)
    && (run.handler.Unlaunched? ==> !run.proc.Reaped?)
    && (Running(run.proc) ==> Early(run.handler))
    && (d.Serialised? ==> !run.proc.Silent?)
    && (d.Released? && Early(run.handler) ==> !run.detached)
    && (d.Released? && !run.handler.Unlaunched? ==> (Live(run.proc) <==> Early(run.handler)))
  }

  /** A late handler may have cleared the handle of run r, but not replaced it. */
  predicate OwnOrCleared(e: Env, r: nat) {
    e.handle == None || e.handle == Some(r)
  }

  predicate PastWaitOk(d: Discipline, e: Env, st: Starter) {
    match st
    case Raising => e.wait == 0 && (d.Released? ==> AllReleased(e))
    case Installing(r) => r + 1 == |e.runs| && e.runs[r] == Run(Unspawned, false, Unlaunched)
    case Spawning(r) => r + 1 == |e.runs| && e.runs[r] == Run(Unspawned, false, Unlaunched) && OwnOrCleared(e, r)
    case Launching(r) =>
      r + 1 == |e.runs| && e.runs[r].handler.Unlaunched? && Live(e.runs[r].proc) && OwnOrCleared(e, r)
    case _ => true
  }

  /** What the discipline keeps in the standard environment: Released always, Serialised without a silenced process. */
  ghost predicate Weak(d: Discipline, e: Env) {
    && (d.Serialised? || d.Released?) && e.kind.Standard? && Serial(e)
    && (forall k :: 0 <= k < |e.starters| ==> PastWaitOk(d, e, e.starters[k]))
    && e.wait == Sum(e.runs, HoldCount(Standard))
    && (forall r :: 0 <= r < |e.runs| - 1 ==> !InTheWay(d, e.runs[r].handler))
    && (forall r :: 0 <= r < |e.runs| ==> EndedOk(d, r, e.runs[r]))
    && (forall r :: 0 <= r < |e.runs| && InTheWay(d, e.runs[r].handler) && !e.runs[r].handler.Unlaunched?
          ==> OwnOrCleared(e, r))
  }

  lemma WeakOneRunning(d: Discipline, e: Env)
    requires Weak(d, e)
    ensures OneRunning(e) && (d.Released? ==> OneLive(e))
  {
    forall r | 0 <= r < |e.runs| && (Running(e.runs[r].proc) || (d.Released? && Live(e.runs[r].proc)))
      ensures r == |e.runs| - 1
    {
      assert EndedOk(d, r, e.runs[r]) && Holds(Standard, e.runs[r].handler);
    }
  }

  // ---- The lines of a start ----

  lemma WeakPass(d: Discipline, e: Env, k: nat)
    requires Weak(d, e) && Enabled(d, e, PassWait(k))
    ensures Weak(d, Step(e, PassWait(k)))
  {
    NewestHolds(Standard, e.runs);
    forall i | 0 <= i < |e.starters| ensures !InFlight(e.starters[i]) {
      assert PastWaitOk(d, e, e.starters[i]);
    }
  }

  lemma WeakRaise(d: Discipline, e: Env, k: nat)
    requires Weak(d, e) && Possible(e, Raise(k))
    ensures Weak(d, Step(e, Raise(k)))
  {
    var e' := Step(e, Raise(k));
    assert PastWaitOk(d, e, e.starters[k]);
    NewestHolds(Standard, e.runs);
    SumAppend(e.runs, Run(Unspawned, false, Unlaunched), HoldCount(Standard));
    forall j | 0 <= j < |e'.starters| ensures PastWaitOk(d, e', e'.starters[j]) {
      if j != k { assert !InFlight(e.starters[j]); }
    }
    assert forall r :: 0 <= r < |e.runs| ==> EndedOk(d, r, e'.runs[r]) && !InTheWay(d, e'.runs[r].handler);
  }

  lemma WeakStarterMoves(d: Discipline, e: Env, k: nat, st: Starter)
    requires Weak(d, e) && k < |e.starters| && PastWaitOk(d, e, st)
    requires InFlight(st) ==> InFlight(e.starters[k])
    ensures Weak(d, WithStarter(e, k, st))
  {
    var e' := WithStarter(e, k, st);
    forall j | 0 <= j < |e'.starters| ensures PastWaitOk(d, e', e'.starters[j]) {
      if j != k { assert PastWaitOk(d, e, e.starters[j]); }
    }
  }

  lemma WeakBeforeWait(d: Discipline, e: Env, a: Action)
    requires Weak(d, e) && Possible(e, a) && (a.Poll? || a.Check? || a.Prepare? || a.Enter?)
    ensures Weak(d, Step(e, a))
  {
    WeakStarterMoves(d, e, a.k, Step(e, a).starters[a.k]);
  }

  lemma WeakInstall(d: Discipline, e: Env, k: nat)
    requires Weak(d, e) && Possible(e, Install(k))
    ensures Weak(d, Step(e, Install(k)))
  {
    var e' := Step(e, Install(k));
    assert PastWaitOk(d, e, e.starters[k]);
    forall j | 0 <= j < |e'.starters| ensures PastWaitOk(d, e', e'.starters[j]) {
      if j != k { assert !InFlight(e.starters[j]); }
    }
  }

  /** The single starter in flight spawns or launches the newest run. */
  lemma WeakNewestMoves(d: Discipline, e: Env, e': Env, k: nat, run: Run)
    requires Weak(d, e) && k < |e.starters| && (e.starters[k].Spawning? || e.starters[k].Launching?)
    requires |e'.starters| == |e.starters| && e'.starters == e.starters[k := e'.starters[k]]
    requires PastWaitOk(d, e', e'.starters[k])
    requires e.starters[k].run < |e.runs|
    requires e' == WithStarter(e, k, e'.starters[k]).(runs := e.runs[e.starters[k].run := run])
    requires EndedOk(d, e.starters[k].run, run) && Holds(Standard, run.handler)
    ensures Weak(d, e')
  {
    var r := e.starters[k].run;
    assert PastWaitOk(d, e, e.starters[k]);
    HoldUnchanged(e, r, run);
    forall j | 0 <= j < |e'.starters| ensures PastWaitOk(d, e', e'.starters[j]) {
      if j != k { assert !InFlight(e.starters[j]); }
    }
  }

  lemma WeakSpawn(d: Discipline, e: Env, a: Action)
    requires Weak(d, e) && Possible(e, a) && (a.Spawn? || a.Launch?)
    ensures Weak(d, Step(e, a))
  {
    var e', r := Step(e, a), e.starters[a.k].run;
    assert PastWaitOk(d, e, e.starters[a.k]) && EndedOk(d, r, e.runs[r]);
    WeakNewestMoves(d, e, e', a.k, e'.runs[r]);
  }

  lemma WeakArrive(d: Discipline, e: Env, polled: bool)
    requires Weak(d, e)
    ensures Weak(d, Step(e, Arrive(polled)))
  {
    var e' := Step(e, Arrive(polled));
    forall j | 0 <= j < |e'.starters| ensures PastWaitOk(d, e', e'.starters[j]) {
      if j < |e.starters| { assert PastWaitOk(d, e, e.starters[j]); }
    }
  }

  // ---- The lines of processes, close handlers and waiters ----

  /** A step that moves one run, keeps its hold on the wait group and gets in nobody's way. */
  lemma WeakRunMoves(d: Discipline, e: Env, e': Env, r: nat)
    requires Weak(d, e) && r < |e.runs| && |e'.runs| == |e.runs| && EndedOk(d, r, e'.runs[r])
    requires e' == e.(runs := e.runs[r := e'.runs[r]], handle := e'.handle)
    requires e'.handle == e.handle || e'.handle == None
    requires Holds(Standard, e'.runs[r].handler) == Holds(Standard, e.runs[r].handler)
    requires InTheWay(d, e'.runs[r].handler) ==> InTheWay(d, e.runs[r].handler)
    requires e'.runs[r].handler.Unlaunched? == e.runs[r].handler.Unlaunched?
    requires e.runs[r].handler.Unlaunched? ==> Live(e.runs[r].proc) && Live(e'.runs[r].proc)
    ensures Weak(d, e')
  {
    HoldUnchanged(e, r, e'.runs[r]);
    forall k | 0 <= k < |e'.starters| ensures PastWaitOk(d, e', e'.starters[k]) {
      assert PastWaitOk(d, e, e.starters[k]);
    }
  }

  lemma WeakHandler(d: Discipline, e: Env, a: Action)
    requires Weak(d, e) && Possible(e, a) && (a.Silence? ==> d.Released?)
    requires a.Silence? || a.Exit? || a.Attach? || a.Reap? || a.WaitFails? || a.Judge? || a.Clear? || a.Advance?
    ensures Weak(d, Step(e, a))
  {
    assert EndedOk(d, a.r, e.runs[a.r]);
    WeakRunMoves(d, e, Step(e, a), a.r);
  }

  /** A handler of an older run may release the newest one under Serialised, but not under Released. */
  lemma WeakRelease(d: Discipline, e: Env, r: nat)
    requires Weak(d, e) && Possible(e, Release(r))
    ensures Weak(d, Step(e, Release(r)))
  {
    var after := Detach(e);
    if after != e {
      assert EndedOk(d, e.handle.value, e.runs[e.handle.value]);
      WeakRunMoves(d, e, after, e.handle.value);
    }
    assert EndedOk(d, r, after.runs[r]);
    WeakRunMoves(d, after, Step(e, Release(r)), r);
  }

  lemma WeakSignal(d: Discipline, e: Env, r: nat)
    requires Weak(d, e) && Possible(e, Signal(r))
    ensures Weak(d, Step(e, Signal(r)))
  {
    var e' := Step(e, Signal(r));
    NewestHolds(Standard, e.runs);
    SumUpdate(e.runs, r, e'.runs[r], HoldCount(Standard));
    assert EndedOk(d, r, e.runs[r]) && EndedOk(d, r, e'.runs[r]);
    forall k | 0 <= k < |e'.starters| ensures PastWaitOk(d, e', e'.starters[k]) {
      assert PastWaitOk(d, e, e.starters[k]);
    }
  }

  lemma WeakWaiter(d: Discipline, e: Env, a: Action)
    requires Weak(d, e) && Possible(e, a) && (a.Watch? || a.Leave?)
    ensures Weak(d, Step(e, a))
  {
    var e' := Step(e, a);
    forall k | 0 <= k < |e'.starters| ensures PastWaitOk(d, e', e'.starters[k]) {
      assert PastWaitOk(d, e, e.starters[k]);
    }
  }

  lemma WeakStep(d: Discipline, e: Env, a: Action)
    requires Weak(d, e) && Enabled(d, e, a) && (a.Silence? ==> d.Released?)
    ensures Weak(d, Step(e, a))
  {
    hide Weak, Step;
    match a
    case Arrive(polled) => WeakArrive(d, e, polled);
    case PassWait(k) => WeakPass(d, e, k);
    case Raise(k) => WeakRaise(d, e, k);
    case Install(k) => WeakInstall(d, e, k);
    case Spawn(_, _) => WeakSpawn(d, e, a);
    case Launch(_) => WeakSpawn(d, e, a);
    case Signal(r) => WeakSignal(d, e, r);
    case Release(r) => WeakRelease(d, e, r);
    case Watch => WeakWaiter(d, e, a);
    case Leave(_) => WeakWaiter(d, e, a);
    case _ => if Closes(a) { WeakHandler(d, e, a); } else { WeakBeforeWait(d, e, a); }
  }

  lemma {:induction false} WeakRun(d: Discipline, e: Env, acts: seq<Action>)
    requires Weak(d, e) && Legal(d, e, acts)
    requires d.Released? || forall i :: 0 <= i < |acts| ==> !acts[i].Silence?
    ensures Weak(d, Exec(d, e, acts))
    decreases acts
  {
    hide Weak, Step;
    if acts != [] {
      WeakStep(d, e, acts[0]);
      WeakRun(d, Step(e, acts[0]), acts[1..]);
    }
  }

  lemma WeakLeads(e: Env, t: Env)
    requires Weak(Released, e) && LeadsTo(Released, e, t)
    ensures Weak(Released, t)
  {
    hide Weak, Step;
    var acts :| Legal(Released, e, acts) && Exec(Released, e, acts) == t;
    WeakRun(Released, e, acts);
  }

  /** If no start passes before the older handlers released, there is never a second unreaped process. */
  lemma ReleasedOneLive(e: Env)
    requires Reachable(Released, Standard, e)
    ensures Weak(Released, e) && OneLive(e)
  {
    assert Weak(Released, Fresh(Standard));
    hide Weak, LeadsTo;
    WeakLeads(Fresh(Standard), e);
    WeakOneRunning(Released, e);
  }

  /** Serialised starts keep standard at one running process, on every run in which none closes its output. */
  lemma OneUnlessSilenced(acts: seq<Action>)
    requires Legal(Serialised, Fresh(Standard), acts)
    requires forall i :: 0 <= i < |acts| ==> !acts[i].Silence?
    ensures OneRunning(Exec(Serialised, Fresh(Standard), acts))
  {
    assert Weak(Serialised, Fresh(Standard));
    hide Weak;
    WeakRun(Serialised, Fresh(Standard), acts);
    WeakOneRunning(Serialised, Exec(Serialised, Fresh(Standard), acts));
  }

  // ---- An undisturbed close ----

  /** Where the judgement leaves the run: a run that ended badly is called back a first time. */
  function JudgedRun(run: Run, ok: bool, ioErr: bool): Run {
    Run(Reaped(ok), run.detached, if ok && !ioErr then Releasing(true) else Calling(Resetting, false, true))
  }

  /** The lines of handleClose up to its judgement. */
  lemma StandardJudges(d: Discipline, e0: Env, e: Env, r: nat, ioErr: bool) returns (t: Env)
    requires LeadsTo(d, e0, e) && e.kind.Standard? && r < |e.runs| && e.handle == Some(r)
    requires e.runs[r].handler.Attaching? && e.runs[r].proc.Zombie?
    ensures LeadsTo(d, e0, t)
    ensures t == e.(wait := e.wait - 1, runs := e.runs[r := JudgedRun(e.runs[r], e.runs[r].proc.ok, ioErr)])
  {
    hide LeadsTo;
    var ok, x := e.runs[r].proc.ok, e.runs[r].detached;
    t := StandardWaits(d, e0, e, r, ioErr);
    t := Then(d, e0, t, Signal(r),
              e.(wait := e.wait - 1, runs := e.runs[r := Run(Reaped(ok), x, Judging(!ok || ioErr))]));
    t := Then(d, e0, t, Judge(r), e.(wait := e.wait - 1, runs := e.runs[r := JudgedRun(e.runs[r], ok, ioErr)]));
  }

  lemma StandardWaits(d: Discipline, e0: Env, e: Env, r: nat, ioErr: bool) returns (t: Env)
    requires LeadsTo(d, e0, e) && e.kind.Standard? && r < |e.runs| && e.handle == Some(r)
    requires e.runs[r].handler.Attaching? && e.runs[r].proc.Zombie?
    ensures LeadsTo(d, e0, t)
    ensures var ok := e.runs[r].proc.ok;
            t == e.(runs := e.runs[r := Run(Reaped(ok), e.runs[r].detached, Signalling(!ok || ioErr))])
  {
    hide LeadsTo;
    var ok, x := e.runs[r].proc.ok, e.runs[r].detached;
    t := Then(d, e0, e, Attach(r), e.(runs := e.runs[r := Run(Zombie(ok), x, Waiting(r))]));
    t := Then(d, e0, t, Reap(r, ioErr), e.(runs := e.runs[r := Run(Reaped(ok), x, Signalling(!ok || ioErr))]));
  }

  /** And its last lines: the process is released, the handle cleared, and the callback made. */
  lemma StandardClears(d: Discipline, e0: Env, e: Env, r: nat, graceful: bool) returns (t: Env)
    requires LeadsTo(d, e0, e) && e.kind.Standard? && r < |e.runs| && e.handle == Some(r)
    requires e.runs[r].handler == Releasing(graceful) && e.runs[r].proc.Reaped?
    ensures LeadsTo(d, e0, t)
    ensures t == e.(handle := None,
                    runs := e.runs[r := Run(e.runs[r].proc, true, Calling(Resetting, graceful, false))])
  {
    hide LeadsTo;
    var p := e.runs[r].proc;
    t := Then(d, e0, e, Release(r), e.(runs := e.runs[r := Run(p, true, Clearing(graceful))]));
    t := Then(d, e0, t, Clear(r),
              e.(handle := None, runs := e.runs[r := Run(p, true, Calling(Resetting, graceful, false))]));
  }

  /**
   * What the lines of the standard handleClose do when nothing interferes and the handle is the run's
   * own: they lead to `judged`, where a run that ended badly is called back for a first time, and,
   * when that callback has returned, to `closed`, where each run is called back with whether it
   * ended well.
   */
  lemma StandardCloses(d: Discipline, e: Env, r: nat, ioErr: bool) returns (judged: Env, closed: Env)
    requires e.kind.Standard? && r < |e.runs| && e.handle == Some(r)
    requires e.runs[r].handler.Attaching? && e.runs[r].proc.Zombie?
    ensures var ok, x := e.runs[r].proc.ok, e.runs[r].detached;
            var well := ok && !ioErr;
            && LeadsTo(d, e, judged)
            && judged == e.(wait := e.wait - 1,
                            runs := e.runs[r := Run(Reaped(ok), x, if well then Releasing(true)
                                                                   else Calling(Resetting, false, true))])
            && LeadsTo(d, judged, closed)
            && closed == e.(handle := None, wait := e.wait - 1,
                            runs := e.runs[r := Run(Reaped(ok), true, Calling(Resetting, well, false))])
  {
    LeadsNowhere(d, e);
    hide LeadsTo;
    var well := e.runs[r].proc.ok && !ioErr;
    judged := StandardJudges(d, e, e, r, ioErr);
    LeadsNowhere(d, judged);
    var released := judged;
    if !well {
      released := Then(d, judged, judged, Advance(r, Releasing(false)),
                       judged.(runs := judged.runs[r := judged.runs[r].(handler := Releasing(false))]));
    }
    closed := StandardClears(d, judged, released, r, well);
  }

  /** standard starts whatever mainProcess points to, and that is the run of this start or a crash. */
  lemma SpawnsOwnHandle(e: Env, k: nat, ok: bool)
    requires e.kind.Standard? && Possible(e, Spawn(k, ok))
    ensures e.handle.Some? && e.starters[k] == Spawning(e.handle.value)
    ensures e.handle.value < |Step(e, Spawn(k, ok)).runs| && Step(e, Spawn(k, ok)).handle == e.handle
    ensures Step(e, Spawn(k, ok)).runs[e.handle.value].proc == if ok then Alive else Failed
  {
  }

  // ---- What an overtaken handler can do ----

  /** A handler before its release goes on to release the process of the run the handle points to. */
  lemma {:induction false} LateReleases(d: Discipline, e0: Env, e: Env, r: nat, n: nat) returns (t: Env)
    requires LeadsTo(d, e0, e) && r < |e.runs| && n < |e.runs| && e.kind.Standard?
    requires Unreleased(e.kind, e.runs[r].handler) && e.handle == Some(n) && Running(e.runs[n].proc)
    ensures LeadsTo(d, e0, t) && |t.runs| == |e.runs| && t == e.(runs := t.runs)
    ensures t.runs[r].handler.Clearing? && t.runs[r].proc == e.runs[r].proc && t.runs[n].detached
    ensures r != n ==> t.runs[n] == e.runs[n].(detached := true)
    ensures forall i :: 0 <= i < |e.runs| && i != r && i != n ==> t.runs[i] == e.runs[i]
    decreases Lateness(e.runs[r].handler)
  {
    hide LeadsTo;
    var a := match e.runs[r].handler
      case Judging(_) => Judge(r)
      case Releasing(_) => Release(r)
      case _ => Advance(r, Releasing(false));
    LeadsOn(d, e0, e, a);
    t := Step(e, a);
    if !a.Release? {
      t := LateReleases(d, e0, t, r, n);
    }
  }

  /** A released process that closes its output lets its own handler's Wait() return while it runs. */
  lemma SilencedFrees(d: Discipline, e0: Env, e: Env, n: nat) returns (t: Env)
    requires LeadsTo(d, e0, e) && e.kind.Standard? && n < |e.runs|
    requires e.handle == Some(n) && e.runs[n] == Run(Alive, true, Attaching)
    ensures LeadsTo(d, e0, t)
    ensures t == e.(wait := e.wait - 1, runs := e.runs[n := Run(Silent, true, Judging(true))])
  {
    hide LeadsTo;
    t := Then(d, e0, e, Attach(n), e.(runs := e.runs[n := Run(Alive, true, Waiting(n))]));
    t := Then(d, e0, t, Silence(n), e.(runs := e.runs[n := Run(Silent, true, Waiting(n))]));
    t := Then(d, e0, t, WaitFails(n), e.(runs := e.runs[n := Run(Silent, true, Signalling(true))]));
    t := Then(d, e0, t, Signal(n), e.(wait := e.wait - 1, runs := e.runs[n := Run(Silent, true, Judging(true))]));
  }

  predicate OnlyUnreleased(e: Env, r: nat) {
    forall i :: 0 <= i < |e.runs| && i != r ==> !Unreleased(e.kind, e.runs[i].handler)
  }

  /** The new run comes up, is released by the old handler, and silenced; all handlers get past their release. */
  lemma SilencedPasses(d: Discipline, e0: Env, e: Env, k: nat, r: nat) returns (t: Env)
    requires LeadsTo(d, e0, e) && e.kind.Standard? && k < |e.starters| && e.starters[k].Raising? && e.wait == 0
    requires r < |e.runs| && Unreleased(e.kind, e.runs[r].handler)
    ensures LeadsTo(d, e0, t) && t.kind == e.kind && |t.runs| == |e.runs| + 1
    ensures OnlyUnreleased(e, r) ==> AllReleased(t)
    ensures t.wait == 0 && !IsRunning(t)
    ensures t.starters == e.starters[k := Returned(true)] && t.runs[|e.runs|].proc.Silent?
  {
    hide LeadsTo;
    var n := |e.runs|;
    t := BringToLife(d, e0, e, k);
    t := LateReleases(d, e0, t, r, n);
    t := Then(d, e0, t, Launch(k),
              t.(starters := e.starters[k := Returned(true)], runs := t.runs[n := Run(Alive, true, Attaching)]));
    t := SilencedFrees(d, e0, t, n);
    t := LateReleases(d, e0, t, n, n);
    assert forall i :: 0 <= i < n && i != r ==> t.runs[i] == e.runs[i];
  }

  /**
   * A start that overtakes a handler before its release can end in two running processes, once the
   * new one closes its output: it was released, its Wait() fails, and a third start finds the way free.
   */
  lemma SilencedDoubles(d: Discipline, e: Env, k: nat, r: nat) returns (t: Env)
    requires (d.Serialised? || d.Released?) && e.kind.Standard? && Possible(e, PassWait(k)) && Unraised(e)
    requires r < |e.runs| && Unreleased(e.kind, e.runs[r].handler) && (d.Released? ==> OnlyUnreleased(e, r))
    ensures LeadsTo(d, Step(e, PassWait(k)), t) && !OneRunning(t)
  {
    var e', n := Step(e, PassWait(k)), |e.runs|;
    LeadsNowhere(d, e');
    hide LeadsTo;
    t := SilencedPasses(d, e', e', k, r);
    var j := |t.starters|;
    t := BringToRaise(d, e', t);
    t := BringToLife(d, e', t, j);
    assert Running(t.runs[n].proc) && Running(t.runs[n + 1].proc);
  }

  /**
   * Exactly which passes can end in two running processes. As long as no pass so far overtook a
   * handler before its release: this one leaves all continuations with one running process if and
   * only if no other start is before Wait.Add(1) and no handler is between Wait.Done() and
   * Process.Release().
   */
  lemma OneProcessIff(e: Env, k: nat)
    requires Reachable(Released, Standard, e) && Possible(e, PassWait(k))
    ensures (forall t :: LeadsTo(Released, Step(e, PassWait(k)), t) ==> OneRunning(t))
            <==> Unraised(e) && AllReleased(e)
  {
    var e' := Step(e, PassWait(k));
    ReleasedOneLive(e);
    if Unraised(e) && AllReleased(e) {
      WeakStep(Released, e, PassWait(k));
      hide Weak, LeadsTo, Step, OneRunning;
      forall t | LeadsTo(Released, e', t) ensures OneRunning(t) {
        WeakLeads(e', t);
        WeakOneRunning(Released, t);
      }
    } else {
      var t := DoublingPass(e, k);
    }
  }

  lemma DoublingPass(e: Env, k: nat) returns (t: Env)
    requires Weak(Released, e) && Possible(e, PassWait(k)) && !(Unraised(e) && AllReleased(e))
    ensures LeadsTo(Released, Step(e, PassWait(k)), t) && !OneRunning(t)
  {
    hide LeadsTo;
    if j :| 0 <= j < |e.starters| && e.starters[j].Raising? {
      assert Step(e, PassWait(k)).starters[j].Raising?;
      t := TwoRaisingTwoRunning(Released, Step(e, PassWait(k)), j, k);
    } else {
      var r :| 0 <= r < |e.runs| && Unreleased(e.kind, e.runs[r].handler);
      t := SilencedDoubles(Released, e, k, r);
    }
  }

  /** Such a late pass occurs: the first process ended, and Done has run before the rest of the handler. */
  lemma LatePassOccurs() returns (e: Env)
    ensures Reachable(Exclusive, Standard, e) && Enabled(Serialised, e, PassWait(1))
    ensures 0 < |e.runs| && Late(Standard, e.runs[0].handler) && e.runs[0].handler.Judging?
  {
    var first, d := Fresh(Standard), Exclusive;
    LeadsNowhere(d, first);
    hide LeadsTo;
    e := BringToRaise(d, first, first);
    e := BringToLife(d, first, e, 0);
    e := Then(d, first, e, Launch(0), e.(runs := [Run(Alive, false, Attaching)], starters := [Returned(true)]));
    e := Then(d, first, e, Attach(0), e.(runs := [Run(Alive, false, Waiting(0))]));
    e := SecondBlocked(first, e);
  }

  /** The running process ends while a second start has got past its running checks. */
  lemma SecondBlocked(first: Env, e0: Env) returns (e: Env)
    requires LeadsTo(Exclusive, first, e0)
    requires e0 == Env(Standard, Some(0), 1, [Run(Alive, false, Waiting(0))], [Returned(true)], [])
    ensures LeadsTo(Exclusive, first, e)
    ensures e == Env(Standard, Some(0), 0, [Run(Reaped(true), false, Judging(false))], [Returned(true), Blocked], [])
  {
    hide LeadsTo;
    var d := Exclusive;
    e := Then(d, first, e0, Exit(0, true), e0.(runs := [Run(Zombie(true), false, Waiting(0))]));
    e := Then(d, first, e, Reap(0, false), e.(runs := [Run(Reaped(true), false, Signalling(false))]));
    e := BringToEnter(d, first, e);
    e := Then(d, first, e, Enter(1), e.(starters := [Returned(true), Blocked]));
    e := Then(d, first, e, Signal(0), e.(wait := 0, runs := [Run(Reaped(true), false, Judging(false))]));
  }
}
