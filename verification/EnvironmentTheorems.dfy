/**
 * What the environment protocol guarantees over whole runs, and exactly when: the guarantees hold
 * while Wait.Wait() is passed exclusively, and every pass that is not exclusive can end in a
 * process that is lost or doubled.
 */
module EnvironmentTheorems {
  import opened Common
  import opened Environment
  import opened EnvironmentInvariant

  /** At most one process of the environment is alive or unreaped. */
  predicate OneLive(e: Env) {
    forall i, j :: (0 <= i < |e.runs| && 0 <= j < |e.runs| && Live(e.runs[i].proc) && Live(e.runs[j].proc)) ==> i == j
  }

  /** At most one process of the environment has not ended. */
  predicate OneRunning(e: Env) {
    forall i, j ::
      (0 <= i < |e.runs| && 0 <= j < |e.runs| && Running(e.runs[i].proc) && Running(e.runs[j].proc)) ==> i == j
  }

  /** A process that has not been reaped is the one that IsRunning, and with it Stop and Kill, will find. */
  predicate Tracked(e: Env) {
    forall r :: 0 <= r < |e.runs| && Live(e.runs[r].proc) ==> e.handle == Some(r) && !e.runs[r].detached
  }

  lemma TrackedOneLive(e: Env)
    requires Tracked(e)
    ensures OneLive(e)
    ensures (exists r :: 0 <= r < |e.runs| && Live(e.runs[r].proc)) ==> IsRunning(e)
  {
  }

  lemma InvTracked(e: Env)
    requires Inv(e)
    ensures Tracked(e)
  {
    forall r | 0 <= r < |e.runs| && Live(e.runs[r].proc) ensures e.handle == Some(r) && !e.runs[r].detached {
      assert RunOk(e.kind, r, e.runs[r]);
    }
  }

  /** A run whose handler still needs the handle has it, and waits on itself. */
  lemma OwnHandle(e: Env, r: nat)
    requires Inv(e) && r < |e.runs| && UsesHandle(e.kind, e.runs[r].handler)
    ensures e.handle == Some(r)
    ensures e.runs[r].handler.Waiting? ==> e.runs[r].handler.target == r && !WaitError(e.kind, e.runs[r])
  {
    assert RunOk(e.kind, r, e.runs[r]);
  }

  /**
   * Handle ownership: whichever line of the close handler of run r executes, mainProcess is still
   * run r's own exec.Cmd; Wait() was entered on r itself and always finds a process to wait for.
   */
  lemma HandlerOwnsHandle(kind: Kind, e: Env, a: Action)
    requires Reachable(Exclusive, kind, e) && Possible(e, a)
    ensures a.Attach? || a.Judge? || a.Release? || a.Clear? ==> e.handle == Some(a.r)
    ensures a.Reap? ==> e.handle == Some(a.r) && e.runs[a.r].handler.target == a.r
    ensures !a.WaitFails?
  {
    ReachableInv(kind, e);
    hide Inv, Reachable;
    if a.Attach? || a.Judge? || a.Release? || a.Clear? || a.Reap? || a.WaitFails? {
      OwnHandle(e, a.r);
    }
  }

  /** Clearing run g precedes installing run g+1: at an installation every older handler is past both. */
  lemma ClearPrecedesInstall(kind: Kind, e: Env, k: nat)
    requires Reachable(Exclusive, kind, e) && Possible(e, Install(k))
    ensures e.handle == None && e.starters[k].run + 1 == |e.runs|
    ensures forall g :: 0 <= g < e.starters[k].run ==>
              e.runs[g].proc.Reaped? && !UsesHandle(kind, e.runs[g].handler) && !Holds(kind, e.runs[g].handler)
  {
    ReachableInv(kind, e);
    ReachableKind(Exclusive, kind, e);
    hide Reachable;
    assert StarterOk(e, e.starters[k]);
    forall g | 0 <= g < e.starters[k].run
      ensures e.runs[g].proc.Reaped? && !UsesHandle(kind, e.runs[g].handler) && !Holds(kind, e.runs[g].handler)
    {
      assert RunOk(e.kind, g, e.runs[g]);
    }
  }

  lemma ReachableKind(d: Discipline, kind: Kind, e: Env)
    requires Reachable(d, kind, e)
    ensures e.kind == kind
  {
    var acts :| Legal(d, Fresh(kind), acts) && Exec(d, Fresh(kind), acts) == e;
    KindKept(d, Fresh(kind), acts);
  }

  /** The wait counter is 0 or 1 and counts the runs between their Add and their handler's Done. */
  lemma WaitCountsRuns(kind: Kind, e: Env)
    requires Reachable(Exclusive, kind, e)
    ensures 0 <= e.wait <= 1 && e.wait == Sum(e.runs, HoldCount(kind))
  {
    ReachableInv(kind, e);
    ReachableKind(Exclusive, kind, e);
    WaitMeaning(e);
  }

  /** A caller of WaitForMainProcess leaves only after its run was reaped, and with tty also cleared. */
  lemma WaiterLeavesAfterRun(kind: Kind, e: Env, w: nat)
    requires Reachable(Exclusive, kind, e) && w < |e.waiters| && e.waiters[w].Left?
    ensures e.waiters[w].run < |e.runs| && e.runs[e.waiters[w].run].proc.Reaped?
    ensures kind.Tty? ==> e.handle != Some(e.waiters[w].run)
  {
    ReachableInv(kind, e);
    ReachableKind(Exclusive, kind, e);
    assert RunOk(kind, e.waiters[w].run, e.runs[e.waiters[w].run]);
  }

  /** And it saw the newest run, which had not been reaped. */
  lemma WaiterSawRun(kind: Kind, e: Env)
    requires Reachable(Exclusive, kind, e) && Possible(e, Watch)
    ensures |e.runs| > 0 && Live(e.runs[|e.runs| - 1].proc)
    ensures Step(e, Watch) == e.(waiters := e.waiters + [Watching(|e.runs| - 1)])
  {
    ReachableInv(kind, e);
  }

  /** A success reported to afterExit is one: the process of that run exited successfully. */
  lemma GracefulMeansSuccess(kind: Kind, e: Env, r: nat)
    requires Reachable(Exclusive, kind, e) && r < |e.runs|
    requires e.runs[r].handler.Calling? && e.runs[r].handler.graceful
    ensures e.runs[r].proc == Reaped(true)
  {
    ReachableInv(kind, e);
    assert RunOk(e.kind, r, e.runs[r]);
  }

  /** What the handler of a run has in hand once its Wait() returned, if that run ended well or not. */
  predicate Told(kind: Kind, h: Handler, well: bool) {
    match h
    case Judging(err) => err != well
    case Signalling(flag) => if kind.Tty? then flag == well else flag != well
    case Releasing(ok) => ok == well
    case Clearing(ok) => ok == well
    case Calling(_, graceful, again) => graceful == well && (again ==> kind.Standard? && !well)
    case Finished => true
    case _ => false
  }

  /** A line of the run's own handler passes on what it was told. */
  lemma ToldByOwn(e: Env, a: Action, r: nat, well: bool)
    requires Possible(e, a) && r < |e.runs| && Handles(a) && a.r == r
    requires UsesHandle(e.kind, e.runs[r].handler) ==> e.handle == Some(r)
    requires Told(e.kind, e.runs[r].handler, well) && e.runs[r].proc.Reaped? && (well ==> e.runs[r].proc.ok)
    ensures r < |Step(e, a).runs| && Step(e, a).runs[r].proc == e.runs[r].proc
    ensures Told(e.kind, Step(e, a).runs[r].handler, well)
  {
  }

  /** The lines of close handlers. */
  predicate Handles(a: Action) {
    a.Attach? || a.Reap? || a.WaitFails? || a.Judge? || a.Release? || a.Clear? || a.Signal? || a.Advance?
  }

  /** Nobody else touches the handler of a reaped run. */
  lemma ToldByOthers(e: Env, a: Action, r: nat)
    requires Inv(e) && Possible(e, a) && r < |e.runs| && !(Handles(a) && a.r == r)
    requires e.runs[r].proc.Reaped? && !e.runs[r].handler.Unlaunched?
    ensures r < |Step(e, a).runs| && Step(e, a).runs[r].proc == e.runs[r].proc
    ensures Step(e, a).runs[r].handler == e.runs[r].handler
  {
    if Handles(a) {
      if a.Reap? { OwnHandle(e, a.r); }
    } else if !Closes(a) && !a.Arrive? {
      assert StarterOk(e, e.starters[a.k]);
    }
    hide Inv;
  }

  lemma ToldStays(e: Env, a: Action, r: nat, well: bool)
    requires Inv(e) && Possible(e, a) && r < |e.runs|
    requires Told(e.kind, e.runs[r].handler, well) && e.runs[r].proc.Reaped? && (well ==> e.runs[r].proc.ok)
    ensures Step(e, a).kind == e.kind && r < |Step(e, a).runs| && Step(e, a).runs[r].proc == e.runs[r].proc
    ensures Told(e.kind, Step(e, a).runs[r].handler, well)
  {
    assert Step(e, a).kind == e.kind && !e.runs[r].handler.Unlaunched?;
    hide Inv, Step, Told, Possible;
    if Handles(a) && a.r == r {
      if UsesHandle(e.kind, e.runs[r].handler) { OwnHandle(e, r); }
      ToldByOwn(e, a, r, well);
    } else {
      ToldByOthers(e, a, r);
    }
  }

  lemma {:induction false} ToldRun(e: Env, acts: seq<Action>, r: nat, well: bool)
    requires Inv(e) && Legal(Exclusive, e, acts) && r < |e.runs|
    requires Told(e.kind, e.runs[r].handler, well) && e.runs[r].proc.Reaped? && (well ==> e.runs[r].proc.ok)
    ensures r < |Exec(Exclusive, e, acts).runs| && Told(e.kind, Exec(Exclusive, e, acts).runs[r].handler, well)
    decreases acts
  {
    hide Inv, Step, Told;
    if acts != [] {
      ToldStays(e, acts[0], r, well);
      StepKeeps(e, acts[0]);
      ToldRun(Step(e, acts[0]), acts[1..], r, well);
    }
  }

  /**
   * What afterExit is told. Once the Wait() of run r has returned, in every continuation: the final
   * callback is graceful if and only if the process exited successfully and Wait() returned no
   * error; the extra callback that standard makes first is not, and is only made otherwise.
   */
  lemma CallbackTellsTruth(kind: Kind, e: Env, r: nat, ioErr: bool, acts: seq<Action>)
    requires Reachable(Exclusive, kind, e) && Possible(e, Reap(r, ioErr))
    requires Legal(Exclusive, Step(e, Reap(r, ioErr)), acts)
    ensures e.runs[r].proc.Zombie? && r < |Exec(Exclusive, Step(e, Reap(r, ioErr)), acts).runs|
    ensures var h, well := Exec(Exclusive, Step(e, Reap(r, ioErr)), acts).runs[r].handler, e.runs[r].proc.ok && !ioErr;
            && (h.Calling? && !h.again ==> (h.graceful <==> well))
            && (h.Calling? && h.again ==> kind.Standard? && !h.graceful && !well)
  {
    ReachableInv(kind, e);
    ReachableKind(Exclusive, kind, e);
    ReapTells(e, r, ioErr);
    hide Inv, Step, Reachable;
    StepKeeps(e, Reap(r, ioErr));
    ToldRun(Step(e, Reap(r, ioErr)), acts, r, e.runs[r].proc.ok && !ioErr);
  }

  lemma ReapTells(e: Env, r: nat, ioErr: bool)
    requires Inv(e) && Possible(e, Reap(r, ioErr))
    ensures e.runs[r].proc.Zombie? && r < |Step(e, Reap(r, ioErr)).runs| && Step(e, Reap(r, ioErr)).kind == e.kind
    ensures var run := Step(e, Reap(r, ioErr)).runs[r];
            run.proc == Reaped(e.runs[r].proc.ok) && Told(e.kind, run.handler, e.runs[r].proc.ok && !ioErr)
  {
    OwnHandle(e, r);
    hide Inv;
  }

  // ---- Some runs of the machine ----

  lemma Then(d: Discipline, e0: Env, e: Env, a: Action, next: Env) returns (e': Env)
    requires LeadsTo(d, e0, e) && Enabled(d, e, a) && Step(e, a) == next
    ensures LeadsTo(d, e0, e') && e' == next
  {
    LeadsOn(d, e0, e, a);
    e' := next;
  }

  /** A start can pass Wait.Wait() here. */
  predicate Passable(d: Discipline, e: Env) {
    e.wait == 0 && Undisputed(d, e)
  }

  /** The lines of one start, up to its running check inside ExecuteAsync. */
  lemma BringToEnter(d: Discipline, e0: Env, e: Env) returns (e': Env)
    requires LeadsTo(d, e0, e) && !IsRunning(e)
    ensures LeadsTo(d, e0, e') && e' == e.(starters := e.starters + [Entering])
  {
    hide LeadsTo;
    var k := |e.starters|;
    e' := Then(d, e0, e, Arrive(false), e.(starters := e.starters + [Requested]));
    e' := Then(d, e0, e', Check(k, true), e.(starters := e.starters + [Preparing]));
    e' := Then(d, e0, e', Prepare(k, true), e.(starters := e.starters + [Entering]));
  }

  /** The lines of one start, up to the moment it is about to call Wait.Add(1). */
  lemma BringToRaise(d: Discipline, e0: Env, e: Env) returns (e': Env)
    requires LeadsTo(d, e0, e) && !IsRunning(e) && Passable(d, e)
    ensures LeadsTo(d, e0, e') && e' == e.(starters := e.starters + [Raising])
  {
    hide LeadsTo;
    var k := |e.starters|;
    e' := BringToEnter(d, e0, e);
    e' := Then(d, e0, e', Enter(k), e.(starters := e.starters + [Blocked]));
    e' := Then(d, e0, e', PassWait(k), e.(starters := e.starters + [Raising]));
  }

  /** Its lines up to the spawn: a new run is raised and installed. */
  lemma BringToSpawn(d: Discipline, e0: Env, e: Env, k: nat) returns (e': Env)
    requires LeadsTo(d, e0, e) && k < |e.starters| && e.starters[k] == Raising
    ensures LeadsTo(d, e0, e')
    ensures var r := |e.runs|;
            e' == e.(wait := e.wait + 1, handle := Some(r), runs := e.runs + [Run(Unspawned, false, Unlaunched)],
                     starters := e.starters[k := Spawning(r)])
  {
    hide LeadsTo;
    var r, cmd := |e.runs|, Run(Unspawned, false, Unlaunched);
    e' := Then(d, e0, e, Raise(k),
               e.(wait := e.wait + 1, runs := e.runs + [cmd], starters := e.starters[k := Installing(r)]));
    e' := Then(d, e0, e', Install(k), e'.(handle := Some(r), starters := e.starters[k := Spawning(r)]));
  }

  /** And the spawn itself. */
  lemma BringToLife(d: Discipline, e0: Env, e: Env, k: nat) returns (e': Env)
    requires LeadsTo(d, e0, e) && k < |e.starters| && e.starters[k] == Raising
    ensures LeadsTo(d, e0, e')
    ensures var r := |e.runs|;
            e' == e.(wait := e.wait + 1, handle := Some(r), runs := e.runs + [Run(Alive, false, Unlaunched)],
                     starters := e.starters[k := Launching(r)])
  {
    hide LeadsTo;
    var r := |e.runs|;
    e' := BringToSpawn(d, e0, e, k);
    e' := Then(d, e0, e', Spawn(k, true),
               e'.(runs := e.runs + [Run(Alive, false, Unlaunched)], starters := e.starters[k := Launching(r)]));
  }

  // ---- Starts that are refused ----

  /**
   * Where the checks of a start lead: it goes on if the program is enabled, nothing is running and
   * its pre-execution steps succeeded, each at its line; otherwise it is over, and nothing else changed.
   */
  lemma ChecksDecide(e: Env, a: Action)
    requires Possible(e, a) && (a.Poll? || a.Check? || a.Prepare? || a.Enter?)
    ensures var running := IsRunning(e);
            var next := if a.Poll? && !running then Requested
                        else if a.Check? && a.enabled && !running then Preparing
                        else if a.Prepare? && a.ok then Entering
                        else if a.Enter? && !running then Blocked
                        else Returned(false);
            a.k < |e.starters| && Step(e, a) == e.(starters := e.starters[a.k := next])
  {
  }

  /** The environment is running in every state of the run. */
  predicate StaysRunning(d: Discipline, e: Env, acts: seq<Action>)
    requires Legal(d, e, acts)
    decreases acts
  {
    IsRunning(e) && (acts != [] ==> StaysRunning(d, Step(e, acts[0]), acts[1..]))
  }

  /** No start has got past the checks of Program.Start. */
  predicate Unprepared(e: Env) {
    forall k :: 0 <= k < |e.starters| ==>
      e.starters[k].Polled? || e.starters[k].Requested? || e.starters[k].Returned?
  }

  lemma UnpreparedStays(e: Env, a: Action)
    requires Unprepared(e) && IsRunning(e) && Possible(e, a)
    ensures Unprepared(Step(e, a))
    ensures Closes(a) || a.Arrive? || a.Poll? || a.Check?
  {
  }

  /**
   * A server that is running is left alone: as long as it is, no start, from the queue or from
   * outside, runs a pre-execution step, waits for the wait group, or touches the process.
   */
  lemma {:induction false} RunningIsLeftAlone(d: Discipline, e: Env, acts: seq<Action>)
    requires Unprepared(e) && Legal(d, e, acts) && StaysRunning(d, e, acts)
    ensures Unprepared(Exec(d, e, acts))
    ensures forall i :: 0 <= i < |acts| ==> Closes(acts[i]) || acts[i].Arrive? || acts[i].Poll? || acts[i].Check?
    decreases acts
  {
    hide Step, Unprepared, Closes, Possible;
    if acts != [] {
      UnpreparedStays(e, acts[0]);
      RunningIsLeftAlone(d, Step(e, acts[0]), acts[1..]);
      forall i | 0 <= i < |acts| ensures Closes(acts[i]) || acts[i].Arrive? || acts[i].Poll? || acts[i].Check? {
        if i > 0 { assert acts[i] == acts[1..][i - 1]; }
      }
    }
  }

  // ---- Failed spawns, and when an environment can start again ----

  /** The newest spawn failed: ExecuteAsync returned with the wait group still raised. */
  predicate Wedged(e: Env) {
    |e.runs| > 0 && e.runs[|e.runs| - 1].proc.Failed?
  }

  lemma WedgedStays(e: Env, a: Action)
    requires Inv(e) && Wedged(e) && Enabled(Exclusive, e, a)
    ensures Wedged(Step(e, a)) && |Step(e, a).runs| == |e.runs|
    ensures !a.PassWait? && !a.Raise? && !a.Spawn? && !a.Leave?
  {
    WedgedStarters(e, a);
    if Closes(a) && !a.Watch? && !a.Leave? { WedgedHandlers(e, a); }
    hide Inv;
  }

  /** Nobody can be past the wait group, and nobody gets past it. */
  lemma WedgedStarters(e: Env, a: Action)
    requires Inv(e) && Wedged(e) && Possible(e, a)
    ensures !a.PassWait? && !a.Raise? && !a.Install? && !a.Spawn? && !a.Launch? && !a.Leave?
  {
    var last := |e.runs| - 1;
    assert RunOk(e.kind, last, e.runs[last]);
    WaitMeaning(e);
    assert forall k :: 0 <= k < |e.starters| ==> StarterOk(e, e.starters[k]);
  }

  /** Only older handlers can still move, and none of them uses the handle any more. */
  lemma WedgedHandlers(e: Env, a: Action)
    requires Inv(e) && Wedged(e) && Possible(e, a)
    requires Closes(a) && !a.Watch? && !a.Leave?
    ensures a.Advance? && a.r + 1 < |e.runs|
  {
    assert RunOk(e.kind, a.r, e.runs[a.r]);
    assert a.r != |e.runs| - 1;
  }

  /**
   * A failed spawn is permanent: after it, no interleaving ever gets past Wait.Wait(), installs
   * a run or spawns a process in this environment, and no waiter ever leaves.
   */
  lemma {:induction false} FailedSpawnWedges(e: Env, acts: seq<Action>)
    requires Inv(e) && Wedged(e) && Legal(Exclusive, e, acts)
    ensures |Exec(Exclusive, e, acts).runs| == |e.runs| && Wedged(Exec(Exclusive, e, acts))
    ensures forall i :: 0 <= i < |acts| ==>
              !acts[i].PassWait? && !acts[i].Raise? && !acts[i].Spawn? && !acts[i].Leave?
    decreases acts
  {
    hide Inv, Step;
    if acts != [] {
      WedgedStays(e, acts[0]);
      StepKeeps(e, acts[0]);
      FailedSpawnWedges(Step(e, acts[0]), acts[1..]);
      forall i | 0 <= i < |acts|
        ensures !acts[i].PassWait? && !acts[i].Raise? && !acts[i].Spawn? && !acts[i].Leave?
      {
        if i > 0 { assert acts[i] == acts[1..][i - 1]; }
      }
    }
  }

  /** The wedged state occurs: the very first spawn of an environment may fail. */
  lemma FirstSpawnFails(kind: Kind) returns (e: Env)
    ensures Reachable(Exclusive, kind, e) && Wedged(e)
  {
    var first := Fresh(kind);
    LeadsNowhere(Exclusive, first);
    hide LeadsTo;
    e := BringToRaise(Exclusive, first, first);
    e := BringToSpawn(Exclusive, first, e, 0);
    e := Then(Exclusive, first, e, Spawn(0, false),
              e.(runs := [Run(Failed, false, Unlaunched)], starters := [Returned(false)]));
  }

  /** Some continuation comes to a spawn that can succeed. */
  ghost predicate CanSpawn(e: Env) {
    exists t: Env, k: nat :: LeadsTo(Exclusive, e, t) && Possible(t, Spawn(k, true))
  }

  /** How many lines the newest run is away from having left the handle and the wait group. */
  function Rank(e: Env): nat {
    if e.runs == [] then 0
    else
      var run := e.runs[|e.runs| - 1];
      match run.handler
      case Unlaunched => 16
      case Attaching => 15
      case Waiting(_) => if Running(run.proc) then 14 else 13
      case Signalling(_) => if e.kind.Tty? then 1 else 12
      case Judging(_) => 11
      case Calling(line, _, again) =>
        if !again then 0
        else (match line case Resetting => 10 case PostExecution => 9 case Deciding => 8 case Requeueing => 7)
      case Releasing(_) => 6
      case Clearing(_) => 5
      case Finished => 0
  }

  /** Somebody is past Wait.Wait() and has not spawned. */
  predicate BeforeSpawn(st: Starter) {
    st.Raising? || st.Installing? || st.Spawning?
  }

  lemma StartedSpawns(e0: Env, e: Env, k: nat)
    requires Inv(e) && LeadsTo(Exclusive, e0, e) && k < |e.starters| && BeforeSpawn(e.starters[k])
    ensures CanSpawn(e0)
  {
    assert StarterOk(e, e.starters[k]);
    hide LeadsTo;
    var t := e;
    if e.starters[k].Raising? {
      t := BringToSpawn(Exclusive, e0, e, k);
    } else if e.starters[k].Installing? {
      LeadsOn(Exclusive, e0, e, Install(k));
      t := Step(e, Install(k));
    }
    assert Possible(t, Spawn(k, true));
  }

  /** The next line of a run that has a handler: the end of its process, or a line of the handler. */
  function HandlerLine(r: nat, run: Run): Action {
    match run.handler
    case Attaching => Attach(r)
    case Waiting(_) => if Running(run.proc) then Exit(r, true) else Reap(r, false)
    case Signalling(_) => Signal(r)
    case Judging(_) => Judge(r)
    case Calling(_, _, again) => Advance(r, AfterCallback(again))
    case Releasing(_) => Release(r)
    case _ => Clear(r)
  }

  lemma HandlerGoesOn(e: Env)
    requires Inv(e) && Rank(e) > 0 && !e.runs[|e.runs| - 1].handler.Unlaunched?
    ensures var r := |e.runs| - 1; Possible(e, HandlerLine(r, e.runs[r]))
  {
    var r := |e.runs| - 1;
    assert RunOk(e.kind, r, e.runs[r]);
  }

  lemma HandlerLowers(e: Env)
    requires Rank(e) > 0 && !e.runs[|e.runs| - 1].handler.Unlaunched?
    requires var r := |e.runs| - 1;
             Possible(e, HandlerLine(r, e.runs[r])) && (e.runs[r].handler.Waiting? ==> e.runs[r].handler.target == r)
    ensures var r := |e.runs| - 1; Rank(Step(e, HandlerLine(r, e.runs[r]))) < Rank(e)
  {
  }

  lemma LaunchLowers(e: Env, k: nat)
    requires Possible(e, Launch(k)) && e.starters[k].run == |e.runs| - 1
    ensures Rank(Step(e, Launch(k))) < Rank(e)
  {
  }

  /** The newest run can always go on: it is launched, its process ends, or its handler moves. */
  lemma NextLine(e: Env) returns (a: Action)
    requires Inv(e) && !Wedged(e) && Rank(e) > 0
    requires forall k :: 0 <= k < |e.starters| ==> !BeforeSpawn(e.starters[k])
    ensures Enabled(Exclusive, e, a) && (a.Launch? || Closes(a))
    ensures a.Advance? ==> e.runs[|e.runs| - 1].handler.Calling?
    ensures Rank(Step(e, a)) < Rank(e)
  {
    var r := |e.runs| - 1;
    hide Step, Core, HandleOk, Serial;
    if e.runs[r].handler.Unlaunched? {
      var k :| 0 <= k < |e.starters| && Attends(e.starters[k], r);
      a := Launch(k);
      LaunchLowers(e, k);
    } else {
      a := HandlerLine(r, e.runs[r]);
      HandlerGoesOn(e);
      if e.runs[r].handler.Waiting? { OwnHandle(e, r); }
      HandlerLowers(e);
    }
  }

  /** When the newest run has left, a new start finds the way free. */
  lemma IdlePassable(e: Env)
    requires Inv(e) && Rank(e) == 0
    requires forall k :: 0 <= k < |e.starters| ==> !BeforeSpawn(e.starters[k])
    ensures !IsRunning(e) && Passable(Exclusive, e)
  {
    WaitMeaning(e);
  }

  lemma NotWedgedKept(e: Env, a: Action)
    requires !Wedged(e) && Possible(e, a) && (a.Launch? || Closes(a))
    ensures !Wedged(Step(e, a))
  {
  }

  lemma {:induction false} SpawnsAgain(e0: Env, e: Env)
    requires Inv(e) && !Wedged(e) && LeadsTo(Exclusive, e0, e)
    ensures CanSpawn(e0)
    decreases Rank(e)
  {
    hide Inv, LeadsTo, Step, CanSpawn, Rank, Passable, Wedged;
    if k :| 0 <= k < |e.starters| && BeforeSpawn(e.starters[k]) {
      StartedSpawns(e0, e, k);
    } else if Rank(e) == 0 {
      IdlePassable(e);
      SpawnsFromIdle(e0, e);
    } else {
      var a := NextLine(e);
      StepKeeps(e, a);
      NotWedgedKept(e, a);
      LeadsOn(Exclusive, e0, e, a);
      SpawnsAgain(e0, Step(e, a));
    }
  }

  lemma SpawnsFromIdle(e0: Env, e: Env)
    requires LeadsTo(Exclusive, e0, e) && !IsRunning(e) && Passable(Exclusive, e)
    ensures CanSpawn(e0)
  {
    hide LeadsTo;
    var k := |e.starters|;
    var t := BringToRaise(Exclusive, e0, e);
    t := BringToSpawn(Exclusive, e0, t, k);
    assert Possible(t, Spawn(k, true));
  }

  /** In every reachable state, the environment can be started (again) if and only if it is not wedged. */
  lemma StartableIffNotWedged(kind: Kind, e: Env)
    requires Reachable(Exclusive, kind, e)
    ensures CanSpawn(e) <==> !Wedged(e)
  {
    ReachableInv(kind, e);
    if Wedged(e) && CanSpawn(e) {
      var t: Env, k: nat :| LeadsTo(Exclusive, e, t) && Possible(t, Spawn(k, true));
      var acts :| Legal(Exclusive, e, acts) && Exec(Exclusive, e, acts) == t;
      FailedSpawnWedges(e, acts);
      LeadsKeeps(e, t);
      WedgedStays(t, Spawn(k, true));
      assert false;
    }
    if !Wedged(e) {
      LeadsNowhere(Exclusive, e);
      SpawnsAgain(e, e);
    }
  }

  // ---- The discipline is exact ----

  /** Two starts between Wait.Wait() and Wait.Add(1) can both go on and end in two running processes. */
  lemma TwoRaisingTwoRunning(d: Discipline, e: Env, j: nat, k: nat) returns (t: Env)
    requires j < |e.starters| && k < |e.starters| && j != k
    requires e.starters[j].Raising? && e.starters[k].Raising?
    ensures LeadsTo(d, e, t) && !OneRunning(t)
  {
    LeadsNowhere(d, e);
    hide LeadsTo;
    t := BringToLife(d, e, e, j);
    t := BringToLife(d, e, t, k);
    assert Running(t.runs[|e.runs|].proc) && Running(t.runs[|e.runs| + 1].proc);
  }

  /** How many lines a late handler is away from having cleared the handle. */
  function Lateness(h: Handler): nat {
    if h.Judging? then 3 else if h.Calling? then 2 else if h.Releasing? then 1 else 0
  }

  /** A late handler that is overtaken by a new run goes on to clear the handle of that run. */
  lemma {:induction false} LateClears(d: Discipline, e0: Env, e: Env, r: nat, n: nat) returns (t: Env)
    requires LeadsTo(d, e0, e) && r < |e.runs| && n < |e.runs| && r != n
    requires Late(e.kind, e.runs[r].handler) && e.handle == Some(n) && e.runs[n].proc.Alive?
    ensures LeadsTo(d, e0, t) && t.handle == None && n < |t.runs| && t.runs[n].proc.Alive?
    decreases Lateness(e.runs[r].handler)
  {
    hide LeadsTo;
    var a := match e.runs[r].handler
      case Judging(_) => Judge(r)
      case Releasing(_) => Release(r)
      case Clearing(_) => Clear(r)
      case _ => Advance(r, Releasing(false));
    LeadsOn(d, e0, e, a);
    t := Step(e, a);
    if !a.Clear? {
      t := LateClears(d, e0, t, r, n);
    }
  }

  /** A start that passes Wait.Wait() during a late handler can lose its process: it lives, unseen. */
  lemma LatePassLosesProcess(d: Discipline, e: Env, k: nat, r: nat) returns (t: Env)
    requires k < |e.starters| && e.starters[k].Raising?
    requires r < |e.runs| && Late(e.kind, e.runs[r].handler)
    ensures LeadsTo(d, e, t) && !IsRunning(t)
    ensures |e.runs| < |t.runs| && t.runs[|e.runs|].proc.Alive?
  {
    LeadsNowhere(d, e);
    hide LeadsTo;
    t := BringToLife(d, e, e, k);
    t := LateClears(d, e, t, r, |e.runs|);
  }

  /**
   * Passing Wait.Wait() is safe exactly when it is exclusive. As long as every pass so far was: this
   * one leaves all continuations with at most one process, and that one in reach of IsRunning, if and
   * only if no other start is before Wait.Add(1) and no standard handler is between Done and the line
   * that clears the handle. For tty the second half is empty: serialised starts are all it takes.
   */
  lemma PassSafeIff(kind: Kind, e: Env, k: nat)
    requires Reachable(Exclusive, kind, e) && Possible(e, PassWait(k))
    ensures (forall t :: LeadsTo(Exclusive, Step(e, PassWait(k)), t) ==> Tracked(t)) <==> Unraised(e) && Settled(e)
  {
    var e' := Step(e, PassWait(k));
    ReachableInv(kind, e);
    if Unraised(e) && Settled(e) {
      StepKeeps(e, PassWait(k));
      hide Inv, LeadsTo, Step, Tracked;
      forall t | LeadsTo(Exclusive, e', t) ensures Tracked(t) {
        LeadsKeeps(e', t);
        InvTracked(t);
      }
    } else {
      var t := UnsafePass(e, k);
    }
  }

  lemma UnsafePass(e: Env, k: nat) returns (t: Env)
    requires Possible(e, PassWait(k)) && !(Unraised(e) && Settled(e))
    ensures LeadsTo(Exclusive, Step(e, PassWait(k)), t) && !Tracked(t)
  {
    hide LeadsTo;
    var e' := Step(e, PassWait(k));
    if j :| 0 <= j < |e.starters| && e.starters[j].Raising? {
      assert e'.starters[j].Raising?;
      t := TwoRaisingTwoRunning(Exclusive, e', j, k);
      assert !OneLive(t);
    } else {
      var r :| 0 <= r < |e.runs| && Late(e.kind, e.runs[r].handler);
      t := LatePassLosesProcess(Exclusive, e', k, r);
    }
  }

  /** For tty, serialised starts are exclusive ones, run by run. */
  lemma {:induction false} TtySerialised(e: Env, acts: seq<Action>)
    requires e.kind.Tty? && Legal(Serialised, e, acts)
    ensures Legal(Exclusive, e, acts) && Exec(Exclusive, e, acts) == Exec(Serialised, e, acts)
    decreases acts
  {
    if acts != [] {
      assert Settled(e);
      TtySerialised(Step(e, acts[0]), acts[1..]);
    }
  }

  /** So a tty environment never has two processes if no start passes while another is before its Add. */
  lemma SerialisedTtyOneLive(e: Env)
    requires Reachable(Serialised, Tty, e)
    ensures OneLive(e) && Tracked(e)
  {
    var acts :| Legal(Serialised, Fresh(Tty), acts) && Exec(Serialised, Fresh(Tty), acts) == e;
    hide Tracked, Inv, Step;
    TtySerialised(Fresh(Tty), acts);
    ReachableInv(Tty, e);
    InvTracked(e);
    TrackedOneLive(e);
  }

  /** Starts do overlap when nothing serialises them, and then two processes can live. */
  lemma OverlappingStarts(kind: Kind) returns (e: Env, t: Env)
    ensures Reachable(Unguarded, kind, e) && !Unraised(e) && LeadsTo(Unguarded, e, t) && !OneRunning(t)
  {
    var first := Fresh(kind);
    LeadsNowhere(Unguarded, first);
    hide LeadsTo;
    e := BringToRaise(Unguarded, first, first);
    e := BringToRaise(Unguarded, first, e);
    t := TwoRaisingTwoRunning(Unguarded, e, 0, 1);
  }

  /** Then the handler of the first run can wait on the process of the second, whose Wait() it takes away. */
  lemma OverlapWaitsOnOther(kind: Kind) returns (e: Env)
    ensures Reachable(Unguarded, kind, e) && |e.runs| == 2 && e.runs[0].handler == Waiting(1)
  {
    var first := Fresh(kind);
    LeadsNowhere(Unguarded, first);
    hide LeadsTo;
    e := BringToRaise(Unguarded, first, first);
    e := BringToRaise(Unguarded, first, e);
    e := BringToLife(Unguarded, first, e, 0);
    e := BringToLife(Unguarded, first, e, 1);
    e := OvertakenAttaches(first, e);
  }

  lemma OvertakenAttaches(e0: Env, e: Env) returns (t: Env)
    requires LeadsTo(Unguarded, e0, e) && |e.runs| == 2 && |e.starters| > 0 && e.starters[0] == Launching(0)
    requires e.handle == Some(1) && e.runs[0].handler.Unlaunched?
    ensures LeadsTo(Unguarded, e0, t) && |t.runs| == 2 && t.runs[0].handler == Waiting(1)
  {
    hide LeadsTo;
    LeadsOn(Unguarded, e0, e, Launch(0));
    t := Step(e, Launch(0));
    LeadsOn(Unguarded, e0, t, Attach(0));
    t := Step(t, Attach(0));
  }
}
