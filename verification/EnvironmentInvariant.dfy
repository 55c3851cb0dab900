/**
 * What every line of one environment keeps when Wait.Wait() is passed exclusively: the wait
 * counter counts the unreleased runs, only the newest run can be unreleased, and the handle
 * always belongs to the run whose close handler is about to use it.
 */
module EnvironmentInvariant {
  import opened Common
  import opened Environment

  function HoldCount(kind: Kind): Run -> nat {
    (run: Run) => if Holds(kind, run.handler) then 1 else 0
  }

  /** At most one start is between Wait.Wait() and the launch of its handler. */
  predicate Serial(e: Env) {
    forall i, j :: (0 <= i < |e.starters| && 0 <= j < |e.starters|
                    && InFlight(e.starters[i]) && InFlight(e.starters[j])) ==> i == j
  }

  /** What a run's process looks like at each line of its handler. */
  predicate RunOk(kind: Kind, r: nat, run: Run) {
    match run.handler
    case Unlaunched => !run.proc.Reaped? && !run.detached
    case Attaching => Live(run.proc) && !run.detached
    case Waiting(target) => Live(run.proc) && target == r && !run.detached
    case Judging(err) => run.proc.Reaped? && (!err ==> run.proc.ok)
    case Releasing(ok) => run.proc.Reaped? && (ok ==> run.proc.ok)
    case Clearing(ok) => run.proc.Reaped? && (ok ==> run.proc.ok)
    case Signalling(flag) => run.proc.Reaped? && (flag == kind.Tty? ==> run.proc.ok)
    case Calling(_, graceful, again) =>
      run.proc.Reaped? && (graceful ==> run.proc.ok) && (again ==> kind.Standard?)
    case Finished => run.proc.Reaped?
  }

  predicate StarterOk(e: Env, st: Starter) {
    match st
    case Raising => e.wait == 0 && e.handle == None
    case Installing(r) =>
      r + 1 == |e.runs| && e.runs[r] == Run(Unspawned, false, Unlaunched) && e.handle == None
    case Spawning(r) =>
      r + 1 == |e.runs| && e.runs[r] == Run(Unspawned, false, Unlaunched) && e.handle == Some(r)
    case Launching(r) => r + 1 == |e.runs| && e.runs[r].handler.Unlaunched? && Live(e.runs[r].proc)
    case _ => true
  }

  /** The lines from which a handler still reads or writes mainProcess. */
  predicate UsesHandle(kind: Kind, h: Handler) {
    || h.Attaching? || h.Waiting? || h.Judging? || h.Releasing? || h.Clearing?
    || (kind.Standard? && (h.Signalling? || (h.Calling? && h.again)))
  }

  /** The handle points to the newest run, from its installation until its handler cleared it. */
  predicate HandleOk(kind: Kind, handle: Option<nat>, runs: seq<Run>) {
    && (handle.Some? ==>
          (&& handle.value + 1 == |runs|
           && (UsesHandle(kind, runs[handle.value].handler) || runs[handle.value].handler.Unlaunched?)))
    && (forall r :: (0 <= r < |runs| && (UsesHandle(kind, runs[r].handler) || Live(runs[r].proc)))
          ==> handle == Some(r))
  }

  predicate WaiterOk(kind: Kind, runs: seq<Run>, w: Waiter) {
    w.run < |runs| && (w.Left? ==> !Holds(kind, runs[w.run].handler))
  }

  /** What the runs, the handle, the counter and the waiters keep, whoever is starting. */
  predicate Core(kind: Kind, runs: seq<Run>, handle: Option<nat>, wait: int, waiters: seq<Waiter>) {
    && wait == Sum(runs, HoldCount(kind))
    && (forall r :: 0 <= r < |runs| - 1 ==> !Holds(kind, runs[r].handler))
    && (forall r :: 0 <= r < |runs| ==> RunOk(kind, r, runs[r]))
    && HandleOk(kind, handle, runs)
    && (forall w :: 0 <= w < |waiters| ==> WaiterOk(kind, runs, waiters[w]))
  }

  ghost predicate Orderly(e: Env) {
    && Serial(e)
    && (forall k :: 0 <= k < |e.starters| ==> StarterOk(e, e.starters[k]))
    && Core(e.kind, e.runs, e.handle, e.wait, e.waiters)
  }

  /** The start that goes with a run that has no handler yet. */
  predicate Attends(st: Starter, r: nat) {
    (st.Installing? || st.Spawning? || st.Launching?) && st.run == r
  }

  /** A run without a handler is still being started, unless its spawn failed. */
  ghost predicate Attended(e: Env) {
    |e.runs| > 0 && e.runs[|e.runs| - 1].handler.Unlaunched? && !e.runs[|e.runs| - 1].proc.Failed?
    ==> exists k :: 0 <= k < |e.starters| && Attends(e.starters[k], |e.runs| - 1)
  }

  ghost predicate Inv(e: Env) {
    Orderly(e) && Attended(e)
  }

  /** With only the newest run possibly unreleased, the counter says whether it is. */
  lemma NewestHolds(kind: Kind, runs: seq<Run>)
    requires forall r :: 0 <= r < |runs| - 1 ==> !Holds(kind, runs[r].handler)
    ensures Sum(runs, HoldCount(kind)) <= 1
    ensures Sum(runs, HoldCount(kind)) == 0 <==> forall r :: 0 <= r < |runs| ==> !Holds(kind, runs[r].handler)
  {
    var f := HoldCount(kind);
    SumDominates(runs, f);
    if runs != [] {
      var last := |runs| - 1;
      var older := runs[..last];
      assert runs == older + [runs[last]];
      SumAppend(older, runs[last], f);
      assert forall r :: 0 <= r < |older| ==> older[r] == runs[r];
      SumOfZeros(older, f);
    }
  }

  lemma WaitMeaning(e: Env)
    requires Orderly(e)
    ensures 0 <= e.wait <= 1
    ensures e.wait == 0 <==> forall r :: 0 <= r < |e.runs| ==> !Holds(e.kind, e.runs[r].handler)
  {
    NewestHolds(e.kind, e.runs);
  }

  /** A change of one run that keeps its hold on the wait group keeps the counter's meaning. */
  lemma HoldUnchanged(e: Env, r: nat, run: Run)
    requires r < |e.runs| && Holds(e.kind, run.handler) == Holds(e.kind, e.runs[r].handler)
    ensures Sum(e.runs[r := run], HoldCount(e.kind)) == Sum(e.runs, HoldCount(e.kind))
  {
    SumUpdate(e.runs, r, run, HoldCount(e.kind));
  }

  // ---- The lines of a start ----

  lemma ArriveKeeps(e: Env, polled: bool)
    requires Orderly(e)
    ensures Orderly(Step(e, Arrive(polled)))
  {
    var e' := Step(e, Arrive(polled));
    forall k | 0 <= k < |e'.starters| ensures StarterOk(e', e'.starters[k]) {
      if k < |e.starters| { assert StarterOk(e, e.starters[k]); }
    }
  }

  /** Lines before Wait.Add(1) move one starter, which passes Wait.Wait() only as the single one. */
  lemma StarterMoves(e: Env, k: nat, st: Starter)
    requires Orderly(e) && k < |e.starters| && StarterOk(e, st)
    requires InFlight(st) ==> forall i :: 0 <= i < |e.starters| && i != k ==> !InFlight(e.starters[i])
    ensures Orderly(WithStarter(e, k, st))
  {
    var e' := WithStarter(e, k, st);
    forall i | 0 <= i < |e'.starters| ensures StarterOk(e', e'.starters[i]) {
      if i != k { assert StarterOk(e, e.starters[i]); }
    }
  }

  lemma BeforeWaitKeeps(e: Env, a: Action)
    requires Orderly(e) && Possible(e, a)
    requires a.Poll? || a.Check? || a.Prepare? || a.Enter?
    ensures Orderly(Step(e, a))
  {
    StarterMoves(e, a.k, Step(e, a).starters[a.k]);
  }

  /** Whoever passes Wait.Wait() finds no handle, and nobody else past it. */
  lemma PassFree(e: Env, k: nat)
    requires Orderly(e) && Enabled(Exclusive, e, PassWait(k))
    ensures e.handle == None
    ensures forall i :: 0 <= i < |e.starters| ==> !InFlight(e.starters[i])
  {
    WaitMeaning(e);
    forall i | 0 <= i < |e.starters| ensures !InFlight(e.starters[i]) {
      assert StarterOk(e, e.starters[i]);
    }
  }

  lemma PassKeeps(e: Env, k: nat)
    requires Orderly(e) && Enabled(Exclusive, e, PassWait(k))
    ensures Orderly(Step(e, PassWait(k)))
  {
    PassFree(e, k);
    StarterMoves(e, k, Raising);
  }

  lemma RaiseKeeps(e: Env, k: nat)
    requires Orderly(e) && Possible(e, Raise(k))
    ensures Orderly(Step(e, Raise(k)))
  {
    var e' := Step(e, Raise(k));
    assert StarterOk(e, e.starters[k]);
    WaitMeaning(e);
    SumAppend(e.runs, Run(Unspawned, false, Unlaunched), HoldCount(e.kind));
    forall j | 0 <= j < |e'.starters| ensures StarterOk(e', e'.starters[j]) {
      if j != k { assert !InFlight(e.starters[j]); }
    }
  }

  lemma InstallKeeps(e: Env, k: nat)
    requires Orderly(e) && Possible(e, Install(k))
    ensures Orderly(Step(e, Install(k)))
  {
    var e' := Step(e, Install(k));
    assert StarterOk(e, e.starters[k]);
    forall j | 0 <= j < |e'.starters| ensures StarterOk(e', e'.starters[j]) {
      if j != k { assert !InFlight(e.starters[j]); }
    }
  }

  /** The single starter in flight touches the newest run, and nobody else's facts mention it. */
  lemma NewestRunMoves(e: Env, e': Env, k: nat, run: Run)
    requires Orderly(e) && k < |e.starters| && (e.starters[k].Spawning? || e.starters[k].Launching?)
    requires |e'.starters| == |e.starters| && e'.starters == e.starters[k := e'.starters[k]]
    requires StarterOk(e', e'.starters[k])
    requires e' == WithStarter(e, k, e'.starters[k]).(runs := e.runs[e.starters[k].run := run])
    requires RunOk(e.kind, e.starters[k].run, run) && Holds(e.kind, run.handler)
    requires UsesHandle(e.kind, run.handler) || run.handler.Unlaunched?
    requires e.handle == Some(e.starters[k].run)
    ensures Orderly(e')
  {
    assert StarterOk(e, e.starters[k]);
    HoldUnchanged(e, e.starters[k].run, run);
    forall j | 0 <= j < |e'.starters| ensures StarterOk(e', e'.starters[j]) {
      if j != k { assert !InFlight(e.starters[j]); }
    }
  }

  lemma SpawnMoves(e: Env, a: Action)
    requires Orderly(e) && Possible(e, a) && (a.Spawn? || a.Launch?)
    ensures Orderly(Step(e, a))
  {
    var e', r := Step(e, a), e.starters[a.k].run;
    assert StarterOk(e, e.starters[a.k]) && RunOk(e.kind, r, e.runs[r]);
    NewestRunMoves(e, e', a.k, e'.runs[r]);
  }

  // ---- The lines of processes, close handlers and waiters ----

  /** What a step that only touches run `r`, without releasing it, has to establish. */
  lemma OneRunMoves(e: Env, e': Env, r: nat)
    requires Orderly(e) && r < |e.runs| && !e.runs[r].handler.Finished?
    requires Live(e.runs[r].proc) || !e.runs[r].handler.Unlaunched?
    requires |e'.runs| == |e.runs| && RunOk(e.kind, r, e'.runs[r])
    requires e' == e.(runs := e.runs[r := e'.runs[r]], handle := e'.handle)
    requires Holds(e.kind, e'.runs[r].handler) == Holds(e.kind, e.runs[r].handler)
    requires e'.runs[r].handler.Unlaunched? == e.runs[r].handler.Unlaunched?
    requires e.runs[r].handler.Unlaunched? ==> Live(e'.runs[r].proc)
    requires UsesHandle(e.kind, e'.runs[r].handler) || Live(e'.runs[r].proc) ==> e'.handle == e.handle == Some(r)
    requires e'.handle == if e.handle == Some(r) && !UsesHandle(e.kind, e'.runs[r].handler) && !Live(e'.runs[r].proc)
                          then None else e.handle
    ensures Orderly(e')
  {
    HoldUnchanged(e, r, e'.runs[r]);
    forall k | 0 <= k < |e'.starters| ensures StarterOk(e', e'.starters[k]) {
      assert StarterOk(e, e.starters[k]);
    }
  }

  lemma ProcessMoves(e: Env, a: Action)
    requires Orderly(e) && Possible(e, a) && (a.Silence? || a.Exit?)
    ensures Orderly(Step(e, a))
  {
    assert RunOk(e.kind, a.r, e.runs[a.r]);
    OneRunMoves(e, Step(e, a), a.r);
  }

  lemma ReapMoves(e: Env, a: Action)
    requires Orderly(e) && Possible(e, a) && (a.Attach? || a.Reap? || a.WaitFails?)
    ensures Orderly(Step(e, a))
  {
    assert RunOk(e.kind, a.r, e.runs[a.r]);
    OneRunMoves(e, Step(e, a), a.r);
  }

  lemma HandleMoves(e: Env, a: Action)
    requires Orderly(e) && Possible(e, a) && (a.Judge? || a.Release? || a.Clear?)
    ensures Orderly(Step(e, a))
  {
    assert RunOk(e.kind, a.r, e.runs[a.r]);
    assert e.handle == Some(a.r);
    OneRunMoves(e, Step(e, a), a.r);
  }

  lemma AdvanceKeeps(e: Env, r: nat, to: Handler)
    requires Orderly(e) && Possible(e, Advance(r, to))
    ensures Orderly(Step(e, Advance(r, to)))
  {
    assert RunOk(e.kind, r, e.runs[r]);
    OneRunMoves(e, Step(e, Advance(r, to)), r);
  }

  /** The unit given back was the only one, and nobody waits to raise it. */
  lemma SignalFrees(e: Env, r: nat)
    requires Orderly(e) && Possible(e, Signal(r))
    ensures var e' := Step(e, Signal(r));
            r == |e.runs| - 1 && e.wait == 1 && e'.wait == 0 == Sum(e'.runs, HoldCount(e.kind))
    ensures Unraised(e)
  {
    SumUpdate(e.runs, r, Step(e, Signal(r)).runs[r], HoldCount(e.kind));
    WaitMeaning(e);
    forall k | 0 <= k < |e.starters| ensures !e.starters[k].Raising? {
      assert StarterOk(e, e.starters[k]);
    }
  }

  lemma SignalKeeps(e: Env, r: nat)
    requires Orderly(e) && Possible(e, Signal(r))
    ensures Orderly(Step(e, Signal(r)))
  {
    var e' := Step(e, Signal(r));
    SignalFrees(e, r);
    hide Sum;
    assert RunOk(e.kind, r, e.runs[r]) && RunOk(e.kind, r, e'.runs[r]);
    forall k | 0 <= k < |e'.starters| ensures StarterOk(e', e'.starters[k]) {
      assert StarterOk(e, e.starters[k]);
    }
  }

  lemma WaiterMoves(e: Env, a: Action)
    requires Orderly(e) && Possible(e, a) && (a.Watch? || a.Leave?)
    ensures Orderly(Step(e, a))
  {
    WaitMeaning(e);
    var e' := Step(e, a);
    forall k | 0 <= k < |e'.starters| ensures StarterOk(e', e'.starters[k]) {
      assert StarterOk(e, e.starters[k]);
    }
  }

  lemma StepOrderly(e: Env, a: Action)
    requires Orderly(e) && Enabled(Exclusive, e, a)
    ensures Orderly(Step(e, a))
  {
    hide Orderly, Step;
    match a
    case Arrive(polled) => ArriveKeeps(e, polled);
    case Poll(_) => BeforeWaitKeeps(e, a);
    case Check(_, _) => BeforeWaitKeeps(e, a);
    case Prepare(_, _) => BeforeWaitKeeps(e, a);
    case Enter(_) => BeforeWaitKeeps(e, a);
    case PassWait(k) => PassKeeps(e, k);
    case Raise(k) => RaiseKeeps(e, k);
    case Install(k) => InstallKeeps(e, k);
    case Spawn(_, _) => SpawnMoves(e, a);
    case Launch(_) => SpawnMoves(e, a);
    case Silence(_) => ProcessMoves(e, a);
    case Exit(_, _) => ProcessMoves(e, a);
    case Attach(_) => ReapMoves(e, a);
    case Reap(_, _) => ReapMoves(e, a);
    case WaitFails(_) => ReapMoves(e, a);
    case Judge(_) => HandleMoves(e, a);
    case Release(_) => HandleMoves(e, a);
    case Clear(_) => HandleMoves(e, a);
    case Signal(r) => SignalKeeps(e, r);
    case Advance(r, to) => AdvanceKeeps(e, r, to);
    case Watch => WaiterMoves(e, a);
    case Leave(_) => WaiterMoves(e, a);
  }

  // ---- Runs that are being started ----

  /** The lines that are not part of a start create no run and take no handler away. */
  lemma ClosingAttended(e: Env, a: Action)
    requires Orderly(e) && Attended(e) && Possible(e, a) && Closes(a)
    ensures Attended(Step(e, a))
  {
    assert Step(e, a).starters == e.starters && |Step(e, a).runs| == |e.runs|;
  }

  lemma StartingAttended(e: Env, a: Action)
    requires Orderly(e) && Attended(e) && Possible(e, a) && !Closes(a) && !a.Arrive?
    ensures Attended(Step(e, a))
  {
    var e', last := Step(e, a), |e.runs| - 1;
    assert StarterOk(e, e.starters[a.k]);
    assert e'.starters == e.starters[a.k := e'.starters[a.k]];
    hide Core, Serial;
    if a.Raise? {
      assert Attends(e'.starters[a.k], |e.runs|);
    } else if last >= 0 && e'.runs[last].handler.Unlaunched? && !e'.runs[last].proc.Failed? {
      var k :| 0 <= k < |e.starters| && Attends(e.starters[k], last);
      assert Attends(e'.starters[k], last);
    }
  }

  lemma ArrivingAttended(e: Env, polled: bool)
    requires Attended(e)
    ensures Attended(Step(e, Arrive(polled)))
  {
    assert forall k :: 0 <= k < |e.starters| ==> Step(e, Arrive(polled)).starters[k] == e.starters[k];
  }

  /** Every line of every goroutine keeps the invariant. */
  lemma StepKeeps(e: Env, a: Action)
    requires Inv(e) && Enabled(Exclusive, e, a)
    ensures Inv(Step(e, a))
  {
    StepOrderly(e, a);
    hide Orderly, Attended, Step;
    if Closes(a) {
      ClosingAttended(e, a);
    } else if a.Arrive? {
      ArrivingAttended(e, a.polled);
    } else {
      StartingAttended(e, a);
    }
  }

  lemma {:induction false} RunKeeps(e: Env, acts: seq<Action>)
    requires Inv(e) && Legal(Exclusive, e, acts)
    ensures Inv(Exec(Exclusive, e, acts))
    decreases acts
  {
    hide Inv, Step;
    if acts != [] {
      StepKeeps(e, acts[0]);
      RunKeeps(Step(e, acts[0]), acts[1..]);
    }
  }

  lemma LeadsKeeps(e: Env, t: Env)
    requires Inv(e) && LeadsTo(Exclusive, e, t)
    ensures Inv(t)
  {
    hide Inv, Step;
    var acts :| Legal(Exclusive, e, acts) && Exec(Exclusive, e, acts) == t;
    RunKeeps(e, acts);
  }

  lemma FreshInv(kind: Kind)
    ensures Inv(Fresh(kind))
  {
  }

  lemma ReachableInv(kind: Kind, e: Env)
    requires Reachable(Exclusive, kind, e)
    ensures Inv(e)
  {
    FreshInv(kind);
    LeadsKeeps(Fresh(kind), e);
  }

  lemma {:induction false} KindKept(d: Discipline, e: Env, acts: seq<Action>)
    requires Legal(d, e, acts)
    ensures Exec(d, e, acts).kind == e.kind
    decreases acts
  {
    if acts != [] { KindKept(d, Step(e, acts[0]), acts[1..]); }
  }
}
