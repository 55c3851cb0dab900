/**
 * One server environment, line by line: ttyExecuteAsync, IsRunning, WaitForMainProcess and
 * handleClose of the tty environment, and the same functions of the standard environment,
 * together with the part of Program.Start that leads up to them. Every goroutine that is
 * inside one of these functions is a program counter in the state; an action executes one
 * line of one goroutine, so a sequence of actions is an interleaving.
 */
module Environment {
  import opened Common

  /** Which close handler the environment runs: the two release the wait group at different lines. */
  datatype Kind = Tty | Standard

  /**
   * The operating-system process behind one exec.Cmd. A silent one lives on after closing its
   * output; a zombie still answers signal 0.
   */
  datatype Proc = Unspawned | Failed | Alive | Silent | Zombie(ok: bool) | Reaped(ok: bool)

  /**
   * What is assumed of the moment at which a start passes Wait.Wait(): nothing; that no other start
   * is between Wait.Wait() and Wait.Add(1); also that no close handler is between Wait.Done() and
   * Process.Release(); or even that none is between Wait.Done() and the line that clears mainProcess.
   * tty clears before Done, so there the last three are the same.
   */
  datatype Discipline = Unguarded | Serialised | Released | Exclusive

  /** The lines of Program.afterExit, which the close handler calls back. */
  datatype CallbackLine = Resetting | PostExecution | Deciding | Requeueing

  /** Where the close-handler goroutine of a run stands. */
  datatype Handler =
    | Unlaunched                  // `go handleClose` has not been reached
    | Attaching                   // about to evaluate the receiver of mainProcess.Wait()
    | Waiting(target: nat)        // inside Wait() of the run it read from the handle
    | Judging(err: bool)          // about to read ProcessState through the handle
    | Releasing(ok: bool)         // about to release the process behind the handle
    | Clearing(ok: bool)          // about to set mainProcess to nil
    | Signalling(flag: bool)      // about to call Wait.Done()
    | Calling(line: CallbackLine, graceful: bool, again: bool) // inside the callback
    | Finished

  /** One exec.Cmd: its process, whether Process.Release was called on it, and its close handler. */
  datatype Run = Run(proc: Proc, detached: bool, handler: Handler)

  /** Where a goroutine inside Program.Start stands. */
  datatype Starter =
    | Polled            // queue processor, before its own running check
    | Requested         // before the enabled and running checks of Start
    | Preparing         // before the pre-execution steps
    | Entering          // before the running check of ExecuteAsync
    | Blocked           // in Wait.Wait()
    | Raising           // before Wait.Add(1)
    | Installing(run: nat)
    | Spawning(run: nat)
    | Launching(run: nat)
    | Returned(started: bool)

  /** A caller of WaitForMainProcess that saw run `run` alive. */
  datatype Waiter = Watching(run: nat) | Left(run: nat)

  datatype Env = Env(
    kind: Kind,
    handle: Option<nat>,       // mainProcess, as the run whose exec.Cmd it points to
    wait: int,                 // counter of the wait group
    runs: seq<Run>,            // every exec.Cmd ever installed, oldest first
    starters: seq<Starter>,
    waiters: seq<Waiter>)

  function Fresh(kind: Kind): Env {
    Env(kind, None, 0, [], [], [])
  }

  datatype Action =
    | Arrive(polled: bool)            // a goroutine begins a start
    | Poll(k: nat)                    // program.go:89
    | Check(k: nat, enabled: bool)    // program.go:139-145
    | Prepare(k: nat, ok: bool)       // program.go:154-168
    | Enter(k: nat)                   // tty.go:44-51
    | PassWait(k: nat)                // tty.go:52
    | Raise(k: nat)                   // tty.go:62
    | Install(k: nat)                 // tty.go:64
    | Spawn(k: nat, ok: bool)         // tty.go:66-69
    | Launch(k: nat)                  // tty.go:77
    | Silence(r: nat)                 // the process closes its output and lives on
    | Exit(r: nat, ok: bool)          // the process ends by itself or by a signal
    | Attach(r: nat)                  // tty.go:179, receiver
    | Reap(r: nat, ioErr: bool)       // tty.go:179, return
    | WaitFails(r: nat)               // the same, when there is no process to wait for
    | Judge(r: nat)                   // tty.go:182-186
    | Release(r: nat)                 // tty.go:188-190
    | Clear(r: nat)                   // tty.go:191
    | Signal(r: nat)                  // tty.go:192
    | Advance(r: nat, to: Handler)    // one line of the callback
    | Watch                           // tty.go:150-154
    | Leave(w: nat)                   // tty.go:159-162

  /** The process has not ended. */
  predicate Running(p: Proc) {
    p.Alive? || p.Silent?
  }

  /** The process has not been reaped. */
  predicate Live(p: Proc) {
    Running(p) || p.Zombie?
  }

  /** IsRunning: a handle with a spawned, unreleased process that still answers signal 0. */
  predicate IsRunning(e: Env) {
    && e.handle.Some?
    && e.handle.value < |e.runs|
    && !e.runs[e.handle.value].detached
    && Live(e.runs[e.handle.value].proc)
  }

  /** Inside ExecuteAsync, past Wait.Wait(). */
  predicate InFlight(st: Starter) {
    st.Raising? || st.Installing? || st.Spawning? || st.Launching?
  }

  /** The handler of standard has called Wait.Done() and has yet to release the process. */
  predicate Unreleased(kind: Kind, h: Handler) {
    kind.Standard? && (h.Judging? || h.Releasing? || (h.Calling? && h.again))
  }

  /** The handler of standard has called Wait.Done() and has yet to clear mainProcess. */
  predicate Late(kind: Kind, h: Handler) {
    Unreleased(kind, h) || (kind.Standard? && h.Clearing?)
  }

  /** Wait() returns an error: nothing was spawned, somebody else reaped it, or it was released. */
  predicate WaitError(kind: Kind, run: Run) {
    // standard gives exec.Cmd a writer, so Wait also waits until the output is closed
    !Live(run.proc) || (run.detached && (kind.Standard? ==> !run.proc.Alive?))
  }

  /** The lines on which a run still holds its unit of the wait group. */
  predicate Holds(kind: Kind, h: Handler) {
    match h
    case Unlaunched => true
    case Attaching => true
    case Waiting(_) => true
    case Signalling(_) => true
    case Judging(_) => kind.Tty?
    case Releasing(_) => kind.Tty?
    case Clearing(_) => kind.Tty?
    case Calling(_, _, _) => false
    case Finished => false
  }

  /** tty judges right after reaping; standard first signals the wait group. */
  function AfterReap(kind: Kind, err: bool): Handler {
    if kind.Tty? then Judging(err) else Signalling(err)
  }

  /** standard runs the callback a first time, inside the judgement, when the wait failed. */
  function AfterJudge(kind: Kind, ok: bool, bad: bool): Handler {
    if kind.Standard? && bad then Calling(Resetting, false, true) else Releasing(ok)
  }

  function AfterClear(kind: Kind, ok: bool): Handler {
    if kind.Tty? then Signalling(ok) else Calling(Resetting, ok, false)
  }

  function AfterSignal(kind: Kind, flag: bool): Handler {
    if kind.Tty? then Calling(Resetting, flag, false) else Judging(flag)
  }

  /** Where the handler continues when the callback returns. */
  function AfterCallback(again: bool): Handler {
    if again then Releasing(false) else Finished
  }

  predicate CallbackMove(from: Handler, to: Handler) {
    from.Calling? && (
      || (to.Calling? && to.graceful == from.graceful && to.again == from.again)
      || to == AfterCallback(from.again))
  }

  /** The ProcessState test of the handler, made through the handle and not through its own run. */
  function Verdict(e: Env, err: bool): (r: (bool, bool)) {
    var bad := e.handle.None? || e.handle.value >= |e.runs| || !e.runs[e.handle.value].proc.Reaped? || err;
    (!bad && e.runs[e.handle.value].proc.ok, bad)
  }

  predicate StarterAt(e: Env, k: nat, st: Starter) {
    k < |e.starters| && e.starters[k] == st
  }

  /** Whether the line can execute. A nil dereference ends the daemon, so it is no step. */
  predicate Possible(e: Env, a: Action) {
    match a
    case Arrive(_) => true
    case Poll(k) => StarterAt(e, k, Polled)
    case Check(k, _) => StarterAt(e, k, Requested)
    case Prepare(k, _) => StarterAt(e, k, Preparing)
    case Enter(k) => StarterAt(e, k, Entering)
    case PassWait(k) => StarterAt(e, k, Blocked) && e.wait == 0
    case Raise(k) => StarterAt(e, k, Raising)
    case Install(k) => k < |e.starters| && e.starters[k].Installing?
    case Spawn(k, _) =>
      && k < |e.starters| && e.starters[k].Spawning? && e.starters[k].run < |e.runs|
      && (e.kind.Standard? ==> e.handle == Some(e.starters[k].run))
    case Launch(k) =>   // the goroutine of this run's handler does not exist before this line
      && k < |e.starters| && e.starters[k].Launching? && e.starters[k].run < |e.runs|
      && e.runs[e.starters[k].run].handler.Unlaunched?
    case Silence(r) => r < |e.runs| && e.runs[r].proc.Alive?
    case Exit(r, _) => r < |e.runs| && Running(e.runs[r].proc)
    case Attach(r) =>
      && r < |e.runs| && e.runs[r].handler.Attaching?
      && e.handle.Some? && e.handle.value < |e.runs|
    case Reap(r, _) =>
      && r < |e.runs| && e.runs[r].handler.Waiting?
      && e.runs[r].handler.target < |e.runs| && e.runs[e.runs[r].handler.target].proc.Zombie?
    case WaitFails(r) =>
      && r < |e.runs| && e.runs[r].handler.Waiting?
      && e.runs[r].handler.target < |e.runs| && WaitError(e.kind, e.runs[e.runs[r].handler.target])
    case Judge(r) => r < |e.runs| && e.runs[r].handler.Judging?
    case Release(r) => r < |e.runs| && e.runs[r].handler.Releasing?
    case Clear(r) => r < |e.runs| && e.runs[r].handler.Clearing?
    case Signal(r) => r < |e.runs| && e.runs[r].handler.Signalling?
    case Advance(r, to) => r < |e.runs| && CallbackMove(e.runs[r].handler, to)
    case Watch => IsRunning(e)
    case Leave(w) => w < |e.waiters| && e.waiters[w].Watching? && e.wait == 0
  }

  predicate Unraised(e: Env) {
    forall i :: 0 <= i < |e.starters| ==> !e.starters[i].Raising?
  }

  predicate Settled(e: Env) {
    forall r :: 0 <= r < |e.runs| ==> !Late(e.kind, e.runs[r].handler)
  }

  predicate AllReleased(e: Env) {
    forall r :: 0 <= r < |e.runs| ==> !Unreleased(e.kind, e.runs[r].handler)
  }

  /** The moment is as the discipline assumes. */
  predicate Undisputed(d: Discipline, e: Env) {
    match d
    case Unguarded => true
    case Serialised => Unraised(e)
    case Released => Unraised(e) && AllReleased(e)
    case Exclusive => Unraised(e) && Settled(e)
  }

  /** The named assumption, at the only line it concerns. */
  predicate Permitted(d: Discipline, e: Env, a: Action) {
    a.PassWait? ==> Undisputed(d, e)
  }

  predicate Enabled(d: Discipline, e: Env, a: Action) {
    Possible(e, a) && Permitted(d, e, a)
  }

  function WithStarter(e: Env, k: nat, st: Starter): Env
    requires k < |e.starters|
  {
    e.(starters := e.starters[k := st])
  }

  function WithHandler(e: Env, r: nat, h: Handler): Env
    requires r < |e.runs|
  {
    e.(runs := e.runs[r := e.runs[r].(handler := h)])
  }

  function WithProc(e: Env, r: nat, p: Proc): Env
    requires r < |e.runs|
  {
    e.(runs := e.runs[r := e.runs[r].(proc := p)])
  }

  /** Process.Release on whatever run the handle points to, if that run has a process. */
  function Detach(e: Env): Env {
    if e.handle.Some? && e.handle.value < |e.runs|
       && !e.runs[e.handle.value].proc.Unspawned? && !e.runs[e.handle.value].proc.Failed?
    then
      e.(runs := e.runs[e.handle.value := e.runs[e.handle.value].(detached := true)])
    else e
  }

  function StartStep(e: Env, a: Action): Env
    requires Possible(e, a)
  {
    match a
    case Arrive(polled) => e.(starters := e.starters + [if polled then Polled else Requested])
    case Poll(k) => WithStarter(e, k, if IsRunning(e) then Returned(false) else Requested)
    case Check(k, enabled) =>
      WithStarter(e, k, if !enabled || IsRunning(e) then Returned(false) else Preparing)
    case Prepare(k, ok) => WithStarter(e, k, if ok then Entering else Returned(false))
    case Enter(k) => WithStarter(e, k, if IsRunning(e) then Returned(false) else Blocked)
    case PassWait(k) => WithStarter(e, k, Raising)
    case Raise(k) =>
      WithStarter(e, k, Installing(|e.runs|)).(wait := e.wait + 1, runs := e.runs + [Run(Unspawned, false, Unlaunched)])
    case Install(k) => WithStarter(e, k, Spawning(e.starters[k].run)).(handle := Some(e.starters[k].run))
    case Spawn(k, ok) =>
      var r := e.starters[k].run;
      if ok then WithStarter(WithProc(e, r, Alive), k, Launching(r))
      else WithStarter(WithProc(e, r, Failed), k, Returned(false))
    case Launch(k) => WithStarter(WithHandler(e, e.starters[k].run, Attaching), k, Returned(true))
    case _ => e
  }

  function CloseStep(e: Env, a: Action): Env
    requires Possible(e, a)
  {
    match a
    case Silence(r) => WithProc(e, r, Silent)
    case Exit(r, ok) => WithProc(e, r, Zombie(ok))
    case Attach(r) => WithHandler(e, r, Waiting(e.handle.value))
    case Reap(r, ioErr) =>
      var x := e.runs[r].handler.target;
      var ok := e.runs[x].proc.ok;
      WithHandler(WithProc(e, x, Reaped(ok)), r, AfterReap(e.kind, !ok || ioErr))
    case WaitFails(r) => WithHandler(e, r, AfterReap(e.kind, true))
    case Judge(r) =>
      var v := Verdict(e, e.runs[r].handler.err);
      WithHandler(e, r, AfterJudge(e.kind, v.0, v.1))
    case Release(r) => WithHandler(Detach(e), r, Clearing(e.runs[r].handler.ok))
    case Clear(r) => WithHandler(e, r, AfterClear(e.kind, e.runs[r].handler.ok)).(handle := None)
    case Signal(r) =>
      WithHandler(e, r, AfterSignal(e.kind, e.runs[r].handler.flag)).(wait := e.wait - 1)
    case Advance(r, to) => WithHandler(e, r, to)
    case Watch => e.(waiters := e.waiters + [Watching(e.handle.value)])
    case Leave(w) => e.(waiters := e.waiters[w := Left(e.waiters[w].run)])
    case _ => e
  }

  /** Lines of processes, close handlers and waiters; the others belong to starts. */
  predicate Closes(a: Action) {
    || a.Silence? || a.Exit? || a.Attach? || a.Reap? || a.WaitFails? || a.Judge? || a.Release? || a.Clear?
    || a.Signal? || a.Advance? || a.Watch? || a.Leave?
  }

  /** The effect of one line. */
  function Step(e: Env, a: Action): Env
    requires Possible(e, a)
  {
    if Closes(a) then CloseStep(e, a) else StartStep(e, a)
  }

  /** Every action of the interleaving is enabled when its turn comes. */
  predicate Legal(d: Discipline, e: Env, acts: seq<Action>)
    decreases acts
  {
    acts == [] || (Enabled(d, e, acts[0]) && Legal(d, Step(e, acts[0]), acts[1..]))
  }

  function Exec(d: Discipline, e: Env, acts: seq<Action>): Env
    requires Legal(d, e, acts)
    decreases acts
  {
    if acts == [] then e else Exec(d, Step(e, acts[0]), acts[1..])
  }

  /** Some interleaving leads from `e` to `t`. */
  ghost predicate LeadsTo(d: Discipline, e: Env, t: Env) {
    exists acts: seq<Action> :: Legal(d, e, acts) && Exec(d, e, acts) == t
  }

  ghost predicate Reachable(d: Discipline, kind: Kind, e: Env) {
    LeadsTo(d, Fresh(kind), e)
  }

  /** A run can be continued by any action its last state enables. */
  lemma {:induction false} Extend(d: Discipline, e: Env, acts: seq<Action>, a: Action)
    requires Legal(d, e, acts) && Enabled(d, Exec(d, e, acts), a)
    ensures Legal(d, e, acts + [a])
    ensures Exec(d, e, acts + [a]) == Step(Exec(d, e, acts), a)
    decreases acts
  {
    if acts == [] {
      assert acts + [a] == [a];
    } else {
      assert (acts + [a])[1..] == acts[1..] + [a];
      Extend(d, Step(e, acts[0]), acts[1..], a);
    }
  }

  lemma First(d: Discipline, e: Env, a: Action, more: seq<Action>)
    requires Enabled(d, e, a) && Legal(d, Step(e, a), more)
    ensures Legal(d, e, [a] + more) && Exec(d, e, [a] + more) == Exec(d, Step(e, a), more)
  {
    hide Step, Enabled;
    assert ([a] + more)[1..] == more;
  }

  lemma LeadsNowhere(d: Discipline, e: Env)
    ensures LeadsTo(d, e, e)
  {
    assert Legal(d, e, []);
  }

  lemma LeadsOn(d: Discipline, e: Env, now: Env, a: Action)
    requires LeadsTo(d, e, now) && Enabled(d, now, a)
    ensures LeadsTo(d, e, Step(now, a))
  {
    var acts :| Legal(d, e, acts) && Exec(d, e, acts) == now;
    Extend(d, e, acts, a);
  }
}
