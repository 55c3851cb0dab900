/**
 * The tty environment as the object it is: fields changed in place by ttyExecuteAsync and
 * handleClose. Undisturbed, each method is one particular interleaving of the line-by-line
 * machine of module Environment, namely its own lines in order; the theorems about all
 * interleavings therefore speak about this code.
 */
module TtyObject {
  import opened Common
  import opened Environment

  datatype ExecuteError = ErrProcessRunning | ErrSpawn

  /** The lines of ExecuteAsync, for a start that finds the environment free. */
  function ExecuteLines(spawnOk: bool): seq<Action> {
    [Enter(0), PassWait(0), Raise(0), Install(0), Spawn(0, spawnOk)] + (if spawnOk then [Launch(0)] else [])
  }

  /** The lines of handleClose for run r, up to the call of the callback. */
  function CloseLines(r: nat, ioErr: bool): seq<Action> {
    [Attach(r), Reap(r, ioErr), Judge(r), Release(r), Clear(r), Signal(r)]
  }

  lemma Next(e: Env, acts: seq<Action>, now: Env, a: Action, next: Env)
    requires Legal(Exclusive, e, acts) && Exec(Exclusive, e, acts) == now
    requires Enabled(Exclusive, now, a) && Step(now, a) == next
    ensures Legal(Exclusive, e, acts + [a]) && Exec(Exclusive, e, acts + [a]) == next
  {
    Extend(Exclusive, e, acts, a);
  }

  lemma PassRuns(e: Env)
    requires !IsRunning(e) && e.wait == 0 && e.kind.Tty? && e.starters == [Entering]
    ensures Legal(Exclusive, e, [Enter(0), PassWait(0)])
    ensures Exec(Exclusive, e, [Enter(0), PassWait(0)]) == e.(starters := [Raising])
  {
    assert Legal(Exclusive, e, []) && Exec(Exclusive, e, []) == e;
    hide Legal, Exec;
    Next(e, [], e, Enter(0), e.(starters := [Blocked]));
    assert [] + [Enter(0)] == [Enter(0)];
    Next(e, [Enter(0)], e.(starters := [Blocked]), PassWait(0), e.(starters := [Raising]));
    assert [Enter(0)] + [PassWait(0)] == [Enter(0), PassWait(0)];
  }

  /** What the lines of ExecuteAsync do when nothing interferes. */
  lemma ExecuteRuns(e: Env, spawnOk: bool)
    requires !IsRunning(e) && e.wait == 0 && e.kind.Tty? && e.starters == [Entering]
    ensures Legal(Exclusive, e, ExecuteLines(spawnOk))
    ensures Exec(Exclusive, e, ExecuteLines(spawnOk))
            == e.(handle := Some(|e.runs|), wait := 1, starters := [Returned(spawnOk)],
                  runs := e.runs + [if spawnOk then Run(Alive, false, Attaching) else Run(Failed, false, Unlaunched)])
  {
    var r, cmd := |e.runs|, Run(Unspawned, false, Unlaunched);
    hide Legal, Exec;
    PassRuns(e);
    var e3 := e.(wait := 1, runs := e.runs + [cmd], starters := [Installing(r)]);
    var e4 := e3.(handle := Some(r), starters := [Spawning(r)]);
    Next(e, [Enter(0), PassWait(0)], e.(starters := [Raising]), Raise(0), e3);
    assert [Enter(0), PassWait(0)] + [Raise(0)] == [Enter(0), PassWait(0), Raise(0)];
    Next(e, [Enter(0), PassWait(0), Raise(0)], e3, Install(0), e4);
    assert [Enter(0), PassWait(0), Raise(0)] + [Install(0)] == [Enter(0), PassWait(0), Raise(0), Install(0)];
    SpawnRuns(e, e4, spawnOk);
  }

  lemma SpawnRuns(e: Env, e4: Env, spawnOk: bool)
    requires Legal(Exclusive, e, [Enter(0), PassWait(0), Raise(0), Install(0)])
    requires Exec(Exclusive, e, [Enter(0), PassWait(0), Raise(0), Install(0)]) == e4
    requires e4.kind.Tty? && e4.runs == e.runs + [Run(Unspawned, false, Unlaunched)]
    requires e4.starters == [Spawning(|e.runs|)]
    ensures Legal(Exclusive, e, ExecuteLines(spawnOk))
    ensures Exec(Exclusive, e, ExecuteLines(spawnOk))
            == e4.(starters := [Returned(spawnOk)],
                   runs := e.runs + [if spawnOk then Run(Alive, false, Attaching) else Run(Failed, false, Unlaunched)])
  {
    hide Legal, Exec;
    var before := [Enter(0), PassWait(0), Raise(0), Install(0)];
    if spawnOk {
      var e5 := e4.(starters := [Launching(|e.runs|)], runs := e.runs + [Run(Alive, false, Unlaunched)]);
      Next(e, before, e4, Spawn(0, true), e5);
      Next(e, before + [Spawn(0, true)], e5, Launch(0),
           e5.(starters := [Returned(true)], runs := e.runs + [Run(Alive, false, Attaching)]));
      assert before + [Spawn(0, true)] + [Launch(0)] == ExecuteLines(true);
    } else {
      Next(e, before, e4, Spawn(0, false),
           e4.(starters := [Returned(false)], runs := e.runs + [Run(Failed, false, Unlaunched)]));
      assert before + [Spawn(0, false)] == ExecuteLines(false);
    }
  }

  /** What the lines of handleClose do when nothing interferes and the handle is the run's own. */
  lemma CloseRuns(e: Env, r: nat, ioErr: bool)
    requires e.kind.Tty? && r < |e.runs| && e.handle == Some(r)
    requires e.runs[r].handler.Attaching? && e.runs[r].proc.Zombie?
    ensures Legal(Exclusive, e, CloseLines(r, ioErr))
    ensures var ok := e.runs[r].proc.ok;
            Exec(Exclusive, e, CloseLines(r, ioErr))
            == e.(handle := None, wait := e.wait - 1,
                  runs := e.runs[r := Run(Reaped(ok), true, Calling(Resetting, ok && !ioErr, false))])
  {
    hide Legal, Exec, Step;
    JudgeRuns(e, r, ioErr);
    var ok, good := e.runs[r].proc.ok, e.runs[r].proc.ok && !ioErr;
    CloseRest(e, e.(runs := e.runs[r := Run(Reaped(ok), e.runs[r].detached, Releasing(good))]), r, ioErr, good);
  }

  lemma JudgeRuns(e: Env, r: nat, ioErr: bool)
    requires e.kind.Tty? && r < |e.runs| && e.handle == Some(r)
    requires e.runs[r].handler.Attaching? && e.runs[r].proc.Zombie?
    ensures Legal(Exclusive, e, [Attach(r), Reap(r, ioErr), Judge(r)])
    ensures var ok := e.runs[r].proc.ok;
            Exec(Exclusive, e, [Attach(r), Reap(r, ioErr), Judge(r)])
            == e.(runs := e.runs[r := Run(Reaped(ok), e.runs[r].detached, Releasing(ok && !ioErr))])
  {
    var ok, d := e.runs[r].proc.ok, e.runs[r].detached;
    WaitRuns(e, r, ioErr);
    hide Legal, Exec;
    var e2 := e.(runs := e.runs[r := Run(Reaped(ok), d, Judging(!ok || ioErr))]);
    var e3 := e.(runs := e.runs[r := Run(Reaped(ok), d, Releasing(ok && !ioErr))]);
    Next(e, [Attach(r), Reap(r, ioErr)], e2, Judge(r), e3);
    assert [Attach(r), Reap(r, ioErr)] + [Judge(r)] == [Attach(r), Reap(r, ioErr), Judge(r)];
  }

  lemma WaitRuns(e: Env, r: nat, ioErr: bool)
    requires e.kind.Tty? && r < |e.runs| && e.handle == Some(r)
    requires e.runs[r].handler.Attaching? && e.runs[r].proc.Zombie?
    ensures Legal(Exclusive, e, [Attach(r), Reap(r, ioErr)])
    ensures var ok := e.runs[r].proc.ok;
            Exec(Exclusive, e, [Attach(r), Reap(r, ioErr)])
            == e.(runs := e.runs[r := Run(Reaped(ok), e.runs[r].detached, Judging(!ok || ioErr))])
  {
    var ok, d := e.runs[r].proc.ok, e.runs[r].detached;
    assert Legal(Exclusive, e, []) && Exec(Exclusive, e, []) == e;
    hide Legal, Exec;
    var e1 := e.(runs := e.runs[r := Run(Zombie(ok), d, Waiting(r))]);
    Next(e, [], e, Attach(r), e1);
    assert [] + [Attach(r)] == [Attach(r)];
    Next(e, [Attach(r)], e1, Reap(r, ioErr), e.(runs := e.runs[r := Run(Reaped(ok), d, Judging(!ok || ioErr))]));
    assert [Attach(r)] + [Reap(r, ioErr)] == [Attach(r), Reap(r, ioErr)];
  }

  lemma CloseRest(e: Env, e3: Env, r: nat, ioErr: bool, good: bool)
    requires e3.kind.Tty? && r < |e3.runs| && e3.handle == Some(r)
    requires e3.runs[r].handler == Releasing(good) && e3.runs[r].proc.Reaped?
    requires Legal(Exclusive, e, [Attach(r), Reap(r, ioErr), Judge(r)])
    requires Exec(Exclusive, e, [Attach(r), Reap(r, ioErr), Judge(r)]) == e3
    ensures Legal(Exclusive, e, CloseLines(r, ioErr))
    ensures Exec(Exclusive, e, CloseLines(r, ioErr))
            == e3.(handle := None, wait := e3.wait - 1,
                   runs := e3.runs[r := Run(e3.runs[r].proc, true, Calling(Resetting, good, false))])
  {
    hide Legal, Exec;
    var p := e3.runs[r].proc;
    var e4 := e3.(runs := e3.runs[r := Run(p, true, Clearing(good))]);
    var e5 := e3.(handle := None, runs := e3.runs[r := Run(p, true, Signalling(good))]);
    var before := [Attach(r), Reap(r, ioErr), Judge(r)];
    Next(e, before, e3, Release(r), e4);
    Next(e, before + [Release(r)], e4, Clear(r), e5);
    Next(e, before + [Release(r)] + [Clear(r)], e5, Signal(r),
         e5.(wait := e3.wait - 1, runs := e3.runs[r := Run(p, true, Calling(Resetting, good, false))]));
    assert before + [Release(r)] + [Clear(r)] + [Signal(r)] == CloseLines(r, ioErr);
  }

  /** The object behind `type tty struct`; an exec.Cmd is the index of its run. */
  class Tty {
    var mainProcess: Option<nat>
    var wait: int
    var runs: seq<Run>

    constructor ()
      ensures View([]) == Fresh(Kind.Tty)
    {
      mainProcess, wait, runs := None, 0, [];
    }

    /** The fields as a state of the machine, with the given goroutines inside Start. */
    function View(starters: seq<Starter>): Env
      reads this
    {
      Env(Kind.Tty, mainProcess, wait, runs, starters, [])
    }

    method IsRunning() returns (isRunning: bool)
      ensures isRunning == Environment.IsRunning(View([]))
    {
      isRunning := mainProcess.Some? && mainProcess.value < |runs| && !runs[mainProcess.value].detached;
      if isRunning {
        var pr := runs[mainProcess.value].proc;
        isRunning := pr.Alive? || pr.Silent? || pr.Zombie?;
      }
    }

    /**
     * Refuses a running environment without touching anything; otherwise executes exactly the
     * lines of a start. A call whose Wait.Wait() would block does not return, hence the requires.
     */
    method ExecuteAsync(spawnOk: bool) returns (err: Option<ExecuteError>)
      requires Environment.IsRunning(View([])) || wait == 0
      modifies this
      ensures err == Some(ErrProcessRunning) <==> old(Environment.IsRunning(View([])))
      ensures err == Some(ErrProcessRunning) ==> View([]) == old(View([]))
      ensures err != Some(ErrProcessRunning) ==>
                && (err.None? <==> spawnOk)
                && Legal(Exclusive, old(View([Entering])), ExecuteLines(spawnOk))
                && View([Returned(spawnOk)]) == Exec(Exclusive, old(View([Entering])), ExecuteLines(spawnOk))
    {
      var running := IsRunning();
      if running {
        return Some(ErrProcessRunning);
      }
      ghost var before := View([Entering]);
      var pr := |runs|;
      wait := wait + 1;
      runs := runs + [Run(Unspawned, false, Unlaunched)];
      mainProcess := Some(pr);
      ExecuteRuns(before, spawnOk);
      if !spawnOk {
        runs := runs[pr := runs[pr].(proc := Failed)];
        return Some(ErrSpawn);
      }
      runs := runs[pr := runs[pr].(proc := Alive)];
      runs := runs[pr := runs[pr].(handler := Attaching)];
      return None;
    }

    /** The close handler of a run whose process has ended, up to the callback it makes. */
    method HandleClose(r: nat, ioErr: bool) returns (success: bool)
      requires mainProcess == Some(r) && r < |runs| && runs[r].handler.Attaching? && runs[r].proc.Zombie?
      modifies this
      ensures success == (old(runs[r].proc.ok) && !ioErr)
      ensures Legal(Exclusive, old(View([])), CloseLines(r, ioErr))
      ensures View([]) == Exec(Exclusive, old(View([])), CloseLines(r, ioErr))
      ensures mainProcess == None && wait == old(wait) - 1
      ensures r < |runs| && runs[r].handler == Calling(Resetting, success, false)
    {
      CloseRuns(View([]), r, ioErr);
      var target := mainProcess.value;
      var ok := runs[target].proc.ok;
      runs := runs[target := runs[target].(proc := Reaped(ok))];
      var err := !ok || ioErr;

      if mainProcess == None || !runs[mainProcess.value].proc.Reaped? || err {
        success := false;
      } else {
        success := runs[mainProcess.value].proc.ok;
      }

      if mainProcess != None && !runs[mainProcess.value].proc.Unspawned? && !runs[mainProcess.value].proc.Failed? {
        runs := runs[mainProcess.value := runs[mainProcess.value].(detached := true)];
      }
      mainProcess := None;
      wait := wait - 1;
      runs := runs[r := runs[r].(handler := Calling(Resetting, success, false))];
    }
  }
}
