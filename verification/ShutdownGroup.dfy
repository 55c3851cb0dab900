/** shutdown/shutdown.go: the wait group, raised once and lowered by one goroutine per program. */
module ShutdownGroup {
  import opened Common
  import S = Supervisor
  import SI = SupervisorInvariant
  import DT = ShutdownTheorems
  import StartService

  /** What launching the goroutines from i on does, line by line of the machine. */
  function Launches(i: nat, n: nat): seq<S.Action>
    requires i <= n
    decreases n - i
  {
    if i == n then [] else [S.StopLaunch(i)] + Launches(i + 1, n)
  }

  lemma LaunchNext(pol: S.Policy, s: S.System, i: nat)
    requires S.WellFormed(s) && i < |s.stoppers| && s.stoppers[i] == S.Unlaunched
    requires forall j :: 0 <= j < i ==> !s.stoppers[j].Unlaunched?
    ensures S.Enabled(pol, s, S.StopLaunch(i))
    ensures S.Step(s, S.StopLaunch(i)) == s.(stoppers := s.stoppers[i := S.Checking])
    ensures S.WellFormed(S.Step(s, S.StopLaunch(i)))
  {
    SI.StepWellFormed(s, S.StopLaunch(i));
  }

  /** The loop of Shutdown, seen from the machine: it launches every goroutine, in order. */
  lemma {:induction false} LoopLaunches(pol: S.Policy, s: S.System, i: nat)
    requires S.WellFormed(s) && i <= |s.stoppers|
    requires forall j :: 0 <= j < |s.stoppers| ==> s.stoppers[j] == if j < i then S.Checking else S.Unlaunched
    ensures S.Legal(pol, s, Launches(i, |s.stoppers|))
    ensures S.Exec(pol, s, Launches(i, |s.stoppers|)) == s.(stoppers := seq(|s.stoppers|, _ => S.Checking))
    decreases |s.stoppers| - i
  {
    hide S.Step, S.Possible, S.WellFormed;
    if i == |s.stoppers| {
      assert s.stoppers == seq(|s.stoppers|, _ => S.Checking);
    } else {
      LaunchNext(pol, s, i);
      var s' := S.Step(s, S.StopLaunch(i));
      LoopLaunches(pol, s', i + 1);
      S.First(pol, s, S.StopLaunch(i), Launches(i + 1, |s.stoppers|));
    }
  }

  class ShutdownGroup {
    var group: int
    var lines: seq<S.Stopper>

    constructor ()
      ensures Valid() && lines == []
    {
      group, lines := 0, [];
    }

    /** The counter of the wait group is the number of goroutines that have not ended. */
    predicate Valid()
      reads this
    {
      group == Sum(lines, DT.UnendedCount())
    }

    /**
     * Shuts the start service down, raises the group by the number of programs before any goroutine
     * exists, and launches one goroutine per program: the state the loop of the machine ends in.
     */
    method Shutdown(service: StartService.StartService, programs: nat)
      requires Valid() && lines == []
      modifies this, service
      ensures Valid() && group == programs
      ensures lines == seq(programs, _ => S.Checking)
      ensures !service.running && service.stopped && service.queue == old(service.queue)
    {
      service.ShutdownService();
      group := group + programs;
      for i := 0 to programs
        invariant group == programs && lines == seq(i, _ => S.Checking)
        invariant Sum(lines, DT.UnendedCount()) == i
        invariant !service.running && service.stopped && service.queue == old(service.queue)
      {
        SumAppend(lines, S.Checking, DT.UnendedCount());
        lines := lines + [S.Checking];
      }
    }

    /** A goroutine returns, with or without error, and its deferred Done lowers the group. */
    method End(i: nat, ok: bool)
      requires Valid() && i < |lines| && !lines[i].Ended?
      modifies this
      ensures Valid() && group == old(group) - 1 && lines == old(lines)[i := S.Ended(ok)]
    {
      SumUpdate(lines, i, S.Ended(ok), DT.UnendedCount());
      lines := lines[i := S.Ended(ok)];
      group := group - 1;
    }

    /** wg.Wait() gets through exactly when every goroutine has ended. */
    method Wait() returns (through: bool)
      requires Valid()
      ensures through <==> forall i :: 0 <= i < |lines| ==> lines[i].Ended?
    {
      SumDominates(lines, DT.UnendedCount());
      through := group == 0;
      if forall i :: 0 <= i < |lines| ==> lines[i].Ended? {
        SumOfZeros(lines, DT.UnendedCount());
      }
      forall i | through && 0 <= i < |lines| ensures lines[i].Ended? {
        assert DT.UnendedCount()(lines[i]) == 0;
      }
    }
  }
}
