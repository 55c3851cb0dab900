/**
 * The shutdown protocol: once ShutdownService has returned with no start under way and no tick that
 * finds a program, nothing is ever spawned again; the wait group counts the goroutines that have not
 * ended, and a goroutine that ended without error leaves no process of its program behind.
 */
module ShutdownTheorems {
  import opened Common
  import opened Supervisor
  import E = Environment
  import EI = EnvironmentInvariant
  import SI = SupervisorInvariant
  import ET = EnvironmentTheorems
  import ST = SupervisorTheorems

  /** No process of the environment is alive or unreaped. */
  predicate Dead(e: E.Env) {
    forall r :: 0 <= r < |e.runs| ==> !E.Live(e.runs[r].proc)
  }

  /** A tick has been delivered, and finds a program in the queue. */
  predicate TickFinds(v: Service) {
    v.queue != [] && (v.pending || v.processor.Ticked?)
  }

  /** ShutdownService has returned and no start is under way anywhere. */
  predicate Closed(s: System) {
    && !s.service.running && s.service.stopped
    && (forall at :: 0 <= at < |s.servers| ==> ST.Unstarted(s.servers[at].env))
  }

  /** And no tick will find a program. */
  predicate Quiet(s: System) {
    Closed(s) && !TickFinds(s.service)
  }

  /** Every environment object of program p is dead. */
  predicate Down(s: System, p: nat) {
    forall at :: 0 <= at < |s.servers| && s.servers[at].owner == p ==> Dead(s.servers[at].env)
  }

  /** What a goroutine of Shutdown knows about its program. */
  ghost predicate StopperOk(s: System, i: nat, line: Stopper)
    requires WellFormed(s) && i < |s.programs|
  {
    match line
    case Ended(ok) => ok ==> Down(s, i)
    case Waiting(at, w) =>
      && at < |s.servers| && s.servers[at].owner == i && w < |s.servers[at].env.waiters|
      && (at != s.programs[i].env || s.servers[at].env.waiters[w].Left? ==> Down(s, i))
    case _ => true
  }

  ghost predicate StopInv(s: System) {
    && WellFormed(s) && SI.EnvsOk(s) && SI.RetiredDead(s) && Quiet(s)
    && (forall i :: 0 <= i < |s.stoppers| ==> StopperOk(s, i, s.stoppers[i]))
    && (s.collected ==> |s.stoppers| == |s.programs|)
  }

  /** Steps that do not start a server from outside. */
  predicate Undisturbed(a: Action) {
    !a.Request?
  }

  // ---- One environment ----

  /** If IsRunning says no, there is no process. */
  lemma NotRunningDead(e: E.Env)
    requires EI.Inv(e) && !E.IsRunning(e)
    ensures Dead(e)
  {
    ET.InvTracked(e);
  }

  lemma ReleasedDead(e: E.Env)
    requires EI.Inv(e) && e.wait == 0
    ensures Dead(e)
  {
    EI.WaitMeaning(e);
    forall r | 0 <= r < |e.runs| ensures !E.Live(e.runs[r].proc) {
      assert EI.RunOk(e.kind, r, e.runs[r]);
    }
  }

  /** Without starts, an environment never gains a process, and waiters leave only when it is dead. */
  lemma UnstartedShrinks(e: E.Env, b: E.Action)
    requires ST.Unstarted(e) && E.Possible(e, b) && !b.Arrive?
    ensures ST.Unstarted(E.Step(e, b)) && !b.Spawn?
    ensures Dead(e) ==> Dead(E.Step(e, b))
    ensures |e.waiters| <= |E.Step(e, b).waiters|
    ensures forall w :: 0 <= w < |e.waiters| && e.waiters[w].Left? ==> E.Step(e, b).waiters[w].Left?
    ensures forall w :: 0 <= w < |e.waiters| && E.Step(e, b).waiters[w].Left? && !e.waiters[w].Left?
              ==> e.wait == 0 == E.Step(e, b).wait
  {
  }

  // ---- One step ----

  /** The service of a quiet daemon stays quiet. */
  lemma ServiceQuiet(s: System, a: Action)
    requires Quiet(s) && Possible(s, a)
    ensures var v := ServiceAfter(s, a); !v.running && v.stopped && !TickFinds(v)
    ensures EnvPart(s, a).Some? && EnvPart(s, a).value.1.Arrive? ==> a.Request?
  {
  }

  lemma StaysUnstarted(s: System, a: Action, at: nat)
    requires Quiet(s) && Possible(s, a) && Undisturbed(a) && at < |ServersAfter(s, a)|
    ensures ST.Unstarted(ServersAfter(s, a)[at].env)
    ensures a.Local? && a.at == at ==> !Attempts(a)
    ensures EnvPart(s, a).Some? ==> !EnvPart(s, a).value.1.Arrive?
  {
    ServiceQuiet(s, a);
    hide E.Step, E.Possible, TickFinds, ServiceAfter;
    if EnvPart(s, a).Some? {
      EnvPartPossible(s, a);
      UnstartedShrinks(s.servers[EnvPart(s, a).value.0].env, EnvPart(s, a).value.1);
    }
  }

  lemma QuietStays(s: System, a: Action)
    requires Quiet(s) && Possible(s, a) && Undisturbed(a)
    ensures Quiet(Step(s, a))
    ensures !Attempts(a)
    ensures EnvPart(s, a).Some? ==> !EnvPart(s, a).value.1.Arrive?
  {
    ServiceQuiet(s, a);
    SI.ServersGrow(s, a);
    hide ServersAfter, ServiceAfter, ProgramsAfter, StoppersAfter, GroupAfter, ST.Unstarted, TickFinds;
    forall at | 0 <= at < |Step(s, a).servers| ensures ST.Unstarted(Step(s, a).servers[at].env) {
      StaysUnstarted(s, a, at);
    }
    if EnvPart(s, a).Some? {
      EnvPartPossible(s, a);
      StaysUnstarted(s, a, EnvPart(s, a).value.0);
    }
  }

  /** Retired environment objects are dead, so a program is down as soon as its current one is. */
  lemma CurrentDeadDown(s: System, p: nat)
    requires WellFormed(s) && SI.RetiredDead(s) && p < |s.programs| && Dead(Current(s, p))
    ensures Down(s, p)
  {
    forall at | 0 <= at < |s.servers| && s.servers[at].owner == p ensures Dead(s.servers[at].env) {
      if at != s.programs[p].env { assert Reloadable(s.servers[at].env); }
    }
  }

  /** One environment object across a step: it stays dead, and only a dead one lets a waiter go. */
  lemma ServerShrinks(s: System, a: Action, at: nat)
    requires StopInv(s) && Enabled(ST.Disciplined(), s, a) && Undisturbed(a) && at < |s.servers|
    ensures at < |ServersAfter(s, a)|
    ensures var e, e' := s.servers[at].env, ServersAfter(s, a)[at].env;
            && ServersAfter(s, a)[at].owner == s.servers[at].owner && |e.waiters| <= |e'.waiters|
            && (Dead(e) ==> Dead(e'))
            && (forall w :: 0 <= w < |e.waiters| && e.waiters[w].Left? ==> e'.waiters[w].Left?)
            && (forall w :: 0 <= w < |e.waiters| && e'.waiters[w].Left? && !e.waiters[w].Left? ==> Dead(e'))
  {
    SI.ServersGrow(s, a);
    QuietStays(s, a);
    SI.EnvsKept(ST.Disciplined(), s, a);
    hide EI.Inv, SI.RetiredDead, Quiet, E.Step, StopperOk;
    var e, e' := s.servers[at].env, ServersAfter(s, a)[at].env;
    if !a.Reload? && EnvPart(s, a).Some? && EnvPart(s, a).value.0 == at {
      EnvPartPossible(s, a);
      assert ST.Unstarted(e) by { QuietAt(s, at); }
      UnstartedShrinks(e, EnvPart(s, a).value.1);
      if e'.wait == 0 { ReleasedDead(e'); }
    }
  }

  lemma QuietAt(s: System, at: nat)
    requires Quiet(s) && at < |s.servers|
    ensures ST.Unstarted(s.servers[at].env)
  {
  }

  /** Whatever a step does, a program that is down stays down. */
  lemma DownStays(s: System, a: Action, p: nat)
    requires StopInv(s) && Enabled(ST.Disciplined(), s, a) && Undisturbed(a) && Down(s, p)
    ensures Down(Step(s, a), p)
  {
    SI.ServersGrow(s, a);
    forall at | 0 <= at < |ServersAfter(s, a)| && ServersAfter(s, a)[at].owner == p
      ensures Dead(ServersAfter(s, a)[at].env)
    {
      if at < |s.servers| {
        ServerShrinks(s, a, at);
      } else {
        SI.ReloadedServer(s, a);
      }
    }
  }

  /** The parts of the invariant that do not speak of the shutdown goroutines. */
  lemma ServiceKept(s: System, a: Action)
    requires StopInv(s) && Enabled(ST.Disciplined(), s, a) && Undisturbed(a)
    ensures var s' := Step(s, a);
            WellFormed(s') && SI.EnvsOk(s') && SI.RetiredDead(s') && Quiet(s')
    ensures |s.servers| <= |Step(s, a).servers| && |Step(s, a).programs| == |s.programs|
  {
    hide EI.Inv, StopperOk, E.Step, Quiet;
    SI.StepWellFormed(s, a);
    SI.ServersGrow(s, a);
    SI.ProgramsKept(s, a);
    SI.EnvsKept(ST.Disciplined(), s, a);
    SI.RetiredKept(ST.Disciplined(), s, a);
    QuietStays(s, a);
  }

  /** A goroutine that does not move keeps what it knows. */
  lemma StopperStays(s: System, a: Action, i: nat, line: Stopper)
    requires StopInv(s) && Enabled(ST.Disciplined(), s, a) && Undisturbed(a)
    requires i < |s.programs| && StopperOk(s, i, line)
    ensures WellFormed(Step(s, a)) && i < |Step(s, a).programs| && StopperOk(Step(s, a), i, line)
  {
    ServiceKept(s, a);
    var s' := Step(s, a);
    if Down(s, i) { DownStays(s, a, i); }
    if line.Waiting? {
      var at, w := line.at, line.w;
      ServerShrinks(s, a, at);
      SI.ProgramsKept(s, a);
      hide EI.Inv, SI.RetiredDead, SI.EnvsOk, Quiet, E.Step, ServersAfter, ProgramsAfter, ServiceAfter, Possible;
      if at == s.programs[i].env && !s.servers[at].env.waiters[w].Left? {
        if a.Reload? && a.p == i {
          CurrentDeadDown(s, i);
          DownStays(s, a, i);
        } else if s'.servers[at].env.waiters[w].Left? {
          CurrentDeadDown(s', i);
        }
      }
    }
  }

  /** A goroutine ends without error only when its program is down. */
  lemma EndsDown(s: System, a: Action)
    requires StopInv(s) && Possible(s, a) && StopperMoves(a) && StopperTo(s, a) == Ended(true)
    ensures Down(s, a.i)
  {
    hide EI.Inv, Quiet, E.IsRunning;
    assert StopperOk(s, a.i, s.stoppers[a.i]);
    if !a.StopLeave? {
      assert !E.IsRunning(Current(s, a.i));
      NotRunningDead(Current(s, a.i));
      CurrentDeadDown(s, a.i);
    }
  }

  /** A goroutine that enters the wait has just added its own, still watching, waiter. */
  lemma JoinsWatching(s: System, a: Action)
    requires Possible(s, a) && a.StopJoin? && StopperTo(s, a).Waiting?
    ensures WellFormed(Step(s, a)) && a.i < |Step(s, a).programs| && StopperOk(Step(s, a), a.i, StopperTo(s, a))
  {
    SI.StepWellFormed(s, a);
    SI.ProgramsKept(s, a);
    assert EnvPart(s, a) == Some((s.programs[a.i].env, E.Watch));
    hide ProgramsAfter, ServiceAfter;
  }

  lemma StopperMoved(s: System, a: Action)
    requires StopInv(s) && Enabled(ST.Disciplined(), s, a) && StopperMoves(a)
    ensures WellFormed(Step(s, a)) && a.i < |Step(s, a).programs| && StopperOk(Step(s, a), a.i, StopperTo(s, a))
  {
    ServiceKept(s, a);
    if StopperTo(s, a) == Ended(true) {
      EndsDown(s, a);
      hide StopInv, Step, ServersAfter, ProgramsAfter, StopperTo;
      DownStays(s, a, a.i);
    } else if StopperTo(s, a).Waiting? {
      JoinsWatching(s, a);
    }
  }

  lemma StopInvKept(s: System, a: Action)
    requires StopInv(s) && Enabled(ST.Disciplined(), s, a) && Undisturbed(a)
    ensures StopInv(Step(s, a))
  {
    hide EI.Inv, Quiet, E.Step, ServersAfter, ProgramsAfter, ServiceAfter, SI.EnvsOk, SI.RetiredDead;
    ServiceKept(s, a);
    var s' := Step(s, a);
    forall i | 0 <= i < |s'.stoppers| ensures StopperOk(s', i, s'.stoppers[i]) {
      if a.Collect? {
      } else if StopperMoves(a) && a.i == i {
        StopperMoved(s, a);
      } else {
        StopperStays(s, a, i, s.stoppers[i]);
      }
    }
  }

  // ---- Whole runs ----

  /** From a quiet state on nothing is spawned, whatever the disciplines. */
  lemma {:induction false} QuietRun(pol: Policy, s: System, acts: seq<Action>)
    requires Quiet(s) && Legal(pol, s, acts)
    requires forall i :: 0 <= i < |acts| ==> Undisturbed(acts[i])
    ensures forall i :: 0 <= i < |acts| ==> !Attempts(acts[i])
    decreases acts
  {
    hide Quiet, Step, Possible;
    if acts != [] {
      QuietStays(s, acts[0]);
      assert forall i :: 0 <= i < |acts[1..]| ==> acts[1..][i] == acts[i + 1];
      QuietRun(pol, Step(s, acts[0]), acts[1..]);
      forall i | 0 <= i < |acts| ensures !Attempts(acts[i]) {
        if i > 0 { assert acts[i] == acts[1..][i - 1]; }
      }
    }
  }

  lemma {:induction false} ShutdownRun(s: System, acts: seq<Action>)
    requires StopInv(s) && Legal(ST.Disciplined(), s, acts)
    requires forall i :: 0 <= i < |acts| ==> Undisturbed(acts[i])
    ensures StopInv(Exec(ST.Disciplined(), s, acts))
    decreases acts
  {
    hide StopInv, Step, Possible;
    if acts != [] {
      StopInvKept(s, acts[0]);
      assert forall i :: 0 <= i < |acts[1..]| ==> acts[1..][i] == acts[i + 1];
      ShutdownRun(Step(s, acts[0]), acts[1..]);
    }
  }

  /** A goroutine of Shutdown that has not run its deferred Done. */
  function UnendedCount(): Stopper -> nat {
    (line: Stopper) => if line.Ended? then 0 else 1
  }

  lemma GroupStep(s: System, a: Action)
    requires Possible(s, a) && s.group == Sum(s.stoppers, UnendedCount())
    ensures Step(s, a).group == Sum(Step(s, a).stoppers, UnendedCount())
  {
    hide WellFormed;
    if a.Collect? {
      AllUnlaunched(StoppersAfter(s, a));
    } else if StopperMoves(a) {
      SumUpdate(s.stoppers, a.i, StopperTo(s, a), UnendedCount());
    }
  }

  lemma {:induction false} AllUnlaunched(lines: seq<Stopper>)
    requires forall i :: 0 <= i < |lines| ==> lines[i] == Unlaunched
    ensures Sum(lines, UnendedCount()) == |lines|
  {
    if lines != [] { AllUnlaunched(lines[1..]); }
  }

  /** The wait group of Shutdown always counts exactly its goroutines that have not ended. */
  lemma {:induction false} GroupCounts(pol: Policy, s: System, acts: seq<Action>)
    requires Legal(pol, s, acts) && s.group == Sum(s.stoppers, UnendedCount())
    ensures Exec(pol, s, acts).group == Sum(Exec(pol, s, acts).stoppers, UnendedCount())
    decreases acts
  {
    hide Step, Possible;
    if acts != [] {
      GroupStep(s, acts[0]);
      GroupCounts(pol, Step(s, acts[0]), acts[1..]);
    }
  }

  /** The state in which ShutdownService returns: quiet, and Shutdown's loop has not begun. */
  ghost predicate ShutDown(s: System) {
    Reachable(ST.Disciplined(), s) && Quiet(s) && !s.collected && s.stoppers == [] && s.group == 0
  }

  lemma ShutDownInv(s: System)
    requires ShutDown(s)
    ensures StopInv(s)
  {
    SI.ReachableEnvs(ST.Disciplined(), s);
    SI.ReachableRetired(ST.Disciplined(), s);
  }

  /**
   * Shutdown is not undone: from there, in every run without direct starts, no server is
   * spawned again, by auto-restart or otherwise; and whenever a goroutine of Shutdown has ended
   * without error, no process of its program is left in any environment it ever had.
   */
  lemma ShutdownNotUndone(s: System, acts: seq<Action>)
    requires ShutDown(s) && Legal(ST.Disciplined(), s, acts)
    requires forall i :: 0 <= i < |acts| ==> Undisturbed(acts[i])
    ensures forall i :: 0 <= i < |acts| ==> !Attempts(acts[i])
    ensures var t := Exec(ST.Disciplined(), s, acts);
            forall i :: 0 <= i < |t.stoppers| && t.stoppers[i] == Ended(true) ==> Down(t, i)
  {
    hide Legal, Exec, Reachable;
    ShutDownInv(s);
    QuietRun(ST.Disciplined(), s, acts);
    ShutdownRun(s, acts);
    var t := Exec(ST.Disciplined(), s, acts);
    forall i | 0 <= i < |t.stoppers| && t.stoppers[i] == Ended(true) ensures Down(t, i) {
      assert StopperOk(t, i, t.stoppers[i]);
    }
  }

  /** Shutdown looks at the registry only when no start can be queued any more, and stays with what it saw. */
  lemma {:induction false} CollectedAfterShutdown(pol: Policy, s: System, acts: seq<Action>)
    requires Legal(pol, s, acts) && (s.collected ==> !s.service.running)
    ensures Exec(pol, s, acts).collected ==> !Exec(pol, s, acts).service.running
    ensures s.collected ==>
              Exec(pol, s, acts).collected && |Exec(pol, s, acts).stoppers| == |s.stoppers|
    decreases acts
  {
    if acts != [] {
      CollectStep(s, acts[0]);
      hide Step, Possible;
      CollectedAfterShutdown(pol, Step(s, acts[0]), acts[1..]);
    }
  }

  lemma CollectStep(s: System, a: Action)
    requires Possible(s, a) && (s.collected ==> !s.service.running)
    ensures Step(s, a).collected ==> !Step(s, a).service.running
    ensures s.collected ==> Step(s, a).collected && |Step(s, a).stoppers| == |s.stoppers|
  {
    hide ServersAfter, ProgramsAfter;
  }

  /** The loop of Shutdown launches its goroutines in the order of the registry. */
  predicate LaunchedInOrder(lines: seq<Stopper>) {
    forall i, j :: 0 <= i < j < |lines| && lines[i].Unlaunched? ==> lines[j].Unlaunched?
  }

  lemma {:induction false} LaunchOrder(pol: Policy, s: System, acts: seq<Action>)
    requires Legal(pol, s, acts) && LaunchedInOrder(s.stoppers)
    ensures LaunchedInOrder(Exec(pol, s, acts).stoppers)
    decreases acts
  {
    if acts != [] {
      LaunchStep(s, acts[0]);
      hide Step, Possible, LaunchedInOrder;
      LaunchOrder(pol, Step(s, acts[0]), acts[1..]);
    }
  }

  lemma LaunchStep(s: System, a: Action)
    requires Possible(s, a) && LaunchedInOrder(s.stoppers)
    ensures LaunchedInOrder(Step(s, a).stoppers)
  {
    hide ServersAfter, ProgramsAfter, ServiceAfter;
  }

  // ---- Stop errors ----

  /** In this run, Stop returned an error to goroutine i while its program was running. */
  ghost predicate StopFailed(pol: Policy, s: System, acts: seq<Action>, i: nat)
    requires Legal(pol, s, acts)
    decreases acts
  {
    && acts != []
    && ((acts[0] == StopSend(i, false) && E.IsRunning(Current(s, i)))
        || StopFailed(pol, Step(s, acts[0]), acts[1..], i))
  }

  /** Goroutine i has given up. */
  predicate GaveUp(s: System, i: nat) {
    i < |s.stoppers| && s.stoppers[i] == Ended(false)
  }

  lemma GivesUpIff(s: System, a: Action, i: nat)
    requires Possible(s, a) && (!s.collected ==> s.stoppers == [])
    ensures GaveUp(Step(s, a), i) <==> GaveUp(s, i) || (a == StopSend(i, false) && E.IsRunning(Current(s, i)))
    ensures !Step(s, a).collected ==> Step(s, a).stoppers == []
  {
    hide ServersAfter, ProgramsAfter, ServiceAfter;
  }

  /** A goroutine of Shutdown gives up if and only if Stop returned an error while its program was running. */
  lemma {:induction false} GaveUpIff(pol: Policy, s: System, acts: seq<Action>, i: nat)
    requires Legal(pol, s, acts) && (!s.collected ==> s.stoppers == [])
    ensures GaveUp(Exec(pol, s, acts), i) <==> GaveUp(s, i) || StopFailed(pol, s, acts, i)
    decreases acts
  {
    hide Step, Possible, GaveUp, E.IsRunning, Current;
    if acts != [] {
      GivesUpIff(s, acts[0], i);
      GaveUpIff(pol, Step(s, acts[0]), acts[1..], i);
    }
  }

  /** Without stop errors, nobody gives up. */
  lemma {:induction false} NoStopFailed(pol: Policy, s: System, acts: seq<Action>, i: nat)
    requires Legal(pol, s, acts) && forall j, k: nat :: 0 <= j < |acts| ==> acts[j] != StopSend(k, false)
    ensures !StopFailed(pol, s, acts, i)
    decreases acts
  {
    hide Step, Possible;
    if acts != [] {
      assert forall j :: 0 <= j < |acts[1..]| ==> acts[1..][j] == acts[j + 1];
      NoStopFailed(pol, Step(s, acts[0]), acts[1..], i);
    }
  }

  /** What a goroutine does next: only an ended server lets it end, or an error of Stop. */
  lemma StopperLines(s: System, a: Action)
    requires Possible(s, a) && StopperMoves(a)
    ensures a.i < |Step(s, a).stoppers|
    ensures var line, running := Step(s, a).stoppers[a.i], E.IsRunning(Current(s, a.i));
            && (a.StopLaunch? ==> line == Checking)
            && (a.StopCheck? ==> line == if running then Stopping else Ended(true))
            && (a.StopSend? ==> line == if running && !a.ok then Ended(false) else Joining)
            && (a.StopJoin? && running ==> line == Waiting(s.programs[a.i].env, |Current(s, a.i).waiters|))
            && (a.StopJoin? && !running ==> line == Ended(true))
            && (a.StopLeave? ==> line == Ended(true))
  {
    hide ServersAfter, ProgramsAfter, ServiceAfter, GroupAfter;
  }

  /** When CompleteShutdown's wait returns on a run on which no Stop failed, every server has ended. */
  lemma AllServersStopped(s: System, acts: seq<Action>)
    requires ShutDown(s) && Legal(ST.Disciplined(), s, acts)
    requires forall i :: 0 <= i < |acts| ==> Undisturbed(acts[i])
    requires forall i, k: nat :: 0 <= i < |acts| ==> acts[i] != StopSend(k, false)
    requires var t := Exec(ST.Disciplined(), s, acts); t.collected && t.group == 0
    ensures var t := Exec(ST.Disciplined(), s, acts);
            forall at :: 0 <= at < |t.servers| ==> Dead(t.servers[at].env)
  {
    hide Legal, Exec, Reachable;
    var t := Exec(ST.Disciplined(), s, acts);
    ShutDownInv(s);
    ShutdownRun(s, acts);
    ShutdownNotUndone(s, acts);
    GroupCounts(ST.Disciplined(), s, acts);
    SumDominates(t.stoppers, UnendedCount());
    forall at | 0 <= at < |t.servers| ensures Dead(t.servers[at].env) {
      var p := t.servers[at].owner;
      assert UnendedCount()(t.stoppers[p]) == 0;
      NoStopFailed(ST.Disciplined(), s, acts, p);
      GaveUpIff(ST.Disciplined(), s, acts, p);
      assert Down(t, p);
    }
  }
}
