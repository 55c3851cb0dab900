/** What the daemon guarantees over whole runs: processes, queue and crash counters. */
module SupervisorTheorems {
  import opened Common
  import opened Restart
  import opened Supervisor
  import E = Environment
  import EI = EnvironmentInvariant
  import ET = EnvironmentTheorems
  import SI = SupervisorInvariant
  import SR = SupervisorRuns

  // ---- One process per program ----

  predicate LiveRun(s: System, at: nat, r: nat) {
    at < |s.servers| && r < |s.servers[at].env.runs| && E.Live(s.servers[at].env.runs[r].proc)
  }

  /** A program never has two live main processes, in one environment object or across several. */
  ghost predicate OnePerProgram(s: System) {
    forall at: nat, r: nat, at': nat, r': nat ::
      LiveRun(s, at, r) && LiveRun(s, at', r') && s.servers[at].owner == s.servers[at'].owner
      ==> at == at' && r == r'
  }

  /** Both named disciplines. */
  function Disciplined(): Policy {
    Policy(E.Exclusive, true)
  }

  lemma ReachableOnePerProgram(s: System)
    requires Reachable(Disciplined(), s)
    ensures OnePerProgram(s)
  {
    SI.ReachableEnvs(Disciplined(), s);
    SI.ReachableRetired(Disciplined(), s);
    hide Reachable, EI.Inv;
    forall at: nat, r: nat, at': nat, r': nat
      | LiveRun(s, at, r) && LiveRun(s, at', r') && s.servers[at].owner == s.servers[at'].owner
      ensures at == at' && r == r'
    {
      ET.InvTracked(s.servers[at].env);
      ET.TrackedOneLive(s.servers[at].env);
    }
  }

  /** A reload, a direct start, and the lines of that start in the new environment object. */
  function FreshStart(s: System, p: nat): seq<Action> {
    [Reload(p, E.Tty, Config(true, false, false))] + ([Request(p)] + SR.Locals(|s.servers|, SR.StartLines(true)))
  }

  lemma FreshRequest(s: System, p: nat)
    requires WellFormed(s) && p < |s.programs|
    ensures Possible(s, Reload(p, E.Tty, Config(true, false, false)))
    ensures var s1 := Step(s, Reload(p, E.Tty, Config(true, false, false)));
            && Possible(s1, Request(p))
            && Step(s1, Request(p)).servers == s.servers + [Server(p, E.Fresh(E.Tty).(starters := [E.Requested]))]
            && Step(s1, Request(p)).programs[p].env == |s.servers| && |Step(s1, Request(p)).programs| == |s.programs|
            && WellFormed(Step(s1, Request(p)))
            && Owner(Step(s1, Request(p)), |s.servers|).config.enabled
  {
    var a := Reload(p, E.Tty, Config(true, false, false));
    ReloadedFresh(s, a);
    hide Step, Reloadable;
    RequestArrives(Step(s, a), p);
    assert E.Fresh(E.Tty).starters + [E.Requested] == [E.Requested];
  }

  lemma RequestArrives(s: System, p: nat)
    requires WellFormed(s) && p < |s.programs|
    ensures Possible(s, Request(p)) && WellFormed(Step(s, Request(p)))
    ensures var at, e := s.programs[p].env, Current(s, p);
            && Step(s, Request(p)).servers == s.servers[at := Server(p, e.(starters := e.starters + [E.Requested]))]
            && Step(s, Request(p)).programs == s.programs
  {
    SI.StepWellFormed(s, Request(p));
    hide WellFormed;
    assert EnvPart(s, Request(p)) == Some((s.programs[p].env, E.Arrive(false)));
  }

  /** A program that can be reloaded can be started in the new environment object. */
  lemma FreshStarts(pol: Policy, s: System, p: nat)
    requires pol.starts.Exclusive? && WellFormed(s) && p < |s.programs| && Reloadable(Current(s, p))
    ensures Legal(pol, s, FreshStart(s, p))
    ensures var t := Exec(pol, s, FreshStart(s, p));
            && t.servers == s.servers + [Server(p, SR.FirstStarted(true))]
            && |t.programs| == |s.programs| && t.programs[p].env == |s.servers|
  {
    FreshRequest(s, p);
    hide Step, Possible, Legal, Exec, WellFormed, Reloadable;
    var a := Reload(p, E.Tty, Config(true, false, false));
    var s1 := Step(s, a);
    var s2 := Step(s1, Request(p));
    SR.StartComesUp(pol, s2, |s.servers|, true);
    First(pol, s1, Request(p), SR.Locals(|s.servers|, SR.StartLines(true)));
    First(pol, s, a, [Request(p)] + SR.Locals(|s.servers|, SR.StartLines(true)));
  }

  lemma ReloadedFresh(s: System, a: Action)
    requires Possible(s, a) && a.Reload?
    ensures WellFormed(Step(s, a)) && Reloadable(Current(Step(s, a), a.p))
    ensures Step(s, a).servers == s.servers + [Server(a.p, E.Fresh(a.kind))]
    ensures |Step(s, a).programs| == |s.programs|
    ensures Step(s, a).programs[a.p] == s.programs[a.p].(env := |s.servers|, config := a.config)
  {
    SI.StepWellFormed(s, a);
    SI.ReloadedServer(s, a);
  }

  /** A reload swaps the environment object; the process of the old one is forgotten, not stopped. */
  lemma ReloadDoubles(s: System, a: Action)
    requires Possible(s, a) && a.Reload? && E.IsRunning(Current(s, a.p))
    ensures exists t :: LeadsTo(Disciplined(), Step(s, a), t) && !OnePerProgram(t)
  {
    var s1, prior, e := Step(s, a), s.programs[a.p].env, Current(s, a.p);
    ReloadedFresh(s, a);
    hide Step, Possible, Reloadable;
    FreshStarts(Disciplined(), s1, a.p);
    var t := Exec(Disciplined(), s1, FreshStart(s1, a.p));
    assert LiveRun(t, prior, e.handle.value) && LiveRun(t, |s1.servers|, 0);
    assert LeadsTo(Disciplined(), s1, t);
  }

  /** Nobody is starting in the environment. */
  predicate Unstarted(e: E.Env) {
    forall k :: 0 <= k < |e.starters| ==> e.starters[k].Returned?
  }

  /** If IsRunning says no and nobody is starting, there is no process. */
  lemma NotRunningReloadable(e: E.Env)
    requires EI.Inv(e) && Unstarted(e)
    ensures !E.IsRunning(e) <==> Reloadable(e)
  {
    ET.InvTracked(e);
  }

  /**
   * A reload is safe exactly when the program is not running. Under both disciplines so far and
   * with no start of the program under way: every continuation keeps one process per program if and
   * only if IsRunning said no at the reload.
   */
  lemma ReloadSafeIff(s: System, a: Action)
    requires Reachable(Disciplined(), s) && Possible(s, a) && a.Reload? && Unstarted(Current(s, a.p))
    ensures (forall t :: LeadsTo(Disciplined(), Step(s, a), t) ==> OnePerProgram(t)) <==> !E.IsRunning(Current(s, a.p))
  {
    SI.ReachableEnvs(Disciplined(), s);
    hide Reachable, Step, OnePerProgram, LeadsTo, EI.Inv;
    NotRunningReloadable(Current(s, a.p));
    if E.IsRunning(Current(s, a.p)) {
      ReloadDoubles(s, a);
    } else {
      ReachableStep(Disciplined(), s, a);
      forall t | LeadsTo(Disciplined(), Step(s, a), t) ensures OnePerProgram(t) {
        ReachableLeads(Disciplined(), Step(s, a), t);
        ReachableOnePerProgram(t);
      }
    }
  }

  /** A daemon with one tty program that has never been started. */
  function Lone(v: Service): System {
    System(0, [Program(0, 0, Config(true, false, false))], [Server(0, E.Fresh(E.Tty))], v, false, [], 0)
  }

  function NewService(): Service {
    Service([], true, false, false, Idle)
  }

  lemma LoneReachable(pol: Policy)
    ensures Reachable(pol, Lone(NewService())) && WellFormed(Lone(NewService()))
  {
    assert Initial(Lone(NewService())) && Legal(pol, Lone(NewService()), []);
  }

  /** Such a reload of a running program occurs. */
  lemma ReloadWhileRunning() returns (s: System, t: System)
    ensures Reachable(Disciplined(), s) && |s.programs| == 1 && WellFormed(s) && E.IsRunning(Current(s, 0))
    ensures Possible(s, Reload(0, E.Tty, Config(true, false, false)))
    ensures LeadsTo(Disciplined(), Step(s, Reload(0, E.Tty, Config(true, false, false))), t) && !OnePerProgram(t)
  {
    var s0, a := Lone(NewService()), Reload(0, E.Tty, Config(true, false, false));
    LoneReachable(Disciplined());
    FreshStarts(Disciplined(), s0, 0);
    hide Reachable, LeadsTo, OnePerProgram, Step, Legal, Exec;
    ReachableRun(Disciplined(), s0, FreshStart(s0, 0));
    s := Exec(Disciplined(), s0, FreshStart(s0, 0));
    SI.ReachableWellFormed(Disciplined(), s);
    ReloadDoubles(s, a);
    t :| LeadsTo(Disciplined(), Step(s, a), t) && !OnePerProgram(t);
  }

  // ---- The start queue ----

  /** The programs a step hands to StartViaService while the service accepts them. */
  ghost function Accepts(s: System, a: Action): seq<nat>
    requires Possible(s, a)
  {
    if !s.service.running then []
    else if a.Enqueue? then [a.p]
    else if a.Requeue? then [s.servers[a.at].owner]
    else []
  }

  /** The program whose start the processor begins in this step: the owner of the environment it enters. */
  ghost function Begins(s: System, a: Action): seq<nat>
    requires Possible(s, a)
  {
    if a.Pop? && a.hit then
      SI.StepWellFormed(s, a);
      [Step(s, a).servers[Step(s, a).service.processor.at].owner]
    else []
  }

  ghost function Accepted(pol: Policy, s: System, acts: seq<Action>): seq<nat>
    requires Legal(pol, s, acts)
    decreases acts
  {
    if acts == [] then [] else Accepts(s, acts[0]) + Accepted(pol, Step(s, acts[0]), acts[1..])
  }

  ghost function Begun(pol: Policy, s: System, acts: seq<Action>): seq<nat>
    requires Legal(pol, s, acts)
    decreases acts
  {
    if acts == [] then [] else Begins(s, acts[0]) + Begun(pol, Step(s, acts[0]), acts[1..])
  }

  /** The processor enters the environment of the program at the front of the queue. */
  lemma PopBegins(s: System, hit: bool)
    requires Possible(s, Pop(hit)) && hit
    ensures Begins(s, Pop(hit)) == [s.service.queue[0]] && ServiceAfter(s, Pop(hit)).queue == s.service.queue[1..]
  {
    SI.ServersGrow(s, Pop(hit));
  }

  lemma QueueStep(s: System, a: Action)
    requires Possible(s, a)
    ensures s.service.queue + Accepts(s, a) == Begins(s, a) + Step(s, a).service.queue
  {
    hide ServersAfter, ProgramsAfter, StoppersAfter, GroupAfter;
    if a.Pop? && a.hit {
      PopBegins(s, a.hit);
    } else {
      assert Begins(s, a) == [];
    }
  }

  /** Conservation, in FIFO order: what was queued and accepted is what was begun and is still queued. */
  lemma {:induction false} QueueConserved(pol: Policy, s: System, acts: seq<Action>)
    requires Legal(pol, s, acts)
    ensures s.service.queue + Accepted(pol, s, acts) == Begun(pol, s, acts) + Exec(pol, s, acts).service.queue
    decreases acts
  {
    if acts != [] {
      var s' := Step(s, acts[0]);
      QueueStep(s, acts[0]);
      QueueConserved(pol, s', acts[1..]);
      Regroup(s.service.queue, Accepts(s, acts[0]), Accepted(pol, s', acts[1..]),
              Begins(s, acts[0]), s'.service.queue, Begun(pol, s', acts[1..]), Exec(pol, s', acts[1..]).service.queue);
    }
  }

  /** After ShutdownService nothing is accepted any more, and that stays so. */
  lemma {:induction false} NothingAcceptedAfterShutdown(pol: Policy, s: System, acts: seq<Action>)
    requires Legal(pol, s, acts) && !s.service.running
    ensures Accepted(pol, s, acts) == [] && !Exec(pol, s, acts).service.running
    decreases acts
  {
    if acts != [] {
      NothingAcceptedAfterShutdown(pol, Step(s, acts[0]), acts[1..]);
    }
  }

  // ---- The crash counter ----

  datatype Event = GracefulExit | CrashRestarted

  /** How many crash restarts were requested since the last graceful exit. */
  function SinceGraceful(events: seq<Event>): nat {
    if events == [] || events[|events| - 1].GracefulExit? then 0
    else 1 + SinceGraceful(events[..|events| - 1])
  }

  /** What a step means for program p: a graceful callback begins, or a crash restart is requested. */
  ghost function EventsOf(s: System, a: Action, p: nat): seq<Event>
    requires Possible(s, a)
  {
    if a.Reset? && a.graceful && s.servers[a.at].owner == p then [GracefulExit]
    else if a.Decide? && s.servers[a.at].owner == p && CallbackTo(s, a).Calling?
            && CallbackTo(s, a).line.Requeueing? && !CallbackTo(s, a).graceful then [CrashRestarted]
    else []
  }

  ghost function History(pol: Policy, s: System, acts: seq<Action>, p: nat): seq<Event>
    requires Legal(pol, s, acts)
    decreases acts
  {
    if acts == [] then [] else EventsOf(s, acts[0], p) + History(pol, Step(s, acts[0]), acts[1..], p)
  }

  /** What a step means for the counter of p, event by event. */
  lemma CounterStep(s: System, a: Action, p: nat)
    requires Possible(s, a) && p < |s.programs|
    ensures p < |ProgramsAfter(s, a)|
    ensures var c, c', now := s.programs[p].crashes, ProgramsAfter(s, a)[p].crashes, EventsOf(s, a, p);
            || (now == [] && c' == c)
            || (now == [GracefulExit] && c' == 0)
            || (now == [CrashRestarted] && c' == c + 1 && c < s.limit)
  {
  }

  lemma CrashStep(s: System, a: Action, p: nat, past: seq<Event>)
    requires Possible(s, a) && p < |s.programs| && s.programs[p].crashes == SinceGraceful(past)
    ensures p < |Step(s, a).programs| && Step(s, a).programs[p].crashes == SinceGraceful(past + EventsOf(s, a, p))
    ensures Step(s, a).limit == s.limit
    ensures s.programs[p].crashes <= Max(0, s.limit) ==> Step(s, a).programs[p].crashes <= Max(0, s.limit)
  {
    hide ProgramsAfter, EventsOf, ServersAfter, ServiceAfter, StoppersAfter, GroupAfter, Possible;
    CounterStep(s, a, p);
    var now := EventsOf(s, a, p);
    if now == [] {
      assert past + now == past;
    } else {
      assert (past + now)[..|past + now| - 1] == past;
    }
  }

  /**
   * On every run CrashCounter is the number of crash-restart requests since the last graceful
   * exit, never exceeds max(0, limit), and no reload, stop, failed post-execution or start resets it.
   */
  lemma {:induction false} CrashCounterCounts(pol: Policy, s: System, acts: seq<Action>, p: nat, past: seq<Event>)
    requires Legal(pol, s, acts) && p < |s.programs|
    requires s.programs[p].crashes == SinceGraceful(past) <= Max(0, s.limit)
    ensures p < |Exec(pol, s, acts).programs|
    ensures Exec(pol, s, acts).programs[p].crashes == SinceGraceful(past + History(pol, s, acts, p)) <= Max(0, s.limit)
    decreases acts
  {
    hide Step, Possible, EventsOf, SinceGraceful;
    if acts == [] {
      assert past + History(pol, s, acts, p) == past;
    } else {
      var now := EventsOf(s, acts[0], p);
      CrashStep(s, acts[0], p, past);
      CrashCounterCounts(pol, Step(s, acts[0]), acts[1..], p, past + now);
      assert past + now + History(pol, Step(s, acts[0]), acts[1..], p) == past + History(pol, s, acts, p);
    }
  }

  // ---- The restart decision ----

  /** What the line of the decision does, for the configuration and the counter it finds. */
  lemma DecisionMeaning(s: System, at: nat, r: nat)
    requires Possible(s, Decide(at, r))
    ensures var o, h := Owner(s, at), s.servers[at].env.runs[r].handler;
            var crashed := !h.graceful && o.config.onCrash && o.crashes < s.limit;
            && at < |Step(s, Decide(at, r)).servers| && r < |Step(s, Decide(at, r)).servers[at].env.runs|
            && Step(s, Decide(at, r)).servers[at].env.runs[r].handler
               == (if (h.graceful && o.config.onGraceful) || crashed then E.Calling(E.Requeueing, h.graceful, h.again)
                   else if h.again then E.Releasing(false) else E.Finished)
            && s.servers[at].owner < |Step(s, Decide(at, r)).programs|
            && Step(s, Decide(at, r)).programs[s.servers[at].owner].crashes
               == (if crashed then o.crashes + 1 else o.crashes)
  {
    var a := Decide(at, r);
    SI.StepWellFormed(s, a);
    hide ServiceAfter, StoppersAfter, GroupAfter;
    assert EnvPart(s, a) == Some((at, E.Advance(r, CallbackTo(s, a))));
  }

  /** The program restarts by itself after an exit of this kind. */
  predicate Restarts(c: Config, graceful: bool) {
    if graceful then c.onGraceful else c.onCrash
  }

  /** No callback of program p that was told `graceful` is about to push it. */
  ghost predicate Unpushed(s: System, p: nat, graceful: bool) {
    && p < |s.programs| && !Restarts(s.programs[p].config, graceful)
    && forall at: nat, r: nat :: at < |s.servers| && s.servers[at].owner == p && r < |s.servers[at].env.runs|
         ==> !Pushing(s.servers[at].env.runs[r].handler, graceful)
  }

  predicate Pushing(h: E.Handler, graceful: bool) {
    h.Calling? && h.line.Requeueing? && h.graceful == graceful
  }

  /** Only the decision makes a handler push. */
  lemma PushingEnv(e: E.Env, b: E.Action, r: nat, graceful: bool)
    requires E.Possible(e, b) && r < |E.Step(e, b).runs| && Pushing(E.Step(e, b).runs[r].handler, graceful)
    ensures r < |e.runs|
    ensures Pushing(e.runs[r].handler, graceful) || (b.Advance? && b.r == r && Pushing(b.to, graceful))
  {
  }

  lemma PushingServer(s: System, a: Action, at: nat, r: nat, graceful: bool)
    requires Possible(s, a) && at < |s.servers| && at < |ServersAfter(s, a)|
    requires r < |ServersAfter(s, a)[at].env.runs| && Pushing(ServersAfter(s, a)[at].env.runs[r].handler, graceful)
    ensures r < |s.servers[at].env.runs|
    ensures Pushing(s.servers[at].env.runs[r].handler, graceful)
            || (a.Decide? && a.at == at && Restarts(Owner(s, at).config, graceful))
  {
    hide E.Step, WellFormed;
    if EnvPart(s, a).Some? && EnvPart(s, a).value.0 == at {
      EnvPartPossible(s, a);
      PushingEnv(s.servers[at].env, EnvPart(s, a).value.1, r, graceful);
    }
  }

  lemma UnpushedStays(s: System, a: Action, p: nat, graceful: bool)
    requires Unpushed(s, p, graceful) && Possible(s, a)
    requires a.Reload? && a.p == p ==> !Restarts(a.config, graceful)
    ensures Unpushed(Step(s, a), p, graceful)
    ensures a.Requeue? && s.servers[a.at].owner == p ==> s.servers[a.at].env.runs[a.r].handler.graceful != graceful
  {
    SI.ServersGrow(s, a);
    SI.ProgramsKept(s, a);
    ConfigKept(s, a, p);
    if a.Reload? { SI.ReloadedServer(s, a); }
    hide ServersAfter, ProgramsAfter, ServiceAfter, StoppersAfter, GroupAfter, Restarts, WellFormed;
    var s' := Step(s, a);
    forall at: nat, r: nat | at < |s'.servers| && s'.servers[at].owner == p && r < |s'.servers[at].env.runs|
      ensures !Pushing(s'.servers[at].env.runs[r].handler, graceful)
    {
      if at < |s.servers| && Pushing(s'.servers[at].env.runs[r].handler, graceful) {
        PushingServer(s, a, at, r, graceful);
      }
    }
  }

  lemma ConfigKept(s: System, a: Action, p: nat)
    requires Possible(s, a) && p < |s.programs|
    ensures p < |ProgramsAfter(s, a)|
    ensures ProgramsAfter(s, a)[p].config == if a.Reload? && a.p == p then a.config else s.programs[p].config
  {
  }

  /**
   * A program that is not to be restarted after graceful exits (or after crashes) never is: on every
   * run that does not reload it into one that is, no callback of it that was told of such an exit
   * gets to the push.
   */
  lemma {:induction false} RestartsOnlyIfConfigured(pol: Policy, s: System, acts: seq<Action>, p: nat, graceful: bool)
    requires Unpushed(s, p, graceful) && Legal(pol, s, acts)
    requires forall i :: 0 <= i < |acts| && acts[i].Reload? && acts[i].p == p ==> !Restarts(acts[i].config, graceful)
    ensures Unpushed(Exec(pol, s, acts), p, graceful)
    ensures NoPush(pol, s, acts, p, graceful)
    decreases acts
  {
    hide Step, Possible, Unpushed;
    if acts != [] {
      UnpushedStays(s, acts[0], p, graceful);
      assert forall i :: 0 <= i < |acts[1..]| ==> acts[1..][i] == acts[i + 1];
      RestartsOnlyIfConfigured(pol, Step(s, acts[0]), acts[1..], p, graceful);
    }
  }

  /** No callback of p that was told `graceful` pushes it in this run. */
  ghost predicate NoPush(pol: Policy, s: System, acts: seq<Action>, p: nat, graceful: bool)
    requires Legal(pol, s, acts)
    decreases acts
  {
    acts != [] ==>
      && !(acts[0].Requeue? && s.servers[acts[0].at].owner == p
           && s.servers[acts[0].at].env.runs[acts[0].r].handler.graceful == graceful)
      && NoPush(pol, Step(s, acts[0]), acts[1..], p, graceful)
  }
}
