/** What every step of the daemon keeps. */
module SupervisorInvariant {
  import opened Common
  import opened Restart
  import opened Supervisor
  import E = Environment
  import EI = EnvironmentInvariant

  lemma EnvGrows(e: E.Env, a: E.Action)
    requires E.Possible(e, a)
    ensures E.Step(e, a).kind == e.kind
    ensures |e.starters| <= |E.Step(e, a).starters| && |e.runs| <= |E.Step(e, a).runs|
    ensures |e.waiters| <= |E.Step(e, a).waiters|
  {
  }

  /** Environments are never lost, keep their owner and kind, and only grow. */
  lemma ServersGrow(s: System, a: Action)
    requires Possible(s, a)
    ensures |s.servers| <= |ServersAfter(s, a)| <= |s.servers| + 1
    ensures |s.servers| < |ServersAfter(s, a)| <==> a.Reload?
    ensures forall at :: 0 <= at < |s.servers| ==>
              (var e, e' := s.servers[at].env, ServersAfter(s, a)[at].env;
               && ServersAfter(s, a)[at].owner == s.servers[at].owner && e'.kind == e.kind
               && |e.starters| <= |e'.starters| && |e.runs| <= |e'.runs| && |e.waiters| <= |e'.waiters|)
  {
    hide E.Step;
    if !a.Reload? && EnvPart(s, a).Some? {
      var (at, b) := EnvPart(s, a).value;
      EnvPartPossible(s, a);
      EnvGrows(s.servers[at].env, b);
    }
  }

  lemma ProgramsKept(s: System, a: Action)
    requires Possible(s, a)
    ensures |ProgramsAfter(s, a)| == |s.programs|
    ensures forall p :: 0 <= p < |s.programs| ==>
              ProgramsAfter(s, a)[p].env == if a.Reload? && a.p == p then |s.servers| else s.programs[p].env
  {
  }

  lemma PointersKept(s: System, a: Action)
    requires Possible(s, a)
    ensures forall p :: 0 <= p < |ProgramsAfter(s, a)| ==>
              ProgramsAfter(s, a)[p].env < |ServersAfter(s, a)|
              && ServersAfter(s, a)[ProgramsAfter(s, a)[p].env].owner == p
    ensures forall at :: 0 <= at < |ServersAfter(s, a)| ==> ServersAfter(s, a)[at].owner < |ProgramsAfter(s, a)|
  {
    ServersGrow(s, a);
    ProgramsKept(s, a);
    if a.Reload? { ReloadedServer(s, a); }
    hide ServersAfter, ProgramsAfter;
  }

  lemma StepWellFormed(s: System, a: Action)
    requires Possible(s, a)
    ensures WellFormed(Step(s, a))
  {
    PointersKept(s, a);
    ProgramsKept(s, a);
    ServiceWellFormed(s, a);
    hide ServersAfter, ProgramsAfter, ServiceAfter;
    assert |Step(s, a).stoppers| <= |Step(s, a).programs|;
  }

  lemma ReloadedServer(s: System, a: Action)
    requires Possible(s, a) && a.Reload?
    ensures ServersAfter(s, a) == s.servers + [Server(a.p, E.Fresh(a.kind))]
  {
  }

  /** The queue and the processor only ever refer to programs and starts that exist. */
  lemma ServiceWellFormed(s: System, a: Action)
    requires Possible(s, a)
    ensures var v := ServiceAfter(s, a);
            && (forall i :: 0 <= i < |v.queue| ==> v.queue[i] < |s.programs|)
            && (v.processor.Starting? ==>
                  v.processor.at < |ServersAfter(s, a)|
                  && v.processor.k < |ServersAfter(s, a)[v.processor.at].env.starters|)
  {
    ServersGrow(s, a);
    if a.Pop? && a.hit {
      assert EnvPart(s, a).Some?;
    }
  }

  // ---- The environments ----

  /** Every environment satisfies the environment invariant. */
  ghost predicate EnvsOk(s: System) {
    forall at :: 0 <= at < |s.servers| ==> EI.Inv(s.servers[at].env)
  }

  lemma EnvsKept(pol: Policy, s: System, a: Action)
    requires pol.starts.Exclusive? && EnvsOk(s) && Enabled(pol, s, a)
    ensures EnvsOk(Step(s, a))
  {
    hide EI.Inv, E.Step;
    if a.Reload? {
      EI.FreshInv(a.kind);
    } else if EnvPart(s, a).Some? {
      var (at, b) := EnvPart(s, a).value;
      EnvPartPossible(s, a);
      assert E.Permitted(E.Exclusive, s.servers[at].env, b);
      EI.StepKeeps(s.servers[at].env, b);
    }
  }

  // ---- Reload ----

  /** An environment object that its program no longer points to is dead and stays dead. */
  ghost predicate RetiredDead(s: System) {
    WellFormed(s) &&
    forall at :: 0 <= at < |s.servers| && s.programs[s.servers[at].owner].env != at ==> Reloadable(s.servers[at].env)
  }

  lemma DeadStays(e: E.Env, b: E.Action)
    requires Reloadable(e) && E.Possible(e, b) && !b.Arrive?
    ensures Reloadable(E.Step(e, b))
  {
  }

  /** Only a program's current environment is ever started. */
  lemma StartsAtCurrent(s: System, a: Action)
    requires Possible(s, a) && EnvPart(s, a).Some? && EnvPart(s, a).value.1.Arrive?
    ensures EnvPart(s, a).value.0 < |s.servers|
    ensures s.programs[s.servers[EnvPart(s, a).value.0].owner].env == EnvPart(s, a).value.0
  {
  }

  lemma ReloadRetires(s: System, a: Action)
    requires RetiredDead(s) && Possible(s, a) && a.Reload? && Reloadable(Current(s, a.p))
    ensures RetiredDead(Step(s, a))
  {
    StepWellFormed(s, a);
    ProgramsKept(s, a);
    ReloadedServer(s, a);
    hide ServersAfter, ProgramsAfter, ServiceAfter;
  }

  /** A retired object may run down, but is never started. */
  lemma RetiredServer(s: System, a: Action, at: nat)
    requires Possible(s, a) && !a.Reload? && at < |s.servers|
    requires s.programs[s.servers[at].owner].env != at && Reloadable(s.servers[at].env)
    ensures at < |ServersAfter(s, a)| && Reloadable(ServersAfter(s, a)[at].env)
  {
    if EnvPart(s, a).Some? && EnvPart(s, a).value.0 == at {
      EnvPartPossible(s, a);
      if EnvPart(s, a).value.1.Arrive? { StartsAtCurrent(s, a); }
      hide EnvPart, E.Step, E.Possible;
      DeadStays(s.servers[at].env, EnvPart(s, a).value.1);
    }
  }

  lemma RetiredKept(pol: Policy, s: System, a: Action)
    requires pol.idleReload && RetiredDead(s) && Enabled(pol, s, a)
    ensures RetiredDead(Step(s, a))
  {
    hide ServersAfter, ProgramsAfter, ServiceAfter, Reloadable;
    if a.Reload? {
      ReloadRetires(s, a);
    } else {
      StepWellFormed(s, a);
      ProgramsKept(s, a);
      ServersGrow(s, a);
      var s' := Step(s, a);
      forall at | 0 <= at < |s'.servers| && s'.programs[s'.servers[at].owner].env != at
        ensures Reloadable(s'.servers[at].env)
      {
        RetiredServer(s, a, at);
      }
    }
  }

  // ---- Whole runs ----

  lemma {:induction false} RunKeepsEnvs(pol: Policy, s: System, acts: seq<Action>)
    requires pol.starts.Exclusive? && EnvsOk(s) && Legal(pol, s, acts)
    ensures EnvsOk(Exec(pol, s, acts))
    decreases acts
  {
    if acts != [] {
      EnvsKept(pol, s, acts[0]);
      RunKeepsEnvs(pol, Step(s, acts[0]), acts[1..]);
    }
  }

  lemma {:induction false} RunKeepsRetired(pol: Policy, s: System, acts: seq<Action>)
    requires pol.idleReload && RetiredDead(s) && Legal(pol, s, acts)
    ensures RetiredDead(Exec(pol, s, acts))
    decreases acts
  {
    if acts != [] {
      RetiredKept(pol, s, acts[0]);
      RunKeepsRetired(pol, Step(s, acts[0]), acts[1..]);
    }
  }

  lemma ReachableEnvs(pol: Policy, s: System)
    requires pol.starts.Exclusive? && Reachable(pol, s)
    ensures EnvsOk(s)
  {
    var s0: System, acts: seq<Action> :| Initial(s0) && Legal(pol, s0, acts) && Exec(pol, s0, acts) == s;
    forall at | 0 <= at < |s0.servers| ensures EI.Inv(s0.servers[at].env) {
      EI.FreshInv(s0.servers[at].env.kind);
    }
    RunKeepsEnvs(pol, s0, acts);
  }

  lemma {:induction false} RunWellFormed(pol: Policy, s: System, acts: seq<Action>)
    requires WellFormed(s) && Legal(pol, s, acts)
    ensures WellFormed(Exec(pol, s, acts))
    decreases acts
  {
    hide Step, WellFormed;
    if acts != [] {
      StepWellFormed(s, acts[0]);
      RunWellFormed(pol, Step(s, acts[0]), acts[1..]);
    }
  }

  lemma ReachableWellFormed(pol: Policy, s: System)
    requires Reachable(pol, s)
    ensures WellFormed(s)
  {
    var s0: System, acts: seq<Action> :| Initial(s0) && Legal(pol, s0, acts) && Exec(pol, s0, acts) == s;
    RunWellFormed(pol, s0, acts);
  }

  lemma ReachableRetired(pol: Policy, s: System)
    requires pol.idleReload && Reachable(pol, s)
    ensures RetiredDead(s)
  {
    var s0: System, acts: seq<Action> :| Initial(s0) && Legal(pol, s0, acts) && Exec(pol, s0, acts) == s;
    RunKeepsRetired(pol, s0, acts);
  }
}
