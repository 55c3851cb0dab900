/** Runs of the daemon put together from the lines of one environment. */
module SupervisorRuns {
  import opened Common
  import opened Restart
  import opened Supervisor
  import E = Environment
  import SI = SupervisorInvariant
  import T = TtyObject

  /** Neither a start from outside nor a reload. */
  predicate Plain(a: Action) {
    !a.Request? && !a.Reload?
  }

  /** Some run without starts from outside and without reloads leads from s to t. */
  ghost predicate PlainTo(pol: Policy, s: System, t: System) {
    exists acts: seq<Action> ::
      Legal(pol, s, acts) && Exec(pol, s, acts) == t && forall i :: 0 <= i < |acts| ==> Plain(acts[i])
  }

  lemma PlainNowhere(pol: Policy, s: System)
    ensures PlainTo(pol, s, s)
  {
    assert Legal(pol, s, []) && Exec(pol, s, []) == s;
  }

  lemma PlainOn(pol: Policy, s: System, now: System, a: Action)
    requires PlainTo(pol, s, now) && Enabled(pol, now, a) && Plain(a)
    ensures PlainTo(pol, s, Step(now, a))
  {
    hide Step, Possible;
    var acts :| Legal(pol, s, acts) && Exec(pol, s, acts) == now && forall i :: 0 <= i < |acts| ==> Plain(acts[i]);
    Extend(pol, s, acts, a);
    assert forall i :: 0 <= i < |acts + [a]| ==> Plain((acts + [a])[i]);
  }

  lemma PlainLeads(pol: Policy, s: System, t: System)
    requires PlainTo(pol, s, t)
    ensures LeadsTo(pol, s, t)
  {
  }

  /** From s to t only the environment at `at`, crash counters and the end of an open queue changed. */
  predicate Frame(s: System, t: System, at: nat) {
    && |t.programs| == |s.programs|
    && (forall p :: 0 <= p < |s.programs| ==>
          t.programs[p].env == s.programs[p].env && t.programs[p].config == s.programs[p].config)
    && at < |s.servers| == |t.servers| && t.servers[at].owner == s.servers[at].owner
    && (forall i :: 0 <= i < |s.servers| && i != at ==> t.servers[i] == s.servers[i])
    && t.service == s.service.(queue := t.service.queue)
    && (!s.service.running ==> t.service.queue == s.service.queue)
  }

  function Locals(at: nat, lines: seq<E.Action>): (acts: seq<Action>)
    ensures |acts| == |lines| && forall i :: 0 <= i < |lines| ==> acts[i] == Local(at, lines[i])
  {
    seq(|lines|, i requires 0 <= i < |lines| => Local(at, lines[i]))
  }

  function WithEnv(s: System, at: nat, e: E.Env): System
    requires at < |s.servers|
  {
    s.(servers := s.servers[at := s.servers[at].(env := e)])
  }

  lemma WithEnvTwice(s: System, at: nat, e: E.Env, e': E.Env)
    requires at < |s.servers|
    ensures WithEnv(WithEnv(s, at, e), at, e') == WithEnv(s, at, e')
  {
    assert WithEnv(WithEnv(s, at, e), at, e').servers == WithEnv(s, at, e').servers;
  }

  /** Lines an environment executes by itself, with the enabled flag of its program. */
  predicate OwnLine(b: E.Action, enabled: bool) {
    !b.Arrive? && !b.Advance? && (b.Check? ==> b.enabled == enabled)
  }

  lemma LocalStep(pol: Policy, s: System, at: nat, b: E.Action)
    requires WellFormed(s) && at < |s.servers| && E.Enabled(pol.starts, s.servers[at].env, b)
    requires OwnLine(b, Owner(s, at).config.enabled)
    ensures Enabled(pol, s, Local(at, b))
    ensures Step(s, Local(at, b)) == WithEnv(s, at, E.Step(s.servers[at].env, b))
    ensures WellFormed(Step(s, Local(at, b)))
  {
    SI.StepWellFormed(s, Local(at, b));
    hide E.Step, WellFormed;
  }

  /** One line of the environment at `at`, which is in state e. */
  lemma Go(pol: Policy, s0: System, s: System, at: nat, e: E.Env, b: E.Action, next: E.Env) returns (t: System)
    requires at < |s.servers| && PlainTo(pol, s0, WithEnv(s, at, e)) && WellFormed(WithEnv(s, at, e))
    requires E.Enabled(pol.starts, e, b) && E.Step(e, b) == next
    requires OwnLine(b, Owner(WithEnv(s, at, e), at).config.enabled)
    ensures PlainTo(pol, s0, t) && t == WithEnv(s, at, next) && WellFormed(t)
  {
    var now := WithEnv(s, at, e);
    hide PlainTo, WellFormed, Step, E.Step, Possible, E.Possible;
    LocalStep(pol, now, at, b);
    PlainOn(pol, s0, now, Local(at, b));
    t := Step(now, Local(at, b));
    assert t.servers == WithEnv(s, at, next).servers;
  }

  /** A run of an environment is a run of the daemon. */
  lemma {:induction false} Lift(pol: Policy, s: System, at: nat, lines: seq<E.Action>)
    requires WellFormed(s) && at < |s.servers| && E.Legal(pol.starts, s.servers[at].env, lines)
    requires forall i :: 0 <= i < |lines| ==> OwnLine(lines[i], Owner(s, at).config.enabled)
    ensures Legal(pol, s, Locals(at, lines))
    ensures Exec(pol, s, Locals(at, lines)) == WithEnv(s, at, E.Exec(pol.starts, s.servers[at].env, lines))
    decreases lines
  {
    var e := s.servers[at].env;
    if lines == [] {
      assert s.servers[at := s.servers[at].(env := e)] == s.servers;
    } else {
      LocalStep(pol, s, at, lines[0]);
      var s' := Step(s, Local(at, lines[0]));
      assert Locals(at, lines) == [Local(at, lines[0])] + Locals(at, lines[1..]);
      assert s'.programs == s.programs && s'.servers[at].owner == s.servers[at].owner;
      hide Step, E.Step, WellFormed, Possible;
      Lift(pol, s', at, lines[1..]);
      First(pol, s, Local(at, lines[0]), Locals(at, lines[1..]));
    }
  }

  /** One start of an untouched tty environment, once ExecuteAsync returned. */
  function FirstStarted(spawnOk: bool): E.Env {
    E.Env(E.Tty, Some(0), 1,
          [if spawnOk then E.Run(E.Alive, false, E.Attaching) else E.Run(E.Failed, false, E.Unlaunched)],
          [E.Returned(spawnOk)], [])
  }

  /** Its lines, from the checks of Program.Start on. */
  function StartLines(spawnOk: bool): seq<E.Action> {
    [E.Check(0, true)] + ([E.Prepare(0, true)] + T.ExecuteLines(spawnOk))
  }

  lemma StartRuns(spawnOk: bool)
    ensures E.Legal(E.Exclusive, E.Fresh(E.Tty).(starters := [E.Requested]), StartLines(spawnOk))
    ensures E.Exec(E.Exclusive, E.Fresh(E.Tty).(starters := [E.Requested]), StartLines(spawnOk))
            == FirstStarted(spawnOk)
  {
    var e := E.Fresh(E.Tty).(starters := [E.Requested]);
    var e1, e2 := e.(starters := [E.Preparing]), e.(starters := [E.Entering]);
    hide E.Legal, E.Exec, T.ExecuteLines;
    T.ExecuteRuns(e2, spawnOk);
    assert E.Step(e1, E.Prepare(0, true)) == e2;
    E.First(E.Exclusive, e1, E.Prepare(0, true), T.ExecuteLines(spawnOk));
    assert E.Step(e, E.Check(0, true)) == e1;
    E.First(E.Exclusive, e, E.Check(0, true), [E.Prepare(0, true)] + T.ExecuteLines(spawnOk));
  }

  lemma StartIsOwn(spawnOk: bool)
    ensures forall i :: 0 <= i < |StartLines(spawnOk)| ==> OwnLine(StartLines(spawnOk)[i], true)
    ensures 6 < |StartLines(spawnOk)| && StartLines(spawnOk)[6] == E.Spawn(0, spawnOk)
  {
  }

  /** A start that has arrived at an untouched environment of an enabled program comes up, or fails to spawn. */
  lemma StartComesUp(pol: Policy, s: System, at: nat, spawnOk: bool)
    requires pol.starts.Exclusive? && WellFormed(s) && at < |s.servers| && Owner(s, at).config.enabled
    requires s.servers[at].env == E.Fresh(E.Tty).(starters := [E.Requested])
    ensures var acts := Locals(at, StartLines(spawnOk));
            && Legal(pol, s, acts) && Exec(pol, s, acts) == WithEnv(s, at, FirstStarted(spawnOk))
            && exists i :: 0 <= i < |acts| && acts[i] == Local(at, E.Spawn(0, spawnOk))
  {
    hide StartLines, OwnLine, Legal, Exec, E.Legal, E.Exec, WellFormed, Owner, WithEnv;
    StartRuns(spawnOk);
    StartIsOwn(spawnOk);
    Lift(pol, s, at, StartLines(spawnOk));
    assert Locals(at, StartLines(spawnOk))[6] == Local(at, E.Spawn(0, spawnOk));
  }
}
