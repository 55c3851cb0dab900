/**
 * The whole daemon as one transition system: every server's environment (module Environment,
 * line by line), the shared start queue with its ticker and its single processor goroutine,
 * the afterExit callbacks, reload, direct starts, and the goroutines of Shutdown.
 */
module Supervisor {
  import opened Common
  import opened Restart
  import E = Environment

  /** A registered program: which environment object it points to, CrashCounter and flags. */
  datatype Program = Program(env: nat, crashes: int, config: Config)

  /** An environment object and the program it was created for. */
  datatype Server = Server(owner: nat, env: E.Env)

  /** The processQueue goroutine: waiting for a tick, holding one, or inside a dequeued start. */
  datatype Processor = Idle | Ticked | Starting(at: nat, k: nat)

  /** The package variables of program.go; `pending` is the one-slot channel of the ticker. */
  datatype Service = Service(queue: seq<nat>, running: bool, stopped: bool, pending: bool, processor: Processor)

  /** A goroutine of Shutdown, one for each program of the snapshot, by line. */
  datatype Stopper =
    | Unlaunched | Checking | Stopping | Joining
    | Waiting(at: nat, w: nat)
    | Ended(ok: bool)

  datatype System = System(
    limit: int,                  // data.crashLimit
    programs: seq<Program>,
    servers: seq<Server>,
    service: Service,
    collected: bool,             // Shutdown has taken its snapshot of the registry
    stoppers: seq<Stopper>,
    group: int)                  // counter of Shutdown's wait group

  datatype Action =
    | Local(at: nat, a: E.Action)
    | Request(p: nat)                     // Program.Start from outside the queue
    | Enqueue(p: nat)                     // StartViaService from outside a callback
    | Tick                                // the ticker fires
    | Receive                             // program.go:78
    | Pop(hit: bool)                      // program.go:79-88
    | Resume                              // the loop body ends
    | Reset(at: nat, r: nat, graceful: bool)  // program.go:439-441
    | Post(at: nat, r: nat, ok: bool)     // program.go:443-462
    | Decide(at: nat, r: nat)             // program.go:464-471
    | Requeue(at: nat, r: nat)            // program.go:469, 472
    | Reload(p: nat, kind: E.Kind, config: Config) // program.go:428-436
    | ShutdownService                     // program.go:67-75
    | Collect                             // shutdown.go:46-47
    | StopLaunch(i: nat)                  // shutdown.go:49
    | StopCheck(i: nat)                   // shutdown.go:57-64
    | StopSend(i: nat, ok: bool)          // shutdown.go:65-69
    | StopJoin(i: nat)                    // shutdown.go:70
    | StopLeave(i: nat)                   // shutdown.go:71-75

  /**
   * The two named disciplines: how the starts of one environment pass Wait.Wait(), and whether a
   * program is reloaded only while nothing runs or starts in its environment.
   */
  datatype Policy = Policy(starts: E.Discipline, idleReload: bool)

  ghost predicate WellFormed(s: System) {
    && (forall p :: 0 <= p < |s.programs| ==>
          s.programs[p].env < |s.servers| && s.servers[s.programs[p].env].owner == p)
    && (forall at :: 0 <= at < |s.servers| ==> s.servers[at].owner < |s.programs|)
    && (forall i :: 0 <= i < |s.service.queue| ==> s.service.queue[i] < |s.programs|)
    && (s.service.processor.Starting? ==>
          s.service.processor.at < |s.servers|
          && s.service.processor.k < |s.servers[s.service.processor.at].env.starters|)
    && |s.stoppers| <= |s.programs|
  }

  /** Nothing runs in the environment and nobody is starting in it. */
  predicate Reloadable(e: E.Env) {
    && (forall r :: 0 <= r < |e.runs| ==> !E.Live(e.runs[r].proc))
    && (forall k :: 0 <= k < |e.starters| ==> e.starters[k].Returned?)
  }

  function Current(s: System, p: nat): E.Env
    requires WellFormed(s) && p < |s.programs|
  {
    s.servers[s.programs[p].env].env
  }

  function Owner(s: System, at: nat): Program
    requires WellFormed(s) && at < |s.servers|
  {
    s.programs[s.servers[at].owner]
  }

  /** The lines an environment executes on its own; starts and callbacks need the rest of the daemon. */
  predicate LocalPossible(s: System, at: nat, a: E.Action)
    requires WellFormed(s)
  {
    && at < |s.servers| && E.Possible(s.servers[at].env, a)
    && !a.Arrive? && !a.Advance?
    && (a.Check? ==> a.enabled == Owner(s, at).config.enabled)
  }

  predicate InCallback(s: System, at: nat, r: nat, line: E.CallbackLine) {
    && at < |s.servers| && r < |s.servers[at].env.runs|
    && s.servers[at].env.runs[r].handler.Calling? && s.servers[at].env.runs[r].handler.line == line
  }

  predicate StopperAt(s: System, i: nat, line: Stopper) {
    i < |s.stoppers| && s.stoppers[i] == line
  }

  ghost predicate Possible(s: System, a: Action) {
    WellFormed(s) &&
    match a
    case Local(at, b) => LocalPossible(s, at, b)
    case Request(p) => p < |s.programs|
    case Enqueue(p) => p < |s.programs|
    case Tick => !s.service.stopped
    case Receive => s.service.processor.Idle? && s.service.pending
    case Pop(hit) => s.service.processor.Ticked? && hit == (s.service.queue != [])
    case Resume =>
      && s.service.processor.Starting?
      && s.servers[s.service.processor.at].env.starters[s.service.processor.k].Returned?
    case Reset(at, r, graceful) =>
      InCallback(s, at, r, E.Resetting) && s.servers[at].env.runs[r].handler.graceful == graceful
    case Post(at, r, _) => InCallback(s, at, r, E.PostExecution)
    case Decide(at, r) => InCallback(s, at, r, E.Deciding)
    case Requeue(at, r) => InCallback(s, at, r, E.Requeueing)
    case Reload(p, _, _) => p < |s.programs|
    case ShutdownService => true
    case Collect => !s.service.running && !s.collected
    case StopLaunch(i) => StopperAt(s, i, Unlaunched) && forall j :: 0 <= j < i ==> !s.stoppers[j].Unlaunched?
    case StopCheck(i) => StopperAt(s, i, Checking)
    case StopSend(i, _) => StopperAt(s, i, Stopping)
    case StopJoin(i) => StopperAt(s, i, Joining)
    case StopLeave(i) =>
      && i < |s.stoppers| && s.stoppers[i].Waiting?
      && s.stoppers[i].at < |s.servers| && s.stoppers[i].w < |s.servers[s.stoppers[i].at].env.waiters|
      && s.servers[s.stoppers[i].at].env.waiters[s.stoppers[i].w].Left?
  }

  ghost predicate Enabled(pol: Policy, s: System, a: Action) {
    && Possible(s, a)
    && (a.Local? ==> E.Permitted(pol.starts, s.servers[a.at].env, a.a))
    && (a.Reload? && pol.idleReload ==> Reloadable(Current(s, a.p)))
  }

  /** A process is to be spawned, successfully or not. */
  predicate Attempts(a: Action) {
    a.Local? && a.a.Spawn?
  }

  predicate Spawns(a: Action) {
    Attempts(a) && a.a.ok
  }

  /** StartViaService: the push happens only while the service is running. */
  function Push(v: Service, p: nat): Service {
    if v.running then v.(queue := v.queue + [p]) else v
  }

  /** The lines of afterExit. */
  predicate IsCallback(a: Action) {
    a.Reset? || a.Post? || a.Decide? || a.Requeue?
  }

  /** Where the callback of run r stands after one more of its lines. */
  function CallbackTo(s: System, a: Action): E.Handler
    requires Possible(s, a) && IsCallback(a)
  {
    var h := s.servers[a.at].env.runs[a.r].handler;
    match a
    case Reset(_, _, _) => h.(line := E.PostExecution)
    case Post(_, _, ok) => if ok then h.(line := E.Deciding) else E.AfterCallback(h.again)
    case Decide(at, _) =>
      var o := Owner(s, at);
      if RequestsRestart(o.config, o.crashes, s.limit, h.graceful) then h.(line := E.Requeueing)
      else E.AfterCallback(h.again)
    case Requeue(_, _) => E.AfterCallback(h.again)
  }

  /** The line of an environment that a step of the daemon executes, if any. */
  function EnvPart(s: System, a: Action): Option<(nat, E.Action)>
    requires Possible(s, a)
  {
    match a
    case Local(at, b) => Some((at, b))
    case Request(p) => Some((s.programs[p].env, E.Arrive(false)))
    case Pop(hit) => if hit then Some((s.programs[s.service.queue[0]].env, E.Arrive(true))) else None
    case Reset(at, r, _) => Some((at, E.Advance(r, CallbackTo(s, a))))
    case Post(at, r, _) => Some((at, E.Advance(r, CallbackTo(s, a))))
    case Decide(at, r) => Some((at, E.Advance(r, CallbackTo(s, a))))
    case Requeue(at, r) => Some((at, E.Advance(r, CallbackTo(s, a))))
    case StopJoin(i) => if E.IsRunning(Current(s, i)) then Some((s.programs[i].env, E.Watch)) else None
    case _ => None
  }

  lemma EnvPartPossible(s: System, a: Action)
    requires Possible(s, a) && EnvPart(s, a).Some?
    ensures EnvPart(s, a).value.0 < |s.servers|
    ensures E.Possible(s.servers[EnvPart(s, a).value.0].env, EnvPart(s, a).value.1)
  {
  }

  function ServersAfter(s: System, a: Action): seq<Server>
    requires Possible(s, a)
  {
    if a.Reload? then s.servers + [Server(a.p, E.Fresh(a.kind))]
    else
      match EnvPart(s, a)
      case None => s.servers
      case Some((at, b)) =>
        EnvPartPossible(s, a);
        s.servers[at := s.servers[at].(env := E.Step(s.servers[at].env, b))]
  }

  function ProgramsAfter(s: System, a: Action): seq<Program>
    requires Possible(s, a)
  {
    match a
    case Reset(at, _, graceful) =>
      var p := s.servers[at].owner;
      s.programs[p := s.programs[p].(crashes := CounterAfterReset(s.programs[p].crashes, graceful))]
    case Decide(at, r) =>
      var p := s.servers[at].owner;
      var o := s.programs[p];
      if CrashRestart(o.config, o.crashes, s.limit, s.servers[at].env.runs[r].handler.graceful) then
        s.programs[p := o.(crashes := o.crashes + 1)]
      else s.programs
    case Reload(p, _, config) => s.programs[p := s.programs[p].(env := |s.servers|, config := config)]
    case _ => s.programs
  }

  function ServiceAfter(s: System, a: Action): Service
    requires Possible(s, a)
  {
    var v := s.service;
    match a
    case Enqueue(p) => Push(v, p)
    case Tick => v.(pending := true)
    case Receive => v.(pending := false, processor := Ticked)
    case Pop(hit) =>
      if hit then
        v.(queue := v.queue[1..],
           processor := Starting(s.programs[v.queue[0]].env, |Current(s, v.queue[0]).starters|))
      else v.(processor := Idle)
    case Resume => v.(processor := Idle)
    case Requeue(at, _) => Push(v, s.servers[at].owner)
    case ShutdownService => v.(running := false, stopped := true)
    case _ => v
  }

  /** The next line of the shutdown goroutine that moves. */
  function StopperTo(s: System, a: Action): Stopper
    requires Possible(s, a)
    requires a.StopLaunch? || a.StopCheck? || a.StopSend? || a.StopJoin? || a.StopLeave?
  {
    match a
    case StopLaunch(_) => Checking
    case StopCheck(i) => if E.IsRunning(Current(s, i)) then Stopping else Ended(true)
    case StopSend(i, ok) => if ok || !E.IsRunning(Current(s, i)) then Joining else Ended(false)
    case StopJoin(i) =>
      if E.IsRunning(Current(s, i)) then Waiting(s.programs[i].env, |Current(s, i).waiters|) else Ended(true)
    case StopLeave(_) => Ended(true)
  }

  predicate StopperMoves(a: Action) {
    a.StopLaunch? || a.StopCheck? || a.StopSend? || a.StopJoin? || a.StopLeave?
  }

  function StoppersAfter(s: System, a: Action): seq<Stopper>
    requires Possible(s, a)
  {
    if a.Collect? then seq(|s.programs|, _ => Unlaunched)
    else if StopperMoves(a) then s.stoppers[a.i := StopperTo(s, a)]
    else s.stoppers
  }

  /** wg.Add(len(prgs)) before the loop; every goroutine's deferred wg.Done() when it ends. */
  function GroupAfter(s: System, a: Action): int
    requires Possible(s, a)
  {
    if a.Collect? then |s.programs|
    else if StopperMoves(a) && StopperTo(s, a).Ended? then s.group - 1
    else s.group
  }

  /** The effect of one line of one goroutine of the daemon. */
  function Step(s: System, a: Action): System
    requires Possible(s, a)
  {
    System(s.limit, ProgramsAfter(s, a), ServersAfter(s, a), ServiceAfter(s, a),
           s.collected || a.Collect?, StoppersAfter(s, a), GroupAfter(s, a))
  }

  ghost predicate Legal(pol: Policy, s: System, acts: seq<Action>)
    decreases acts
  {
    acts == [] || (Enabled(pol, s, acts[0]) && Legal(pol, Step(s, acts[0]), acts[1..]))
  }

  ghost function Exec(pol: Policy, s: System, acts: seq<Action>): System
    requires Legal(pol, s, acts)
    decreases acts
  {
    if acts == [] then s else Exec(pol, Step(s, acts[0]), acts[1..])
  }

  /** The daemon right after InitService: every program loaded, nothing running, nothing queued. */
  predicate Initial(s: System) {
    && |s.servers| == |s.programs|
    && (forall p :: 0 <= p < |s.programs| ==>
          s.programs[p].env == p && s.programs[p].crashes == 0
          && s.servers[p] == Server(p, E.Fresh(s.servers[p].env.kind)))
    && s.service == Service([], true, false, false, Idle)
    && !s.collected && s.stoppers == [] && s.group == 0
  }

  /** Some run of the daemon under the policy ends in `s`. */
  ghost predicate Reachable(pol: Policy, s: System) {
    exists s0: System, acts: seq<Action> :: Initial(s0) && Legal(pol, s0, acts) && Exec(pol, s0, acts) == s
  }

  lemma {:induction false} Concat(pol: Policy, s: System, acts: seq<Action>, more: seq<Action>)
    requires Legal(pol, s, acts) && Legal(pol, Exec(pol, s, acts), more)
    ensures Legal(pol, s, acts + more)
    ensures Exec(pol, s, acts + more) == Exec(pol, Exec(pol, s, acts), more)
    decreases acts
  {
    hide Step, Possible;
    if acts == [] {
      assert acts + more == more;
    } else {
      assert (acts + more)[1..] == acts[1..] + more;
      Concat(pol, Step(s, acts[0]), acts[1..], more);
    }
  }

  lemma First(pol: Policy, s: System, a: Action, more: seq<Action>)
    requires Enabled(pol, s, a) && Legal(pol, Step(s, a), more)
    ensures Legal(pol, s, [a] + more) && Exec(pol, s, [a] + more) == Exec(pol, Step(s, a), more)
  {
    hide Step, Possible;
    assert ([a] + more)[1..] == more;
  }

  lemma Extend(pol: Policy, s: System, acts: seq<Action>, a: Action)
    requires Legal(pol, s, acts) && Enabled(pol, Exec(pol, s, acts), a)
    ensures Legal(pol, s, acts + [a]) && Exec(pol, s, acts + [a]) == Step(Exec(pol, s, acts), a)
  {
    hide Step, Enabled;
    First(pol, Exec(pol, s, acts), a, []);
    Concat(pol, s, acts, [a] + []);
    assert [a] + [] == [a];
  }

  lemma ReachableRun(pol: Policy, s: System, acts: seq<Action>)
    requires Reachable(pol, s) && Legal(pol, s, acts)
    ensures Reachable(pol, Exec(pol, s, acts))
  {
    hide Initial;
    var s0: System, before: seq<Action> :| Initial(s0) && Legal(pol, s0, before) && Exec(pol, s0, before) == s;
    Concat(pol, s0, before, acts);
  }

  ghost predicate LeadsTo(pol: Policy, s: System, t: System) {
    exists acts: seq<Action> :: Legal(pol, s, acts) && Exec(pol, s, acts) == t
  }

  lemma ReachableLeads(pol: Policy, s: System, t: System)
    requires Reachable(pol, s) && LeadsTo(pol, s, t)
    ensures Reachable(pol, t)
  {
    hide Reachable;
    var acts :| Legal(pol, s, acts) && Exec(pol, s, acts) == t;
    ReachableRun(pol, s, acts);
  }

  lemma ReachableStep(pol: Policy, s: System, a: Action)
    requires Reachable(pol, s) && Enabled(pol, s, a)
    ensures Reachable(pol, Step(s, a))
  {
    hide Reachable, Step, Possible;
    First(pol, s, a, []);
    ReachableRun(pol, s, [a] + []);
  }
}
