/**
 * Every line of the supervision protocol is paid for in advance. A tariff says what a line, a
 * spawn and a dequeue cost; from it follows a price for every program counter, queue entry,
 * ticker slot and unit of crash budget. No step of the daemon costs more than the value it
 * removes, except the outside events, which bring their own credit. Different tariffs then
 * give different bounds on whole runs.
 */
module RestartBound {
  import opened Common
  import opened Restart
  import opened Supervisor
  import E = Environment

  /** `byTick`: a dequeued start is paid by the tick that dequeues it, not by its queue entry. */
  datatype Tariff = Tariff(perStep: nat, perSpawn: nat, perDequeue: nat, byTick: bool)

  /** What one dequeued start costs, up to and including everything its run will do. */
  function Start(t: Tariff): nat {
    24 * t.perStep + t.perSpawn + t.perDequeue
  }

  function Queued(t: Tariff): nat {
    if t.byTick then 0 else Start(t)
  }

  function TickHeld(t: Tariff): nat {
    t.perStep + (if t.byTick then Start(t) else 0)
  }

  /** A decided restart: its push, and the queue entry the push creates. */
  function Restarting(t: Tariff): nat {
    Queued(t) + t.perStep
  }

  function StarterWorth(t: Tariff, st: E.Starter): nat {
    match st
    case Polled => 23 * t.perStep + t.perSpawn
    case Requested => 22 * t.perStep + t.perSpawn
    case Preparing => 21 * t.perStep + t.perSpawn
    case Entering => 20 * t.perStep + t.perSpawn
    case Blocked => 19 * t.perStep + t.perSpawn
    case Raising => 18 * t.perStep + t.perSpawn
    case Installing(_) => 3 * t.perStep + t.perSpawn
    case Spawning(_) => 2 * t.perStep + t.perSpawn
    case Launching(_) => 0
    case Returned(_) => 0
  }

  function HandlerWorth(t: Tariff, kind: E.Kind, h: E.Handler): nat {
    match h
    case Unlaunched => 14 * t.perStep
    case Attaching => 13 * t.perStep
    case Waiting(_) => 12 * t.perStep
    case Judging(_) => 10 * t.perStep
    case Releasing(_) => 6 * t.perStep
    case Clearing(_) => 5 * t.perStep
    case Signalling(_) => if kind.Tty? then 4 * t.perStep else 11 * t.perStep
    case Calling(line, graceful, again) =>
      (match line
       case Resetting => 3 * t.perStep
       case PostExecution => 2 * t.perStep + (if graceful then Restarting(t) else 0)
       case Deciding => t.perStep + (if graceful then Restarting(t) else 0)
       case Requeueing => Restarting(t))
      + (if again then 6 * t.perStep else 0)
    case Finished => 0
  }

  function RunWorth(t: Tariff, kind: E.Kind, run: E.Run): nat {
    HandlerWorth(t, kind, run.handler) + (if E.Running(run.proc) then t.perStep else 0)
  }

  function StarterPrice(t: Tariff): E.Starter -> nat {
    (st: E.Starter) => StarterWorth(t, st)
  }

  function RunPrice(t: Tariff, kind: E.Kind): E.Run -> nat {
    (run: E.Run) => RunWorth(t, kind, run)
  }

  function EnvWorth(t: Tariff, e: E.Env): nat {
    Sum(e.starters, StarterPrice(t)) + Sum(e.runs, RunPrice(t, e.kind))
  }

  function ServerPrice(t: Tariff): Server -> nat {
    (v: Server) => EnvWorth(t, v.env)
  }

  /** Every crash restart the counter still allows. */
  function ProgramPrice(t: Tariff, limit: int): Program -> nat {
    (p: Program) => Budget(p.crashes, limit) * Restarting(t)
  }

  function ServiceWorth(t: Tariff, v: Service): nat {
    |v.queue| * Queued(t)
    + (if v.pending then TickHeld(t) + t.perStep else 0)
    + (match v.processor case Idle => 0 case Ticked => TickHeld(t) case Starting(_, _) => t.perStep)
  }

  /** What a state of the daemon is worth. */
  function Worth(t: Tariff, s: System): nat {
    Sum(s.servers, ServerPrice(t)) + Sum(s.programs, ProgramPrice(t, s.limit)) + ServiceWorth(t, s.service)
  }

  /** What callers of WaitForMainProcess and the output of a process do costs nothing. */
  predicate Outside(b: E.Action) {
    b.Watch? || b.Leave? || b.Silence?
  }

  /** The lines of the supervision protocol; the others are outside events, waiters and shutdown. */
  predicate Internal(a: Action) {
    || (a.Local? && !Outside(a.a))
    || a.Receive? || a.Pop? || a.Resume? || a.Reset? || a.Post? || a.Decide? || a.Requeue?
  }

  predicate Dequeues(a: Action) {
    a.Pop? && a.hit
  }

  function CostOf(t: Tariff, a: Action): nat {
    (if Internal(a) then t.perStep else 0) + (if Spawns(a) then t.perSpawn else 0)
    + (if Dequeues(a) then t.perDequeue else 0)
  }

  /** What the outside events bring in: a start request, a tick, a graceful exit. */
  function CreditOf(t: Tariff, limit: int, a: Action): nat {
    match a
    case Request(_) => 22 * t.perStep + t.perSpawn
    case Enqueue(_) => Queued(t)
    case Tick => TickHeld(t) + t.perStep
    case Reset(_, _, graceful) => if graceful then (Budget(0, limit) + 1) * Restarting(t) else 0
    case _ => 0
  }

  function Cost(t: Tariff): Action -> nat {
    (a: Action) => CostOf(t, a)
  }

  function Credit(t: Tariff, limit: int): Action -> nat {
    (a: Action) => CreditOf(t, limit, a)
  }

  // ---- One environment ----

  function EnvCost(t: Tariff, b: E.Action): nat {
    (if Outside(b) then 0 else t.perStep) + (if b.Spawn? && b.ok then t.perSpawn else 0)
  }

  lemma RunChange(t: Tariff, e: E.Env, r: nat, run: E.Run)
    requires r < |e.runs|
    ensures Sum(e.runs[r := run], RunPrice(t, e.kind)) + RunWorth(t, e.kind, e.runs[r])
            == Sum(e.runs, RunPrice(t, e.kind)) + RunWorth(t, e.kind, run)
  {
    SumUpdate(e.runs, r, run, RunPrice(t, e.kind));
  }

  lemma StarterChange(t: Tariff, e: E.Env, k: nat, st: E.Starter)
    requires k < |e.starters|
    ensures Sum(e.starters[k := st], StarterPrice(t)) + StarterWorth(t, e.starters[k])
            == Sum(e.starters, StarterPrice(t)) + StarterWorth(t, st)
  {
    SumUpdate(e.starters, k, st, StarterPrice(t));
  }

  /** A line of a starting goroutine that touches no run moves to a cheaper line. */
  lemma StarterLine(t: Tariff, e: E.Env, b: E.Action)
    requires E.Possible(e, b)
    requires b.Poll? || b.Check? || b.Prepare? || b.Enter? || b.PassWait? || b.Install?
    ensures E.Step(e, b).runs == e.runs && E.Step(e, b).kind == e.kind && |E.Step(e, b).starters| == |e.starters|
    ensures E.Step(e, b).starters == e.starters[b.k := E.Step(e, b).starters[b.k]]
    ensures StarterWorth(t, E.Step(e, b).starters[b.k]) + t.perStep <= StarterWorth(t, e.starters[b.k])
  {
  }

  lemma StarterPaid(t: Tariff, e: E.Env, b: E.Action)
    requires E.Possible(e, b)
    requires b.Poll? || b.Check? || b.Prepare? || b.Enter? || b.PassWait? || b.Install?
    ensures EnvWorth(t, E.Step(e, b)) + EnvCost(t, b) <= EnvWorth(t, e)
  {
    StarterLine(t, e, b);
    hide E.Step, StarterWorth;
    StarterChange(t, e, b.k, E.Step(e, b).starters[b.k]);
  }

  lemma RaisePaid(t: Tariff, e: E.Env, k: nat)
    requires E.Possible(e, E.Raise(k))
    ensures EnvWorth(t, E.Step(e, E.Raise(k))) + EnvCost(t, E.Raise(k)) <= EnvWorth(t, e)
  {
    var e', run := E.Step(e, E.Raise(k)), E.Run(E.Unspawned, false, E.Unlaunched);
    assert e'.runs == e.runs + [run] && e'.starters == e.starters[k := E.Installing(|e.runs|)] && e'.kind == e.kind;
    assert StarterWorth(t, E.Installing(|e.runs|)) + RunWorth(t, e.kind, run) + t.perStep
           <= StarterWorth(t, e.starters[k]);
    hide E.Step, StarterWorth, RunWorth;
    StarterChange(t, e, k, E.Installing(|e.runs|));
    SumAppend(e.runs, run, RunPrice(t, e.kind));
  }

  /** Spawning and launching move one starter and its run, and together get cheaper. */
  lemma SpawnLine(t: Tariff, e: E.Env, b: E.Action)
    requires E.Possible(e, b) && (b.Spawn? || b.Launch?)
    ensures var e', r := E.Step(e, b), e.starters[b.k].run;
            && e'.kind == e.kind && |e'.starters| == |e.starters| && |e'.runs| == |e.runs|
            && e'.starters == e.starters[b.k := e'.starters[b.k]] && e'.runs == e.runs[r := e'.runs[r]]
            && StarterWorth(t, e'.starters[b.k]) + RunWorth(t, e.kind, e'.runs[r]) + EnvCost(t, b)
               <= StarterWorth(t, e.starters[b.k]) + RunWorth(t, e.kind, e.runs[r])
  {
  }

  lemma SpawnPaid(t: Tariff, e: E.Env, b: E.Action)
    requires E.Possible(e, b) && (b.Spawn? || b.Launch?)
    ensures EnvWorth(t, E.Step(e, b)) + EnvCost(t, b) <= EnvWorth(t, e)
  {
    SpawnLine(t, e, b);
    hide E.Step, StarterWorth, RunWorth, EnvCost;
    var e', r := E.Step(e, b), e.starters[b.k].run;
    StarterChange(t, e, b.k, e'.starters[b.k]);
    RunChange(t, e, r, e'.runs[r]);
  }

  /** A line of a close handler, or the end of a process, leaves a cheaper run. */
  lemma HandlerLine(t: Tariff, e: E.Env, b: E.Action)
    requires E.Possible(e, b)
    requires b.Exit? || b.Attach? || b.WaitFails? || b.Judge? || b.Clear? || b.Signal?
    ensures E.Step(e, b).starters == e.starters && E.Step(e, b).kind == e.kind && |E.Step(e, b).runs| == |e.runs|
    ensures E.Step(e, b).runs == e.runs[b.r := E.Step(e, b).runs[b.r]]
    ensures RunWorth(t, e.kind, E.Step(e, b).runs[b.r]) + t.perStep <= RunWorth(t, e.kind, e.runs[b.r])
  {
  }

  lemma SilencePaid(t: Tariff, e: E.Env, r: nat)
    requires E.Possible(e, E.Silence(r))
    ensures EnvWorth(t, E.Step(e, E.Silence(r))) <= EnvWorth(t, e)
  {
    RunChange(t, e, r, E.Step(e, E.Silence(r)).runs[r]);
  }

  lemma HandlerPaid(t: Tariff, e: E.Env, b: E.Action)
    requires E.Possible(e, b)
    requires b.Exit? || b.Attach? || b.WaitFails? || b.Judge? || b.Clear? || b.Signal?
    ensures EnvWorth(t, E.Step(e, b)) + EnvCost(t, b) <= EnvWorth(t, e)
  {
    HandlerLine(t, e, b);
    hide E.Step, RunWorth;
    RunChange(t, e, b.r, E.Step(e, b).runs[b.r]);
  }

  /** Reaping makes one process worth nothing and moves one handler, perhaps of the same run. */
  lemma ReapLine(t: Tariff, e: E.Env, r: nat, ioErr: bool)
    requires E.Possible(e, E.Reap(r, ioErr))
    ensures var e', x := E.Step(e, E.Reap(r, ioErr)), e.runs[r].handler.target;
            var mid := E.WithProc(e, x, E.Reaped(e.runs[x].proc.ok));
            && e' == mid.(runs := mid.runs[r := e'.runs[r]])
            && |e'.runs| == |e.runs|
            && RunWorth(t, e.kind, mid.runs[x]) == RunWorth(t, e.kind, e.runs[x])
            && RunWorth(t, e.kind, e'.runs[r]) + t.perStep <= RunWorth(t, e.kind, mid.runs[r])
  {
  }

  lemma ReapPaid(t: Tariff, e: E.Env, r: nat, ioErr: bool)
    requires E.Possible(e, E.Reap(r, ioErr))
    ensures EnvWorth(t, E.Step(e, E.Reap(r, ioErr))) + EnvCost(t, E.Reap(r, ioErr)) <= EnvWorth(t, e)
  {
    ReapLine(t, e, r, ioErr);
    hide E.Step, RunWorth;
    var e' := E.Step(e, E.Reap(r, ioErr));
    var x := e.runs[r].handler.target;
    var mid := E.WithProc(e, x, E.Reaped(e.runs[x].proc.ok));
    RunChange(t, e, x, mid.runs[x]);
    RunChange(t, mid, r, e'.runs[r]);
  }

  /** Releasing a process changes no price. */
  lemma DetachWorth(t: Tariff, e: E.Env)
    ensures Sum(E.Detach(e).runs, RunPrice(t, e.kind)) == Sum(e.runs, RunPrice(t, e.kind))
    ensures |E.Detach(e).runs| == |e.runs| && E.Detach(e) == e.(runs := E.Detach(e).runs)
    ensures forall r :: 0 <= r < |e.runs| ==> E.Detach(e).runs[r].handler == e.runs[r].handler
  {
    if e.handle.Some? && e.handle.value < |e.runs| {
      RunChange(t, e, e.handle.value, E.Detach(e).runs[e.handle.value]);
    }
  }

  lemma ReleasePaid(t: Tariff, e: E.Env, r: nat)
    requires E.Possible(e, E.Release(r))
    ensures EnvWorth(t, E.Step(e, E.Release(r))) + EnvCost(t, E.Release(r)) <= EnvWorth(t, e)
  {
    DetachWorth(t, e);
    hide E.Detach;
    RunChange(t, E.Detach(e), r, E.Step(e, E.Release(r)).runs[r]);
  }

  /** Everything an environment does on its own is paid for. */
  lemma LocalPaid(t: Tariff, e: E.Env, b: E.Action)
    requires E.Possible(e, b) && !b.Arrive? && !b.Advance?
    ensures EnvWorth(t, E.Step(e, b)) + EnvCost(t, b) <= EnvWorth(t, e)
  {
    match b
    case Raise(k) => RaisePaid(t, e, k);
    case Spawn(_, _) => SpawnPaid(t, e, b);
    case Launch(_) => SpawnPaid(t, e, b);
    case Reap(r, ioErr) => ReapPaid(t, e, r, ioErr);
    case Release(r) => ReleasePaid(t, e, r);
    case Exit(_, _) => HandlerPaid(t, e, b);
    case Attach(_) => HandlerPaid(t, e, b);
    case WaitFails(_) => HandlerPaid(t, e, b);
    case Judge(_) => HandlerPaid(t, e, b);
    case Clear(_) => HandlerPaid(t, e, b);
    case Signal(_) => HandlerPaid(t, e, b);
    case Silence(r) => SilencePaid(t, e, r);
    case Watch =>
    case Leave(_) =>
    case _ => StarterPaid(t, e, b);
  }

  // ---- The whole daemon ----

  lemma OneMore(n: int, m: int)
    ensures (n + 1) * m == n * m + m
  {
  }

  lemma ServerChange(t: Tariff, servers: seq<Server>, at: nat, e: E.Env)
    requires at < |servers|
    ensures Sum(servers[at := servers[at].(env := e)], ServerPrice(t)) + EnvWorth(t, servers[at].env)
            == Sum(servers, ServerPrice(t)) + EnvWorth(t, e)
  {
    SumUpdate(servers, at, servers[at].(env := e), ServerPrice(t));
  }

  lemma ProgramChange(t: Tariff, limit: int, programs: seq<Program>, p: nat, x: Program)
    requires p < |programs|
    ensures Sum(programs[p := x], ProgramPrice(t, limit)) + Budget(programs[p].crashes, limit) * Restarting(t)
            == Sum(programs, ProgramPrice(t, limit)) + Budget(x.crashes, limit) * Restarting(t)
  {
    SumUpdate(programs, p, x, ProgramPrice(t, limit));
  }

  lemma LocalStepPaid(t: Tariff, s: System, a: Action)
    requires Possible(s, a) && a.Local?
    ensures Worth(t, Step(s, a)) + CostOf(t, a) <= Worth(t, s)
  {
    LocalPaid(t, s.servers[a.at].env, a.a);
    ServerChange(t, s.servers, a.at, E.Step(s.servers[a.at].env, a.a));
    hide EnvWorth, E.Step;
  }

  /** A start that arrives at an environment. */
  lemma ArriveWorth(t: Tariff, servers: seq<Server>, at: nat, polled: bool)
    requires at < |servers|
    ensures Sum(servers[at := servers[at].(env := E.Step(servers[at].env, E.Arrive(polled)))], ServerPrice(t))
            == Sum(servers, ServerPrice(t)) + StarterWorth(t, if polled then E.Polled else E.Requested)
  {
    var e := servers[at].env;
    SumAppend(e.starters, if polled then E.Polled else E.Requested, StarterPrice(t));
    ServerChange(t, servers, at, E.Step(e, E.Arrive(polled)));
  }

  lemma RequestPaid(t: Tariff, s: System, p: nat)
    requires Possible(s, Request(p))
    ensures Worth(t, Step(s, Request(p))) <= Worth(t, s) + CreditOf(t, s.limit, Request(p))
  {
    ArriveWorth(t, s.servers, s.programs[p].env, false);
    hide EnvWorth, E.Step, ServiceWorth;
  }

  /** A dequeue turns a queue entry (or a tick) into a start. */
  lemma PopPaid(t: Tariff, s: System, hit: bool)
    requires Possible(s, Pop(hit))
    ensures Worth(t, Step(s, Pop(hit))) + CostOf(t, Pop(hit)) <= Worth(t, s)
  {
    hide EnvWorth, E.Step, Sum;
    PopService(t, s, hit);
    if hit {
      ArriveWorth(t, s.servers, s.programs[s.service.queue[0]].env, true);
    }
    hide ServiceWorth;
  }

  lemma PopService(t: Tariff, s: System, hit: bool)
    requires Possible(s, Pop(hit))
    ensures ServiceWorth(t, ServiceAfter(s, Pop(hit))) + TickHeld(t) + (if hit then Queued(t) else 0)
            == ServiceWorth(t, s.service) + (if hit then t.perStep else 0)
  {
    if hit { OneMore(|s.service.queue| - 1, Queued(t)); }
  }

  /** The ticker, the processor loop and outside pushes. */
  lemma ServicePaid(t: Tariff, s: System, a: Action)
    requires Possible(s, a) && (a.Enqueue? || a.Tick? || a.Receive? || a.Resume? || a.ShutdownService?)
    ensures Worth(t, Step(s, a)) + CostOf(t, a) <= Worth(t, s) + CreditOf(t, s.limit, a)
  {
    OneMore(|s.service.queue|, Queued(t));
  }

  /** One line of a callback, seen from its environment. */
  lemma AdvanceWorth(t: Tariff, servers: seq<Server>, at: nat, r: nat, to: E.Handler)
    requires at < |servers| && E.Possible(servers[at].env, E.Advance(r, to))
    ensures var e := servers[at].env;
            var after := servers[at := servers[at].(env := E.Step(e, E.Advance(r, to)))];
            Sum(after, ServerPrice(t)) + HandlerWorth(t, e.kind, e.runs[r].handler)
            == Sum(servers, ServerPrice(t)) + HandlerWorth(t, e.kind, to)
  {
    var e := servers[at].env;
    var e' := E.Step(e, E.Advance(r, to));
    RunChange(t, e, r, e'.runs[r]);
    ServerChange(t, servers, at, e');
  }

  lemma CallbackServers(t: Tariff, s: System, a: Action)
    requires Possible(s, a) && IsCallback(a)
    ensures var e := s.servers[a.at].env;
            Sum(ServersAfter(s, a), ServerPrice(t)) + HandlerWorth(t, e.kind, e.runs[a.r].handler)
            == Sum(s.servers, ServerPrice(t)) + HandlerWorth(t, e.kind, CallbackTo(s, a))
  {
    EnvPartPossible(s, a);
    AdvanceWorth(t, s.servers, a.at, a.r, CallbackTo(s, a));
  }

  /** What the callback line itself is worth: a graceful reset gains, a decided restart is drawn. */
  lemma CallbackLine(t: Tariff, s: System, a: Action)
    requires Possible(s, a) && IsCallback(a)
    ensures var e := s.servers[a.at].env;
            var h := e.runs[a.r].handler;
            HandlerWorth(t, e.kind, CallbackTo(s, a)) + t.perStep
            <= HandlerWorth(t, e.kind, h)
               + (if a.Reset? && a.graceful then Restarting(t) else 0)
               + (if a.Decide? && CrashRestart(Owner(s, a.at).config, Owner(s, a.at).crashes, s.limit, h.graceful)
                  then Restarting(t) else 0)
               - (if a.Requeue? then Queued(t) else 0)
  {
  }

  /** What it does to the crash budgets: a reset may restore them, a crash restart uses up one unit. */
  lemma CallbackBudget(t: Tariff, s: System, a: Action)
    requires Possible(s, a) && IsCallback(a)
    ensures var h := s.servers[a.at].env.runs[a.r].handler;
            Sum(ProgramsAfter(s, a), ProgramPrice(t, s.limit))
            + (if a.Decide? && CrashRestart(Owner(s, a.at).config, Owner(s, a.at).crashes, s.limit, h.graceful)
               then Restarting(t) else 0)
            <= Sum(s.programs, ProgramPrice(t, s.limit))
               + (if a.Reset? && a.graceful then Budget(0, s.limit) * Restarting(t) else 0)
  {
    var p := s.servers[a.at].owner;
    var c, c' := s.programs[p].crashes, ProgramsAfter(s, a)[p].crashes;
    if a.Reset? || a.Decide? {
      ProgramChange(t, s.limit, s.programs, p, ProgramsAfter(s, a)[p]);
      if c' == c + 1 { OneMore(Budget(c, s.limit) - 1, Restarting(t)); }
    }
  }

  lemma CallbackService(t: Tariff, s: System, a: Action)
    requires Possible(s, a) && IsCallback(a)
    ensures ServiceWorth(t, ServiceAfter(s, a)) <= ServiceWorth(t, s.service) + (if a.Requeue? then Queued(t) else 0)
  {
    OneMore(|s.service.queue|, Queued(t));
  }

  lemma CallbackPaid(t: Tariff, s: System, a: Action)
    requires Possible(s, a) && IsCallback(a)
    ensures Worth(t, Step(s, a)) + CostOf(t, a) <= Worth(t, s) + CreditOf(t, s.limit, a)
  {
    hide Possible, HandlerWorth, ServersAfter, ProgramsAfter, ServiceAfter, CallbackTo, CrashRestart, ServiceWorth,
      StoppersAfter, GroupAfter, Sum;
    CallbackServers(t, s, a);
    CallbackLine(t, s, a);
    CallbackBudget(t, s, a);
    CallbackService(t, s, a);
    OneMore(Budget(0, s.limit), Restarting(t));
  }

  lemma ReloadPaid(t: Tariff, s: System, a: Action)
    requires Possible(s, a) && a.Reload?
    ensures Worth(t, Step(s, a)) <= Worth(t, s)
  {
    SumAppend(s.servers, Server(a.p, E.Fresh(a.kind)), ServerPrice(t));
    ProgramChange(t, s.limit, s.programs, a.p, ProgramsAfter(s, a)[a.p]);
  }

  /** A shutdown goroutine only ever adds a waiter. */
  lemma StopperPaid(t: Tariff, s: System, a: Action)
    requires Possible(s, a) && (a.Collect? || StopperMoves(a))
    ensures Worth(t, Step(s, a)) <= Worth(t, s)
  {
    StopperServers(t, s, a);
    hide Possible, ServersAfter, StopperTo, StoppersAfter, GroupAfter, EnvWorth, ServiceWorth, Sum;
  }

  lemma StopperServers(t: Tariff, s: System, a: Action)
    requires Possible(s, a) && (a.Collect? || StopperMoves(a))
    ensures Sum(ServersAfter(s, a), ServerPrice(t)) <= Sum(s.servers, ServerPrice(t))
  {
    hide StopperTo, EnvWorth, E.Step, Sum;
    if EnvPart(s, a).Some? {
      var e := Current(s, a.i);
      LocalPaid(t, e, E.Watch);
      ServerChange(t, s.servers, s.programs[a.i].env, E.Step(e, E.Watch));
    }
  }

  /** No step costs more than the value it removes and the credit it brings. */
  lemma StepPaid(t: Tariff, s: System, a: Action)
    requires Possible(s, a)
    ensures Worth(t, Step(s, a)) + CostOf(t, a) <= Worth(t, s) + CreditOf(t, s.limit, a)
  {
    hide Worth, Step, Possible;
    match a
    case Local(_, _) => LocalStepPaid(t, s, a);
    case Request(p) => RequestPaid(t, s, p);
    case Pop(hit) => PopPaid(t, s, hit);
    case Reset(_, _, _) => CallbackPaid(t, s, a);
    case Post(_, _, _) => CallbackPaid(t, s, a);
    case Decide(_, _) => CallbackPaid(t, s, a);
    case Requeue(_, _) => CallbackPaid(t, s, a);
    case Reload(_, _, _) => ReloadPaid(t, s, a);
    case Enqueue(_) => ServicePaid(t, s, a);
    case Tick => ServicePaid(t, s, a);
    case Receive => ServicePaid(t, s, a);
    case Resume => ServicePaid(t, s, a);
    case ShutdownService => ServicePaid(t, s, a);
    case _ => StopperPaid(t, s, a);
  }

  /** Over a whole run: what was paid out is covered by what was there and what came in. */
  lemma {:induction false} RunPaid(t: Tariff, pol: Policy, s: System, acts: seq<Action>)
    requires Legal(pol, s, acts)
    ensures Worth(t, Exec(pol, s, acts)) + Sum(acts, Cost(t)) <= Worth(t, s) + Sum(acts, Credit(t, s.limit))
    decreases acts
  {
    if acts != [] {
      StepPaid(t, s, acts[0]);
      RunPaid(t, pol, Step(s, acts[0]), acts[1..]);
    }
  }
}
