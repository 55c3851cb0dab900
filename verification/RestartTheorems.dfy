/** Bounds on whole runs of the daemon, each an instance of RestartBound.RunPaid. */
module RestartTheorems {
  import opened Common
  import opened Restart
  import opened Supervisor
  import opened RestartBound
  import E = Environment

  // ---- Counting actions ----

  function One(b: bool): nat {
    if b then 1 else 0
  }

  /** Successful process spawns. */
  function SpawnCount(): Action -> nat {
    (a: Action) => One(Spawns(a))
  }

  /** Dequeues that found a program. */
  function DequeueCount(): Action -> nat {
    (a: Action) => One(Dequeues(a))
  }

  function InternalCount(): Action -> nat {
    (a: Action) => One(Internal(a))
  }

  /** Direct starts and pushes from outside the callbacks. */
  function OutsideCount(): Action -> nat {
    (a: Action) => One(a.Request? || a.Enqueue?)
  }

  function RequestCount(): Action -> nat {
    (a: Action) => One(a.Request?)
  }

  function TickCount(): Action -> nat {
    (a: Action) => One(a.Tick?)
  }

  function GracefulCount(): Action -> nat {
    (a: Action) => One(a.Reset? && a.graceful)
  }

  lemma {:induction false} SumAtMost<T>(s: seq<T>, f: T -> nat, g: T -> nat, h: T -> nat, m: nat)
    requires forall x :: f(x) <= g(x) + m * h(x)
    ensures Sum(s, f) <= Sum(s, g) + m * Sum(s, h)
  {
    if s != [] {
      SumAtMost(s[1..], f, g, h, m);
      assert m * (h(s[0]) + Sum(s[1..], h)) == m * h(s[0]) + m * Sum(s[1..], h);
    }
  }

  // ---- Restarts terminate ----

  /**
   * The starts a state still has outstanding: queued or unfinished starts, decided restarts,
   * and every crash restart the counters still allow.
   */
  function Outstanding(s: System): nat {
    Worth(Tariff(0, 1, 0, false), s)
  }

  /**
   * On every run, the processes spawned are at most the outstanding starts, plus one for every
   * outside request, plus limit + 1 for every graceful exit (its own restart, and the crash
   * budget it restores) — whatever the interleaving, the environment kind, or the number of
   * callbacks per exit.
   */
  lemma StartsBounded(pol: Policy, s: System, acts: seq<Action>)
    requires Legal(pol, s, acts)
    ensures Sum(acts, SpawnCount())
            <= Outstanding(s) + Sum(acts, OutsideCount()) + (Max(0, s.limit) + 1) * Sum(acts, GracefulCount())
  {
    hide Legal, Exec, Worth, CostOf, CreditOf, Sum;
    RunPaid(Tariff(0, 1, 0, false), pol, s, acts);
    SpawnsCost(acts, false);
    StartCredit(s.limit, acts);
  }

  lemma SpawnsCost(acts: seq<Action>, byTick: bool)
    ensures Sum(acts, SpawnCount()) <= Sum(acts, Cost(Tariff(0, 1, 0, byTick)))
  {
    SumAtMost(acts, SpawnCount(), Cost(Tariff(0, 1, 0, byTick)), SpawnCount(), 0);
  }

  lemma StartCredit(limit: int, acts: seq<Action>)
    ensures Sum(acts, Credit(Tariff(0, 1, 0, false), limit))
            <= Sum(acts, OutsideCount()) + (Max(0, limit) + 1) * Sum(acts, GracefulCount())
  {
    SumAtMost(acts, Credit(Tariff(0, 1, 0, false), limit), OutsideCount(), GracefulCount(), Max(0, limit) + 1);
  }

  /** No start, callback or tick is in progress. */
  predicate Calm(s: System) {
    && s.service.processor.Idle? && !s.service.pending
    && (forall at :: 0 <= at < |s.servers| ==> CalmEnv(s.servers[at].env))
  }

  predicate CalmEnv(e: E.Env) {
    && (forall k :: 0 <= k < |e.starters| ==> e.starters[k].Returned?)
    && (forall r :: 0 <= r < |e.runs| ==> !e.runs[r].handler.Calling?)
  }

  lemma CalmEnvWorth(e: E.Env)
    requires CalmEnv(e)
    ensures EnvWorth(Tariff(0, 1, 0, false), e) == 0
  {
    var t := Tariff(0, 1, 0, false);
    SumOfZeros(e.starters, StarterPrice(t));
    SumOfZeros(e.runs, RunPrice(t, e.kind));
  }

  function BudgetCount(limit: int): Program -> nat {
    (p: Program) => Max(0, limit - p.crashes)
  }

  /** In a calm state the outstanding starts are the queue and the remaining crash budgets. */
  lemma OutstandingWhenCalm(s: System)
    requires Calm(s)
    ensures Outstanding(s) == |s.service.queue| + Sum(s.programs, BudgetCount(s.limit))
  {
    var t := Tariff(0, 1, 0, false);
    forall at | 0 <= at < |s.servers| ensures ServerPrice(t)(s.servers[at]) == 0 {
      CalmEnvWorth(s.servers[at].env);
    }
    hide EnvWorth;
    SumOfZeros(s.servers, ServerPrice(t));
    SumAtMost(s.programs, ProgramPrice(t, s.limit), BudgetCount(s.limit), BudgetCount(s.limit), 0);
    SumAtMost(s.programs, BudgetCount(s.limit), ProgramPrice(t, s.limit), BudgetCount(s.limit), 0);
  }

  /** From a calm state, without outside requests and graceful exits, further starts are bounded. */
  lemma CrashRestartsBounded(pol: Policy, s: System, acts: seq<Action>)
    requires Legal(pol, s, acts) && Calm(s)
    requires Sum(acts, OutsideCount()) == 0 && Sum(acts, GracefulCount()) == 0
    ensures Sum(acts, SpawnCount()) <= |s.service.queue| + Sum(s.programs, BudgetCount(s.limit))
  {
    StartsBounded(pol, s, acts);
    OutstandingWhenCalm(s);
  }

  /**
   * Termination at line level: every line executed by the protocol is paid for by the starting
   * state, two lines for each tick, 24 for each outside request, and a fixed amount for each
   * graceful exit. Without the last two, only ticks on an empty queue can go on for ever.
   */
  lemma WorkBounded(pol: Policy, s: System, acts: seq<Action>)
    requires Legal(pol, s, acts)
    ensures Sum(acts, InternalCount())
            <= Worth(Tariff(1, 0, 0, false), s) + 2 * Sum(acts, TickCount()) + 24 * Sum(acts, OutsideCount())
               + 25 * (Max(0, s.limit) + 1) * Sum(acts, GracefulCount())
  {
    hide Legal, Exec, Possible, WellFormed;
    hide Worth, CostOf, CreditOf, Sum;
    RunPaid(Tariff(1, 0, 0, false), pol, s, acts);
    InternalCost(acts);
    WorkCredit(s.limit, acts);
  }

  lemma InternalCost(acts: seq<Action>)
    ensures Sum(acts, InternalCount()) <= Sum(acts, Cost(Tariff(1, 0, 0, false)))
  {
    SumAtMost(acts, InternalCount(), Cost(Tariff(1, 0, 0, false)), InternalCount(), 0);
  }

  function TickAndOutside(): Action -> nat {
    (a: Action) => 2 * One(a.Tick?) + 24 * One(a.Request? || a.Enqueue?)
  }

  lemma WorkCredit(limit: int, acts: seq<Action>)
    ensures Sum(acts, Credit(Tariff(1, 0, 0, false), limit))
            <= 2 * Sum(acts, TickCount()) + 24 * Sum(acts, OutsideCount())
               + 25 * (Max(0, limit) + 1) * Sum(acts, GracefulCount())
  {
    var m := 25 * (Max(0, limit) + 1);
    assert forall a :: Credit(Tariff(1, 0, 0, false), limit)(a) <= TickAndOutside()(a) + m * GracefulCount()(a) by {
      assert (Max(0, limit) + 1) * 25 == m;
    }
    SumAtMost(acts, Credit(Tariff(1, 0, 0, false), limit), TickAndOutside(), GracefulCount(), m);
    TickAndOutsideSum(acts);
  }

  lemma {:induction false} TickAndOutsideSum(acts: seq<Action>)
    ensures Sum(acts, TickAndOutside()) == 2 * Sum(acts, TickCount()) + 24 * Sum(acts, OutsideCount())
  {
    if acts != [] {
      TickAndOutsideSum(acts[1..]);
    }
  }

  // ---- After ShutdownService ----

  lemma {:induction false} StoppedForGood(pol: Policy, s: System, acts: seq<Action>)
    requires Legal(pol, s, acts) && s.service.stopped && !s.service.running
    ensures Sum(acts, TickCount()) == 0
    ensures Exec(pol, s, acts).service.stopped && !Exec(pol, s, acts).service.running
    decreases acts
  {
    if acts != [] {
      StoppedForGood(pol, Step(s, acts[0]), acts[1..]);
    }
  }

  /** After ShutdownService at most two more programs are dequeued: the ticker slot and a tick in hand. */
  lemma DequeuesAfterShutdown(pol: Policy, s: System, acts: seq<Action>)
    requires Legal(pol, s, acts) && s.service.stopped && !s.service.running
    ensures Sum(acts, DequeueCount()) <= One(s.service.pending) + One(s.service.processor.Ticked?) <= 2
  {
    hide Legal, Exec, Possible, WellFormed;
    hide Worth, CostOf, CreditOf, Sum;
    RunPaid(Tariff(0, 0, 1, true), pol, s, acts);
    StoppedForGood(pol, s, acts);
    DequeuesCost(s.limit, acts);
    SlotsWorth(s);
  }

  lemma DequeuesCost(limit: int, acts: seq<Action>)
    ensures Sum(acts, DequeueCount()) <= Sum(acts, Cost(Tariff(0, 0, 1, true)))
    ensures Sum(acts, Credit(Tariff(0, 0, 1, true), limit)) <= Sum(acts, TickCount())
  {
    var t := Tariff(0, 0, 1, true);
    forall a: Action ensures DequeueCount()(a) <= Cost(t)(a) + 0 * DequeueCount()(a) {
    }
    SumAtMost(acts, DequeueCount(), Cost(t), DequeueCount(), 0);
    forall a: Action ensures Credit(t, limit)(a) <= TickCount()(a) + 0 * TickCount()(a) {
      TickCredit(limit, a);
    }
    SumAtMost(acts, Credit(t, limit), TickCount(), TickCount(), 0);
  }

  lemma TickCredit(limit: int, a: Action)
    ensures CreditOf(Tariff(0, 0, 1, true), limit, a) == One(a.Tick?)
  {
    assert (Max(0, limit) + 1) * 0 == 0;
  }

  /** When ticks pay for starts, crash budgets are worth nothing without a price per line. */
  lemma BudgetsFree(t: Tariff, s: System)
    requires t.perStep == 0 && t.byTick
    ensures Sum(s.programs, ProgramPrice(t, s.limit)) == 0
    ensures ServiceWorth(t, s.service) == (One(s.service.pending) + One(s.service.processor.Ticked?)) * Start(t)
  {
    SumOfZeros(s.programs, ProgramPrice(t, s.limit));
  }

  lemma RunsFree(t: Tariff, e: E.Env)
    requires t.perStep == 0 && t.byTick
    ensures Sum(e.runs, RunPrice(t, e.kind)) == 0
  {
    SumOfZeros(e.runs, RunPrice(t, e.kind));
  }

  /** Priced by dequeues alone, a state is worth its ticker slot and its tick in hand. */
  lemma SlotsWorth(s: System)
    ensures Worth(Tariff(0, 0, 1, true), s) == One(s.service.pending) + One(s.service.processor.Ticked?)
  {
    var t := Tariff(0, 0, 1, true);
    BudgetsFree(t, s);
    hide ServiceWorth, RunWorth;
    forall at | 0 <= at < |s.servers| ensures ServerPrice(t)(s.servers[at]) == 0 {
      RunsFree(t, s.servers[at].env);
      SumOfZeros(s.servers[at].env.starters, StarterPrice(t));
    }
    SumOfZeros(s.servers, ServerPrice(t));
  }

  /** A goroutine that can still spawn: it is before line 66 of ExecuteAsync. */
  function PreSpawnCount(): E.Starter -> nat {
    (st: E.Starter) => One(!st.Launching? && !st.Returned?)
  }

  function PreSpawns(): Server -> nat {
    (v: Server) => Sum(v.env.starters, PreSpawnCount())
  }

  /**
   * After ShutdownService nothing is revived: the processes spawned are at most the starts already
   * under way, the ticks already delivered (at most two), and later direct start requests.
   */
  lemma StartsAfterShutdown(pol: Policy, s: System, acts: seq<Action>)
    requires Legal(pol, s, acts) && s.service.stopped && !s.service.running
    ensures Sum(acts, SpawnCount())
            <= Sum(s.servers, PreSpawns()) + One(s.service.pending) + One(s.service.processor.Ticked?)
               + Sum(acts, RequestCount())
  {
    hide Legal, Exec, Possible, WellFormed;
    hide Worth, CostOf, CreditOf, Sum;
    RunPaid(Tariff(0, 1, 0, true), pol, s, acts);
    StoppedForGood(pol, s, acts);
    StartsWorth(s);
    SpawnsCost(acts, true);
    RequestCredit(s.limit, acts);
  }

  lemma RequestCredit(limit: int, acts: seq<Action>)
    ensures Sum(acts, Credit(Tariff(0, 1, 0, true), limit))
            <= Sum(acts, RequestCount()) + Sum(acts, TickCount())
  {
    forall a: Action
      ensures Credit(Tariff(0, 1, 0, true), limit)(a) <= RequestCount()(a) + 1 * TickCount()(a)
    {
      FreeGraceful(limit, a);
    }
    SumAtMost(acts, Credit(Tariff(0, 1, 0, true), limit), RequestCount(), TickCount(), 1);
  }

  lemma FreeGraceful(limit: int, a: Action)
    ensures CreditOf(Tariff(0, 1, 0, true), limit, a) == One(a.Request?) + One(a.Tick?)
  {
    assert (Max(0, limit) + 1) * 0 == 0;
  }

  lemma PreSpawnsWorth(v: Server)
    ensures EnvWorth(Tariff(0, 1, 0, true), v.env) <= PreSpawns()(v)
  {
    var t := Tariff(0, 1, 0, true);
    SumAtMost(v.env.starters, StarterPrice(t), PreSpawnCount(), PreSpawnCount(), 0);
    RunsFree(t, v.env);
  }

  /** Priced by spawns that ticks pay for, it is worth the starts under way and those two ticks. */
  lemma StartsWorth(s: System)
    ensures Worth(Tariff(0, 1, 0, true), s)
            <= Sum(s.servers, PreSpawns()) + One(s.service.pending) + One(s.service.processor.Ticked?)
  {
    var t := Tariff(0, 1, 0, true);
    BudgetsFree(t, s);
    hide EnvWorth, ServiceWorth;
    forall v: Server ensures ServerPrice(t)(v) <= PreSpawns()(v) + 0 * PreSpawns()(v) {
      PreSpawnsWorth(v);
    }
    SumAtMost(s.servers, ServerPrice(t), PreSpawns(), PreSpawns(), 0);
  }
}
