/** What holds in every world some run of the scheduler reaches. */
module Guarantees {
  import opened Types
  import opened World
  import opened Invariant
  import opened EnqueueProofs
  import opened Preservation
  import opened Delivery

  /** No lost tenant: a lane with queued work is flagged and its tenant is in the ring of its own shard. */
  lemma NoLostTenant(cfg: Config, clock: Clock, w: World, t: Tenant, p: Priority)
    requires Reachable(cfg, clock, w)
    ensures w.shards != []
    ensures HomeState(w, t).queues.At(p) != [] ==> HomeState(w, t).active.At(p)
    ensures HomeState(w, t).active.At(p) ==> t in RingOf(w, t, p)
  {
    hide Inv, HomeState;
    ReachableInv(cfg, clock, w);
    InvAtLane(cfg, w, t, p);
  }

  function Fates(w: World, id: Id): nat {
    var b := w.books;
    (if id in b.pending then 1 else 0) + (if id in b.history.dispatched then 1 else 0) +
    (if id in b.history.expired then 1 else 0) + (if id in b.history.evicted then 1 else 0) +
    (if id in b.history.withdrawn then 1 else 0)
  }

  /** Every id handed out has exactly one fate, and an id is queued exactly while it is pending or its
      cancel marker waits to be collected; never both. */
  lemma SingleOutcome(cfg: Config, clock: Clock, w: World, id: Id)
    requires Reachable(cfg, clock, w)
    ensures w.shards != []
    ensures Fates(w, id) == if 1 <= id <= w.books.nextId then 1 else 0
    ensures (exists t, p: Priority :: id in Ids(HomeState(w, t).queues.At(p))) <==> Queued(w.books, id)
    ensures !(id in w.books.pending && id in w.books.cancelled)
  {
    hide LaneOk, HomeState, TenantInvAt, Homed, RingsKnown, CountersOk;
    ReachableInv(cfg, clock, w);
    var b := w.books;
    assert id in b.history.accepted.Keys <==> 1 <= id <= b.nextId;
    if Queued(b, id) {
      assert id in b.history.accepted;
      var a := b.history.accepted[id];
      InvAtLane(cfg, w, a.tenant, a.task.priority);
      assert id in Ids(HomeState(w, a.tenant).queues.At(a.task.priority)) by { LaneComplete(HomeState(w, a.tenant).queues.At(a.task.priority), a.tenant, a.task.priority, b, id); }
    }
    forall t, p: Priority | id in Ids(HomeState(w, t).queues.At(p)) ensures Queued(b, id) {
      InvAtLane(cfg, w, t, p);
      QueuedIds(HomeState(w, t).queues.At(p), t, p, b, id);
    }
  }

  lemma LaneComplete(q: seq<Entry>, t: Tenant, p: Priority, b: Books, id: Id)
    requires LaneOk(q, t, p, b) && Queued(b, id) && OfLane(b.history, id, t, p)
    ensures id in Ids(q)
  {
  }

  lemma QueuedIds(q: seq<Entry>, t: Tenant, p: Priority, b: Books, id: Id)
    requires LaneOk(q, t, p, b) && id in Ids(q)
    ensures Queued(b, id)
  {
  }

  /** Conservation: every accepted task is still counted somewhere, and so is every drop. */
  lemma Conservation(cfg: Config, clock: Clock, w: World)
    requires Reachable(cfg, clock, w)
    ensures var s := w.books.stats;
            && s.enqueued == s.dequeued + s.expired + s.droppedPolicy + |w.books.history.withdrawn| + s.queueLen
            && s.dropped == s.rejectedGlobal + s.rejectedTenant + s.timeoutRejected + s.droppedPolicy
            && s.queueLen == |w.books.pending| <= cfg.maxGlobal
  {
    hide TenantInvAt, Homed, RingsKnown;
    ReachableInv(cfg, clock, w);
    var b, h := w.books, w.books.history;
    FiveParts(b.pending, h.dispatched, h.expired, h.evicted, h.withdrawn);
  }

  lemma FiveParts<T>(a: set<T>, b: set<T>, c: set<T>, d: set<T>, e: set<T>)
    requires a !! b !! c !! d !! e
    ensures |a + b + c + d + e| == |a| + |b| + |c| + |d| + |e|
  {
  }

  /** The per-tenant limit binds what is physically queued, dead entries included, under every policy. */
  lemma TenantLimit(cfg: Config, clock: Clock, w: World, t: Tenant)
    requires Reachable(cfg, clock, w)
    ensures w.shards != []
    ensures HomeState(w, t).TotalLen() <= cfg.maxPerTenant
  {
    hide BooksOk, TenantOk, HomeState, Homed, RingsKnown;
    ReachableInv(cfg, clock, w);
    assert TenantInvAt(cfg, w, t);
  }

  // ---------------------------------------------------------------- deficits

  /** Every quantum tenant `t` could be given by the settings is at most `quantum`. */
  ghost predicate SettingsWithin(q: Quanta, t: Tenant, quantum: nat) {
    && q.base <= quantum
    && (t in q.overrides ==> q.overrides[t] <= quantum)
    && (q.provider.Some? ==> q.provider.value(t) <= quantum)
  }

  ghost predicate MoveWithin(m: Move, t: Tenant, quantum: nat) {
    match m
    case SetQuantumMove(x, q) => x == t ==> q <= quantum
    case SetProviderMove(f) => f.Some? ==> f.value(t) <= quantum
    case _ => true
  }

  /** Tenant `t`'s quantum is, and its refills were, at least 1 and at most `quantum`. */
  ghost predicate QuantaOk(w: World, t: Tenant, quantum: nat)
    requires w.shards != []
  {
    && SettingsWithin(w.quanta, t, quantum)
    && 1 <= HomeState(w, t).quantum <= quantum
    && (forall p: Priority :: RefillsWithin(w.books.history.log, t, p, quantum))
  }

  lemma QuantumWithin(q: Quanta, t: Tenant, quantum: nat)
    requires SettingsWithin(q, t, quantum) && 1 <= quantum <= I64_MAX
    ensures 1 <= AsI64(QuantumFor(q, t)) <= quantum
  {
  }

  lemma EnqueueKeepsQuanta(cfg: Config, clock: Clock, w: World, x: Tenant, task: Task, t: Tenant, quantum: nat)
    requires Inv(cfg, w) && QuantaOk(w, t, quantum)
    ensures QuantaOk(Enqueue(cfg, clock, w, x, task), t, quantum)
  {
    hide Admit, BooksOk, TenantInvAt, RecordReject, QuantumFor, AsI64;
    var d := Draft(HomeState(w, x), w.books, w.samples);
    var a := AdmissionOf(cfg, clock, w, x, task);
    HomeDraftOk(cfg, w, x);
    AdmitKeeps(cfg, clock, d, x, task);
    EnqueueKeepsLog(cfg, clock, w, x, task);
    assert a.draft.state.quantum == d.state.quantum by { hide SameLane; }
  }

  lemma VisitKeepsQuanta(cfg: Config, clock: Clock, w: World, i: nat, p: Priority, t: Tenant, quantum: nat)
    requires Inv(cfg, w) && CanVisit(w, i, p) && QuantaOk(w, t, quantum)
    ensures QuantaOk(VisitRing(clock, w, i, p).world, t, quantum)
  {
    hide BooksOk, TenantInvAt, TakeTurn, VisitOk, TurnPre, QuantumFor, AsI64;
    VisitLogs(cfg, clock, w, i, p);
    RingHead(cfg, w, i, p);
    var x := w.shards[i].rings.At(p)[0];
    TurnKeepsQuantum(clock, w.shards[i].tenants[x], w.books, w.samples, x, p);
    var w' := VisitRing(clock, w, i, p).world;
    var log, log' := w.books.history.log, w'.books.history.log;
    assert HomeState(w', t).quantum == HomeState(w, t).quantum;
    forall p2: Priority ensures RefillsWithin(log', t, p2, quantum) {
      assert RefillsWithin(log, t, p2, quantum);
    }
  }

  lemma TurnKeepsQuantum(clock: Clock, ts: TenantState, b: Books, samples: nat, t: Tenant, p: Priority)
    ensures var turn := TakeTurn(clock, ts, b, samples, t, p);
            && turn.state.quantum == ts.quantum
            && turn.books.history.log.Then?
            && (turn.books.history.log.visit.outcome.Refilled? ==> turn.books.history.log.visit.outcome.quantum == ts.quantum)
  {
    hide Reap, ChargeFor, QueueTime;
  }

  lemma StepKeepsQuanta(cfg: Config, clock: Clock, w: World, m: Move, t: Tenant, quantum: nat)
    requires Inv(cfg, w) && QuantaOk(w, t, quantum) && MoveWithin(m, t, quantum) && 1 <= quantum <= I64_MAX
    ensures QuantaOk(Step(cfg, clock, w, m), t, quantum)
  {
    hide BooksOk, TenantInvAt, Homed, RingsKnown, Enqueue, VisitRing, QuantumFor, AsI64;
    match m
    case EnqueueMove(x, task) => EnqueueKeepsQuanta(cfg, clock, w, x, task, t, quantum);
    case GiveUpMove =>
    case CancelMove(id) =>
    case VisitMove(i, p) =>
      if CanVisit(w, i, p) {
        VisitKeepsQuanta(cfg, clock, w, i, p, t, quantum);
      }
    case SetQuantumMove(x, q) =>
      QuantumWithin(w.quanta.(overrides := w.quanta.overrides[x := Max(q, 1)]), t, quantum);
    case ClearQuantumMove(x) =>
      QuantumWithin(w.quanta.(overrides := w.quanta.overrides - {x}), t, quantum);
    case SetProviderMove(f) =>
      QuantumWithin(w.quanta.(provider := f), t, quantum);
  }

  lemma {:induction false} RunKeepsQuanta(cfg: Config, clock: Clock, w: World, moves: seq<Move>, t: Tenant, quantum: nat)
    requires Inv(cfg, w) && QuantaOk(w, t, quantum) && 1 <= quantum <= I64_MAX
    requires forall i :: 0 <= i < |moves| ==> MoveWithin(moves[i], t, quantum)
    ensures QuantaOk(Run(cfg, clock, w, moves), t, quantum)
    decreases |moves|
  {
    hide BooksOk, TenantInvAt, Homed, RingsKnown, Step, QuantaOk;
    if moves != [] {
      StepKeeps(cfg, clock, w, moves[0]);
      StepKeepsQuanta(cfg, clock, w, moves[0], t, quantum);
      RunKeepsQuanta(cfg, clock, Step(cfg, clock, w, moves[0]), moves[1..], t, quantum);
    }
  }

  lemma FreshLog(shards: nat, quanta: Quanta)
    ensures LogInv(Fresh(shards, quanta))
  {
  }

  lemma FreshQuanta(shards: nat, quanta: Quanta, t: Tenant, quantum: nat)
    requires SettingsWithin(quanta, t, quantum) && 1 <= quantum <= I64_MAX
    ensures QuantaOk(Fresh(shards, quanta), t, quantum)
  {
    hide QuantumFor, AsI64;
    QuantumWithin(quanta, t, quantum);
  }

  /** The deficit of a lane is always its refills minus its charges as an `i64`; so it is the plain
      difference exactly while that difference fits. */
  lemma DeficitAccounting(cfg: Config, clock: Clock, w: World, t: Tenant, p: Priority)
    requires Reachable(cfg, clock, w)
    ensures w.shards != []
    ensures var refills, charged := Refills(w.books.history.log, t, p), Charged(w.books.history.log, t, p);
            var deficit := HomeState(w, t).deficits.At(p);
            && deficit == WrapI64(refills - charged)
            && (deficit + charged == refills <==> I64_MIN <= refills - charged <= I64_MAX)
  {
    hide Inv, HomeState, WrapI64, Reachable, LaneOk, Listed;
    ReachableInv(cfg, clock, w);
    InvAtLane(cfg, w, t, p);
  }

  /** A lane whose own tasks charge at most C and whose tenant's quanta are at most Q, with C - 1 + Q within
      an `i64`: its deficit balances refills against charges and stays within 0 .. C - 1 + Q, whatever
      other tenants queue and whatever their quanta are. */
  lemma DeficitBound(cfg: Config, clock: Clock, shards: nat, quanta: Quanta, moves: seq<Move>, cost: nat, quantum: nat,
                     t: Tenant, p: Priority)
    requires SettingsWithin(quanta, t, quantum) && quantum >= 1 && cost >= 1 && cost - 1 + quantum <= I64_MAX
    requires forall i :: 0 <= i < |moves| ==> MoveWithin(moves[i], t, quantum)
    requires CostsWithin(Run(cfg, clock, Fresh(shards, quanta), moves).books.history, t, p, cost)
    ensures var w := Run(cfg, clock, Fresh(shards, quanta), moves);
            var deficit := HomeState(w, t).deficits.At(p);
            && deficit + Charged(w.books.history.log, t, p) == Refills(w.books.history.log, t, p)
            && 0 <= deficit <= cost - 1 + quantum
            && 1 <= HomeState(w, t).quantum <= quantum
  {
    hide BooksOk, Inv, Step, HomeState, LogOk, CostsWithin, SettingsWithin, RefillsWithin, WrapI64;
    var w0 := Fresh(shards, quanta);
    var w := Run(cfg, clock, w0, moves);
    FreshInv(cfg, shards, quanta);
    assert LogInv(w0) by { FreshLog(shards, quanta); }
    FreshQuanta(shards, quanta, t, quantum);
    RunKeeps(cfg, clock, w0, moves);
    RunKeepsLog(cfg, clock, w0, moves);
    RunKeepsQuanta(cfg, clock, w0, moves, t, quantum);
    InvAtLane(cfg, w, t, p);
    BalanceBound(w.books.history, w.books.history.log, t, p, cost, quantum);
  }
}
