/** What the visit log of a reachable world says: who was served, when, in which order, at what charge. */
module Delivery {
  import opened Types
  import opened World
  import opened Invariant
  import opened EnqueueProofs
  import opened Preservation

  /** What the deficit of lane (t, p) must be after these visits. */
  ghost function Balance(log: Log, t: Tenant, p: Priority): int {
    WrapI64(Refills(log, t, p) - Charged(log, t, p))
  }

  /** A visit of the live head `id`: the charge is the cost it was submitted with, clamped to an `i64`, and its
      deadline has not passed. */
  ghost predicate HeadFact(h: History, v: Visit, id: Id, charge: nat) {
    && OfLane(h, id, v.tenant, v.priority)
    && var task := h.accepted[id].task;
       && (if task.cost <= I64_MAX then charge == task.cost else charge == I64_MAX)
       && (task.deadline.Some? ==> v.now <= task.deadline.value)
  }

  /** One visit, told against the log before it. */
  ghost predicate VisitOk(h: History, before: Log, v: Visit) {
    match v.outcome
    case Idle => true
    case Discarded => false
    case Refilled(id, cost, deficit, _) =>
      HeadFact(h, v, id, cost) && deficit == Balance(before, v.tenant, v.priority) < cost
    case Served(id, cost, deficit, _) =>
      && HeadFact(h, v, id, cost)
      && cost <= deficit == Balance(before, v.tenant, v.priority)
      && LastServed(before, v.tenant, v.priority) < id
  }

  ghost predicate LogOk(h: History, log: Log) {
    match log
    case Start => true
    case Then(before, v) => LogOk(h, before) && VisitOk(h, before, v)
  }

  ghost function ServedIds(log: Log): set<Id> {
    match log
    case Start => {}
    case Then(before, v) => ServedIds(before) + if v.outcome.Served? then {v.outcome.id} else {}
  }

  ghost predicate LogInv(w: World) {
    && LogOk(w.books.history, w.books.history.log)
    && w.books.history.dispatched == ServedIds(w.books.history.log)
  }

  lemma {:induction false} LogOkGrows(h: History, h': History, log: Log)
    requires LogOk(h, log)
    requires forall id :: id in h.accepted ==> id in h'.accepted && h'.accepted[id] == h.accepted[id]
    ensures LogOk(h', log)
  {
    if log.Then? {
      LogOkGrows(h, h', log.before);
    }
  }

  // ---------------------------------------------------------------- moves and the log

  lemma ServeLogs(clock: Clock, ts: TenantState, b: Books, samples: nat, t: Tenant, p: Priority)
    requires LaneOk(ts.queues.At(p), t, p, b) && DeficitOk(ts, t, p, b.history.log)
    requires ts.queues.At(p) != [] && !Expired(ts.queues.At(p)[0].task.deadline, clock.now(samples))
    requires ts.queues.At(p)[0].id in b.pending && ts.queues.At(p)[0].id !in b.cancelled
    requires ts.deficits.At(p) >= ChargeFor(ts.queues.At(p)[0].task.cost)
    ensures var h := ServeHead(clock, ts, b, samples, t, p).books.history;
            && h.log.Then? && h.log.before == b.history.log && VisitOk(b.history, b.history.log, h.log.visit)
            && h.accepted == b.history.accepted && h.log.visit.outcome.Served?
            && h.dispatched == b.history.dispatched + {h.log.visit.outcome.id}
  {
    hide QueueTime;
    assert EntryOk(ts.queues.At(p)[0], t, p, b);
  }

  lemma HeadTurnLogs(cfg: Config, clock: Clock, ts: TenantState, b: Books, samples: nat, t: Tenant, p: Priority)
    requires TurnPre(cfg, ts, b, t, p)
    requires ts.queues.At(p) != [] ==> ts.queues.At(p)[0].id !in b.cancelled && !Expired(ts.queues.At(p)[0].task.deadline, clock.now(samples))
    ensures var h := HeadTurn(clock, ts, b, samples, t, p).books.history;
            && h.log.Then? && h.log.before == b.history.log && VisitOk(b.history, b.history.log, h.log.visit)
            && h.accepted == b.history.accepted
            && h.dispatched == b.history.dispatched + if h.log.visit.outcome.Served? then {h.log.visit.outcome.id} else {}
  {
    hide BooksOk, ServeHead;
    assert LaneOk(ts.queues.At(p), t, p, b);
    assert DeficitOk(ts, t, p, b.history.log);
    if ts.queues.At(p) != [] {
      HeadIsPending(cfg, ts.queues.At(p), t, p, b);
      assert EntryOk(ts.queues.At(p)[0], t, p, b);
      if ts.deficits.At(p) >= ChargeFor(ts.queues.At(p)[0].task.cost) {
        ServeLogs(clock, ts, b, samples, t, p);
      }
    }
  }

  lemma TurnLogs(cfg: Config, clock: Clock, ts: TenantState, b: Books, samples: nat, t: Tenant, p: Priority)
    requires TurnPre(cfg, ts, b, t, p)
    ensures var h := TakeTurn(clock, ts, b, samples, t, p).books.history;
            && h.log.Then? && h.log.before == b.history.log && VisitOk(b.history, b.history.log, h.log.visit)
            && h.accepted == b.history.accepted
            && h.dispatched == b.history.dispatched + if h.log.visit.outcome.Served? then {h.log.visit.outcome.id} else {}
  {
    hide TurnPre, HeadTurn;
    DropDeadKeeps(cfg, ts, b, t, p, clock.now(samples));
    var (ts1, b1) := DropDead(ts, b, p, clock.now(samples));
    HeadTurnLogs(cfg, clock, ts1, b1, samples, t, p);
    assert b1.history == b.history.(expired := b1.history.expired);
    SameReading(b.history, b1.history, TakeTurn(clock, ts, b, samples, t, p).books.history.log.visit);
  }

  lemma SameReading(h: History, h': History, v: Visit)
    requires h'.accepted == h.accepted && h'.log == h.log && VisitOk(h', h'.log, v)
    ensures VisitOk(h, h.log, v)
  {
  }

  lemma VisitLogs(cfg: Config, clock: Clock, w: World, i: nat, p: Priority)
    requires Inv(cfg, w) && CanVisit(w, i, p)
    ensures var h, h' := w.books.history, VisitRing(clock, w, i, p).world.books.history;
            && h'.log.Then? && h'.log.before == h.log && VisitOk(h, h.log, h'.log.visit)
            && At(h'.log.visit, w.shards[i].rings.At(p)[0], p)
            && h'.accepted == h.accepted
            && h'.dispatched == h.dispatched + if h'.log.visit.outcome.Served? then {h'.log.visit.outcome.id} else {}
  {
    hide TakeTurn, TurnPre, BooksOk, TenantInvAt, HomeState;
    var t := w.shards[i].rings.At(p)[0];
    RingHead(cfg, w, i, p);
    HomeTurnPre(cfg, w, t, p);
    TurnLogs(cfg, clock, w.shards[i].tenants[t], w.books, w.samples, t, p);
    TurnKeeps(cfg, clock, w.shards[i].tenants[t], w.books, w.samples, t, p);
  }

  /** Everything but a visit leaves the log and the dispatched ids alone, and only adds accepted ids. */
  lemma OthersKeepLog(cfg: Config, clock: Clock, w: World, m: Move)
    requires Inv(cfg, w) && (m.VisitMove? ==> !CanVisit(w, m.shard, m.priority))
    ensures var h, h' := w.books.history, Step(cfg, clock, w, m).books.history;
            && h'.log == h.log && h'.dispatched == h.dispatched
            && forall id :: id in h.accepted ==> id in h'.accepted && h'.accepted[id] == h.accepted[id]
  {
    hide BooksOk, TenantInvAt, Homed, RingsKnown, VisitRing;
    match m
    case EnqueueMove(t, task) => EnqueueKeepsLog(cfg, clock, w, t, task);
    case _ =>
  }

  lemma EnqueueKeepsLog(cfg: Config, clock: Clock, w: World, t: Tenant, task: Task)
    requires Inv(cfg, w)
    ensures var h, h' := w.books.history, Enqueue(cfg, clock, w, t, task).books.history;
            && h'.log == h.log && h'.dispatched == h.dispatched
            && forall id :: id in h.accepted ==> id in h'.accepted && h'.accepted[id] == h.accepted[id]
  {
    hide Admit, BooksOk, TenantInvAt, HomeState, Join;
    var d := Draft(HomeState(w, t), w.books, w.samples);
    var a := AdmissionOf(cfg, clock, w, t, task);
    HomeDraftOk(cfg, w, t);
    AdmitKeeps(cfg, clock, d, t, task);
    AdmitKeepsServices(cfg, clock, d, t, task);
    assert OneFate(a.draft.books) by { DraftFates(cfg, a.draft, t, if a.refusal.None? then 1 else 0); }
    assert a.draft.books.nextId + 1 !in a.draft.books.history.accepted;
  }

  lemma DraftFates(cfg: Config, d: Draft, t: Tenant, inHand: nat)
    requires DraftOk(cfg, d, t, inHand)
    ensures OneFate(d.books)
  {
  }

  /** Nothing was handed out, cancelled or refused from `b` to `b'`. */
  ghost predicate SameServices(b: Books, b': Books) {
    && b'.history.dispatched == b.history.dispatched && b'.stats.queueTimeSum == b.stats.queueTimeSum
    && b'.history.withdrawn == b.history.withdrawn
    && b'.stats.rejectedGlobal == b.stats.rejectedGlobal && b'.stats.rejectedTenant == b.stats.rejectedTenant
    && b'.stats.timeoutRejected == b.stats.timeoutRejected
    && b'.stats.dropped - b'.stats.droppedPolicy == b.stats.dropped - b.stats.droppedPolicy
  }

  /** Nor was anything evicted. */
  ghost predicate OnlyExpires(b: Books, b': Books) {
    SameServices(b, b') && b'.history.evicted == b.history.evicted && b'.stats.droppedPolicy == b.stats.droppedPolicy
  }

  lemma PurgeOnlyExpires(clock: Clock, d: Draft, reason: PurgeReason)
    ensures OnlyExpires(d.books, PurgeForEnqueue(clock, d, reason).0.books)
  {
    hide PurgedState, RemovedIds;
  }

  lemma ReserveOnlyExpires(cfg: Config, clock: Clock, d: Draft, ranFull: bool)
    ensures OnlyExpires(d.books, ReserveOrPurge(cfg, clock, d, ranFull).draft.books)
  {
    hide PurgeForEnqueue;
    PurgeOnlyExpires(clock, d, Full);
  }

  lemma MaybePurgeOnlyExpires(cfg: Config, clock: Clock, d: Draft)
    ensures OnlyExpires(d.books, MaybePurge(cfg, clock, d).0.books)
  {
    hide PurgeForEnqueue, PurgeReasonFor;
    var d1 := d.(state := d.state.(attempts := d.state.attempts + 1));
    var reason := PurgeReasonFor(cfg, d1.state.TotalLen(), d1.state.attempts);
    if reason.Some? {
      PurgeOnlyExpires(clock, d1, reason.value);
    }
  }

  lemma RejectOnlyExpires(cfg: Config, clock: Clock, d: Draft)
    ensures OnlyExpires(d.books, AdmitOrReject(cfg, clock, d).draft.books)
  {
    hide PurgeForEnqueue, MaybePurge, ReserveOrPurge, TenantState.TotalLen;
    MaybePurgeOnlyExpires(cfg, clock, d);
    var (d1, ranFull1) := MaybePurge(cfg, clock, d);
    PurgeOnlyExpires(clock, d1, Full);
    var full := d1.state.TotalLen() >= cfg.maxPerTenant;
    ReserveOnlyExpires(cfg, clock, d1, ranFull1 || full);
    ReserveOnlyExpires(cfg, clock, PurgeForEnqueue(clock, d1, Full).0, ranFull1 || full);
  }

  lemma EvictKeepsServices(cfg: Config, clock: Clock, d: Draft, strategy: Strategy, incoming: Priority)
    ensures SameServices(d.books, AdmitOrEvict(cfg, clock, d, strategy, incoming).draft.books)
  {
    hide PurgeForEnqueue, MaybePurge, ReserveOrPurge, TenantState.TotalLen;
    MaybePurgeOnlyExpires(cfg, clock, d);
    var (d1, ranFull) := MaybePurge(cfg, clock, d);
    ReserveOnlyExpires(cfg, clock, d1, ranFull);
    var from := EvictFrom(d1.state, incoming);
    if from.Some? {
      var (ts, e) := Evict(d1.state, from.value, strategy);
      ReserveOnlyExpires(cfg, clock, Draft(ts, Displace(d1.books, e.id), d1.samples), ranFull);
    }
  }

  lemma AdmitKeepsServices(cfg: Config, clock: Clock, d: Draft, t: Tenant, task: Task)
    ensures SameServices(d.books, Admit(cfg, clock, d, t, task).draft.books)
  {
    hide AdmitOrReject, AdmitOrEvict;
    RejectOnlyExpires(cfg, clock, d);
    EvictKeepsServices(cfg, clock, d, Oldest, task.priority);
    EvictKeepsServices(cfg, clock, d, Newest, task.priority);
  }

  lemma StepKeepsLog(cfg: Config, clock: Clock, w: World, m: Move)
    requires Inv(cfg, w) && LogInv(w)
    ensures LogInv(Step(cfg, clock, w, m))
  {
    hide BooksOk, TenantInvAt, Homed, RingsKnown, VisitOk, VisitRing;
    var h, h' := w.books.history, Step(cfg, clock, w, m).books.history;
    if m.VisitMove? && CanVisit(w, m.shard, m.priority) {
      VisitLogs(cfg, clock, w, m.shard, m.priority);
      LogOkGrows(h, h', h.log);
      assert VisitOk(h', h.log, h'.log.visit) by { FactsGrow(h, h', h.log, h'.log.visit); }
    } else {
      OthersKeepLog(cfg, clock, w, m);
      LogOkGrows(h, h', h.log);
    }
  }

  lemma FactsGrow(h: History, h': History, before: Log, v: Visit)
    requires VisitOk(h, before, v) && h'.accepted == h.accepted
    ensures VisitOk(h', before, v)
  {
  }

  lemma {:induction false} RunKeepsLog(cfg: Config, clock: Clock, w: World, moves: seq<Move>)
    requires Inv(cfg, w) && LogInv(w)
    ensures LogInv(Run(cfg, clock, w, moves))
    decreases |moves|
  {
    hide BooksOk, TenantInvAt, Homed, RingsKnown, Step, LogInv;
    if moves != [] {
      StepKeeps(cfg, clock, w, moves[0]);
      StepKeepsLog(cfg, clock, w, moves[0]);
      RunKeepsLog(cfg, clock, Step(cfg, clock, w, moves[0]), moves[1..]);
    }
  }

  lemma ReachableLog(cfg: Config, clock: Clock, w: World)
    requires Reachable(cfg, clock, w)
    ensures Inv(cfg, w) && LogInv(w)
  {
    hide BooksOk, TenantInvAt, Homed, RingsKnown, Step;
    var shards: nat, quanta: Quanta, moves: seq<Move> :| w == Run(cfg, clock, Fresh(shards, quanta), moves);
    FreshInv(cfg, shards, quanta);
    ReachableInv(cfg, clock, w);
    RunKeepsLog(cfg, clock, Fresh(shards, quanta), moves);
  }

  // ---------------------------------------------------------------- order, once-only, deadlines

  /** The ids served to lane (t, p), first to last. */
  ghost function Deliveries(log: Log, t: Tenant, p: Priority): seq<Id> {
    match log
    case Start => []
    case Then(before, v) => Deliveries(before, t, p) + if At(v, t, p) && v.outcome.Served? then [v.outcome.id] else []
  }

  ghost predicate Ascending(ids: seq<Id>) {
    forall i, j :: 0 <= i < j < |ids| ==> ids[i] < ids[j]
  }

  lemma AscendingSnoc(ids: seq<Id>, id: Id)
    requires Ascending(ids) && (ids == [] || ids[|ids| - 1] < id)
    ensures Ascending(ids + [id])
  {
  }

  lemma {:induction false} DeliveriesAscend(h: History, log: Log, t: Tenant, p: Priority)
    requires LogOk(h, log)
    ensures var d := Deliveries(log, t, p);
            Ascending(d) && LastServed(log, t, p) == if d == [] then 0 else d[|d| - 1]
  {
    hide HeadFact, Ascending;
    if log.Then? {
      DeliveriesAscend(h, log.before, t, p);
      var d := Deliveries(log.before, t, p);
      if At(log.visit, t, p) && log.visit.outcome.Served? {
        AscendingSnoc(d, log.visit.outcome.id);
      } else {
        assert Deliveries(log, t, p) == d;
      }
    } else {
      assert Ascending([]) by { NoneAscend(); }
    }
  }

  lemma NoneAscend()
    ensures Ascending([])
  {
  }

  ghost predicate InLog(log: Log, v: Visit) {
    log.Then? && (log.visit == v || InLog(log.before, v))
  }

  lemma {:induction false} LoggedServiceFacts(h: History, log: Log, v: Visit)
    requires LogOk(h, log) && InLog(log, v) && v.outcome.Served?
    ensures HeadFact(h, v, v.outcome.id, v.outcome.cost) && v.outcome.cost <= v.outcome.deficit
  {
    if log.visit != v {
      LoggedServiceFacts(h, log.before, v);
    }
  }

  ghost function TimesServed(log: Log, id: Id): nat {
    match log
    case Start => 0
    case Then(before, v) => TimesServed(before, id) + if v.outcome.Served? && v.outcome.id == id then 1 else 0
  }

  lemma {:induction false} ServedBefore(h: History, log: Log, id: Id, t: Tenant, p: Priority)
    requires LogOk(h, log) && TimesServed(log, id) > 0 && OfLane(h, id, t, p)
    ensures id <= LastServed(log, t, p)
  {
    if TimesServed(log.before, id) > 0 {
      ServedBefore(h, log.before, id, t, p);
    }
  }

  lemma {:induction false} ServedAtMostOnce(h: History, log: Log, id: Id)
    requires LogOk(h, log)
    ensures TimesServed(log, id) == if id in ServedIds(log) then 1 else 0
  {
    if log.Then? {
      ServedAtMostOnce(h, log.before, id);
      var v := log.visit;
      if v.outcome.Served? && v.outcome.id == id && TimesServed(log.before, id) > 0 {
        ServedBefore(h, log.before, id, v.tenant, v.priority);
        assert false;
      }
    }
  }

  /** Over any run: each lane is served in the order its tasks were accepted, every dispatched id is
      served exactly once and no other id at all, and every served task was unexpired, affordable and
      charged its clamped cost at the instant of its visit. */
  lemma DeliveryGuarantees(cfg: Config, clock: Clock, w: World)
    requires Reachable(cfg, clock, w)
    ensures var h := w.books.history;
            && (forall t, p: Priority :: Ascending(Deliveries(h.log, t, p)))
            && (forall id :: TimesServed(h.log, id) == if id in h.dispatched then 1 else 0)
            && (forall v :: InLog(h.log, v) && v.outcome.Served? ==>
                  HeadFact(h, v, v.outcome.id, v.outcome.cost) && v.outcome.cost <= v.outcome.deficit)
  {
    hide Inv, LogOk, HeadFact, Ascending, Reachable;
    ReachableLog(cfg, clock, w);
    var h := w.books.history;
    forall t, p: Priority ensures Ascending(Deliveries(h.log, t, p)) {
      DeliveriesAscend(h, h.log, t, p);
    }
    forall id ensures TimesServed(h.log, id) == if id in h.dispatched then 1 else 0 {
      ServedAtMostOnce(h, h.log, id);
    }
    forall v | InLog(h.log, v) && v.outcome.Served?
      ensures HeadFact(h, v, v.outcome.id, v.outcome.cost) && v.outcome.cost <= v.outcome.deficit
    {
      LoggedServiceFacts(h, h.log, v);
    }
  }

  /** Whatever a lane still holds is newer than everything it was served. */
  lemma QueuedAreNewer(cfg: Config, clock: Clock, w: World, t: Tenant, p: Priority)
    requires Reachable(cfg, clock, w)
    ensures w.shards != []
    ensures var d, q := Deliveries(w.books.history.log, t, p), HomeState(w, t).queues.At(p);
            && Increasing(q)
            && forall i, e :: 0 <= i < |d| && e in q ==> d[i] < e.id
  {
    hide Inv, HomeState, LogOk, LaneOk, Reachable, Increasing, Ascending, Deliveries;
    ReachableLog(cfg, clock, w);
    InvAtLane(cfg, w, t, p);
    var d, q := Deliveries(w.books.history.log, t, p), HomeState(w, t).queues.At(p);
    DeliveriesAscend(w.books.history, w.books.history.log, t, p);
    LaneIncreases(q, t, p, w.books);
    forall i, e | 0 <= i < |d| && e in q ensures d[i] < e.id {
      LaneIsNewer(q, t, p, w.books, e);
      AscendingToLast(d, i);
    }
  }

  lemma LaneIsNewer(q: seq<Entry>, t: Tenant, p: Priority, b: Books, e: Entry)
    requires LaneOk(q, t, p, b) && e in q
    ensures LastServed(b.history.log, t, p) < e.id
  {
    assert EntryOk(e, t, p, b);
  }

  lemma AscendingToLast(ids: seq<Id>, i: nat)
    requires Ascending(ids) && i < |ids|
    ensures ids[i] <= ids[|ids| - 1]
  {
  }

  // ---------------------------------------------------------------- deficits

  /** All refills lane (t, p) got so far lie in 1..Q. */
  ghost predicate RefillsWithin(log: Log, t: Tenant, p: Priority, quantum: nat) {
    log.Then? ==>
      && RefillsWithin(log.before, t, p, quantum)
      && (At(log.visit, t, p) && log.visit.outcome.Refilled? ==> 1 <= log.visit.outcome.quantum <= quantum)
  }

  /** The tasks accepted into lane (t, p) cost at most C, or C is all an `i64` can charge. */
  ghost predicate CostsWithin(h: History, t: Tenant, p: Priority, cost: nat) {
    forall id :: OfLane(h, id, t, p) ==> h.accepted[id].task.cost <= cost || cost >= I64_MAX
  }

  /** While C - 1 + Q fits an `i64` no refill wraps around: the balance is refills minus charges. */
  lemma {:induction false} BalanceBound(h: History, log: Log, t: Tenant, p: Priority, cost: nat, quantum: nat)
    requires LogOk(h, log) && CostsWithin(h, t, p, cost) && RefillsWithin(log, t, p, quantum)
    requires cost >= 1 && quantum >= 1 && cost - 1 + quantum <= I64_MAX
    ensures Balance(log, t, p) == Refills(log, t, p) - Charged(log, t, p)
    ensures 0 <= Balance(log, t, p) <= cost - 1 + quantum
  {
    hide WrapI64, ChargeFor;
    if log.Then? {
      BalanceBound(h, log.before, t, p, cost, quantum);
    }
  }
}
