/** Nothing expires early: whatever counts as expired was past its deadline at some clock reading. */
module Expiry {
  import opened Types
  import opened World
  import opened Invariant
  import opened EnqueueProofs
  import opened Preservation
  import opened Delivery
  import opened Admissions

  /** Task `id` was accepted with a deadline that one of the first `samples` clock readings was past. */
  ghost predicate PastDeadline(clock: Clock, h: History, id: Id, samples: nat) {
    && id in h.accepted && h.accepted[id].task.deadline.Some?
    && exists k: nat :: k < samples && clock.now(k) > h.accepted[id].task.deadline.value
  }

  ghost predicate ExpiredLate(clock: Clock, h: History, samples: nat) {
    forall id: Id :: id in h.expired ==> PastDeadline(clock, h, id, samples)
  }

  lemma LateGrows(clock: Clock, h: History, h': History, samples: nat, samples': nat)
    requires ExpiredLate(clock, h, samples) && samples <= samples' && h'.expired == h.expired
    requires forall id :: id in h.accepted ==> id in h'.accepted && h'.accepted[id] == h.accepted[id]
    ensures ExpiredLate(clock, h', samples')
  {
    forall id: Id | id in h'.expired ensures PastDeadline(clock, h', id, samples') {
      assert PastDeadline(clock, h, id, samples);
      var k: nat :| k < samples && clock.now(k) > h.accepted[id].task.deadline.value;
      assert k < samples';
    }
  }

  /** Ids that leave pending for expired at a reading their deadlines are behind. */
  lemma LateMore(clock: Clock, h: History, h': History, ids: set<Id>, samples: nat)
    requires ExpiredLate(clock, h, samples) && h'.accepted == h.accepted && h'.expired == h.expired + ids
    requires forall id: Id :: id in ids ==>
               id in h.accepted && h.accepted[id].task.deadline.Some? && h.accepted[id].task.deadline.value < clock.now(samples)
    ensures ExpiredLate(clock, h', samples + 1)
  {
    forall id: Id | id in h'.expired ensures PastDeadline(clock, h', id, samples + 1) {
      if id in ids {
        assert samples < samples + 1;
      } else {
        assert PastDeadline(clock, h, id, samples);
        var k: nat :| k < samples && clock.now(k) > h.accepted[id].task.deadline.value;
        assert k < samples + 1;
      }
    }
  }

  // ---------------------------------------------------------------- enqueue

  ghost predicate DraftLate(clock: Clock, d: Draft) {
    ExpiredLate(clock, d.books.history, d.samples)
  }

  lemma OverdueEntry(cfg: Config, d: Draft, t: Tenant, inHand: nat, p: Priority, i: nat)
    requires DraftOk(cfg, d, t, inHand) && i < |d.state.queues.At(p)|
    ensures var e := d.state.queues.At(p)[i];
            e.id in d.books.history.accepted && d.books.history.accepted[e.id].task == e.task
  {
    hide BooksOk;
    LaneOfAll(d.state, t, d.books);
    assert LaneOk(d.state.queues.At(p), t, p, d.books);
    assert EntryOk(d.state.queues.At(p)[i], t, p, d.books);
  }

  /** A pending id a purge removes is past its deadline at the purge's reading. */
  lemma RemovedIsOverdue(cfg: Config, clock: Clock, d: Draft, reach: nat, t: Tenant, inHand: nat, id: Id)
    requires DraftOk(cfg, d, t, inHand)
    requires id in Removed(StockOf(d), clock.now(d.samples), reach) && id in d.books.pending
    ensures var h := d.books.history;
            id in h.accepted && h.accepted[id].task.deadline.Some? && h.accepted[id].task.deadline.value < clock.now(d.samples)
  {
    hide DraftOk, Removed, PurgedQueue, Ids, DeadPrefix, Increasing;
    var s, now := StockOf(d), clock.now(d.samples);
    DraftStockOk(cfg, d, t, inHand);
    var p := RemovedFrom(s, now, reach, id);
    var i := PlaceOf(s.queues.At(p), id);
    LaneGrows(s, p);
    RemovedExactly(s.queues.At(p), s.cancelled, now, reach, i);
    OverdueEntry(cfg, d, t, inHand, p, i);
  }

  lemma PurgeIsLate(cfg: Config, clock: Clock, d: Draft, reason: PurgeReason, t: Tenant, inHand: nat)
    requires DraftOk(cfg, d, t, inHand) && DraftLate(clock, d)
    ensures DraftLate(clock, PurgeForEnqueue(clock, d, reason).0)
  {
    hide DraftOk, ExpiredLate, PurgeForEnqueue, Removed;
    var d' := PurgeForEnqueue(clock, d, reason).0;
    var reach := match reason case Periodic => 0 case NearLimit => 8 case Full => 32;
    var ids := Removed(StockOf(d), clock.now(d.samples), reach) * d.books.pending;
    PurgeHistory(clock, d, reason);
    forall id: Id | id in ids
      ensures var h := d.books.history;
              id in h.accepted && h.accepted[id].task.deadline.Some? && h.accepted[id].task.deadline.value < clock.now(d.samples)
    {
      RemovedIsOverdue(cfg, clock, d, reach, t, inHand, id);
    }
    LateMore(clock, d.books.history, d'.books.history, ids, d.samples);
  }

  lemma PurgeHistory(clock: Clock, d: Draft, reason: PurgeReason)
    ensures var d' := PurgeForEnqueue(clock, d, reason).0;
            var reach := match reason case Periodic => 0 case NearLimit => 8 case Full => 32;
            && d'.samples == d.samples + 1 && d'.books.history.accepted == d.books.history.accepted
            && d'.books.history.expired == d.books.history.expired + Removed(StockOf(d), clock.now(d.samples), reach) * d.books.pending
  {
    hide PurgedQueue, RemovedIds;
  }

  lemma MaybePurgeIsLate(cfg: Config, clock: Clock, d: Draft, t: Tenant)
    requires DraftOk(cfg, d, t, 0) && DraftLate(clock, d)
    ensures DraftLate(clock, MaybePurge(cfg, clock, d).0)
  {
    hide DraftOk, PurgeForEnqueue, PurgeReasonFor, ExpiredLate;
    var d1 := d.(state := d.state.(attempts := d.state.attempts + 1));
    AttemptKeeps(cfg, d, t);
    var reason := PurgeReasonFor(cfg, d1.state.TotalLen(), d1.state.attempts);
    if reason.Some? {
      PurgeIsLate(cfg, clock, d1, reason.value, t, 0);
    }
  }

  lemma ReserveIsLate(cfg: Config, clock: Clock, d: Draft, ranFull: bool, t: Tenant)
    requires DraftOk(cfg, d, t, 0) && DraftLate(clock, d)
    ensures DraftLate(clock, ReserveOrPurge(cfg, clock, d, ranFull).draft)
  {
    hide DraftOk, PurgeForEnqueue, ExpiredLate;
    PurgeIsLate(cfg, clock, d, Full, t, 0);
  }

  lemma RejectIsLate(cfg: Config, clock: Clock, d: Draft, t: Tenant)
    requires DraftOk(cfg, d, t, 0) && DraftLate(clock, d)
    ensures DraftLate(clock, AdmitOrReject(cfg, clock, d).draft)
  {
    hide DraftOk, PurgeForEnqueue, MaybePurge, ReserveOrPurge, DraftLate, TenantState.TotalLen;
    MaybePurgeKeeps(cfg, clock, d, t);
    MaybePurgeIsLate(cfg, clock, d, t);
    var (d1, ranFull1) := MaybePurge(cfg, clock, d);
    PurgeKeepsDraft(cfg, clock, d1, Full, t, 0);
    PurgeIsLate(cfg, clock, d1, Full, t, 0);
    var full := d1.state.TotalLen() >= cfg.maxPerTenant;
    ReserveIsLate(cfg, clock, d1, ranFull1 || full, t);
    ReserveIsLate(cfg, clock, PurgeForEnqueue(clock, d1, Full).0, ranFull1 || full, t);
  }

  lemma EvictIsLate(cfg: Config, clock: Clock, d: Draft, strategy: Strategy, incoming: Priority, t: Tenant)
    requires DraftOk(cfg, d, t, 0) && DraftLate(clock, d)
    ensures DraftLate(clock, AdmitOrEvict(cfg, clock, d, strategy, incoming).draft)
  {
    hide DraftOk, PurgeForEnqueue, MaybePurge, ReserveOrPurge, ExpiredLate, TenantState.TotalLen, Evict;
    MaybePurgeKeeps(cfg, clock, d, t);
    MaybePurgeIsLate(cfg, clock, d, t);
    var (d1, ranFull) := MaybePurge(cfg, clock, d);
    ReserveIsLate(cfg, clock, d1, ranFull, t);
    var from := EvictFrom(d1.state, incoming);
    if from.Some? {
      var (ts, e) := Evict(d1.state, from.value, strategy);
      var d2 := Draft(ts, Displace(d1.books, e.id), d1.samples);
      EvictKeeps(cfg, d1, from.value, strategy, t);
      LateGrows(clock, d1.books.history, d2.books.history, d1.samples, d2.samples);
      if e.id !in d1.books.pending {
        ReserveIsLate(cfg, clock, d2, ranFull, t);
      }
    }
  }

  lemma AdmitIsLate(cfg: Config, clock: Clock, d: Draft, t: Tenant, task: Task)
    requires DraftOk(cfg, d, t, 0) && DraftLate(clock, d)
    ensures DraftLate(clock, Admit(cfg, clock, d, t, task).draft)
  {
    hide DraftOk, AdmitOrReject, AdmitOrEvict, DraftLate;
    RejectIsLate(cfg, clock, d, t);
    EvictIsLate(cfg, clock, d, Oldest, task.priority, t);
    EvictIsLate(cfg, clock, d, Newest, task.priority, t);
  }

  ghost predicate WorldLate(clock: Clock, w: World) {
    ExpiredLate(clock, w.books.history, w.samples)
  }

  lemma EnqueueIsLate(cfg: Config, clock: Clock, w: World, t: Tenant, task: Task)
    requires Inv(cfg, w) && WorldLate(clock, w)
    ensures WorldLate(clock, Enqueue(cfg, clock, w, t, task))
  {
    hide BooksOk, TenantInvAt, Homed, RingsKnown, Admit, DraftOk, HomeState, ExpiredLate, RecordReject, Join;
    var d, a := Draft(HomeState(w, t), w.books, w.samples), AdmissionOf(cfg, clock, w, t, task);
    HomeDraftOk(cfg, w, t);
    AdmitIsLate(cfg, clock, d, t, task);
    AdmitKeeps(cfg, clock, d, t, task);
    var w' := Enqueue(cfg, clock, w, t, task);
    match a.refusal
    case Some(reason) => RejectIsStatsOnly(a.draft.books, reason);
    case None =>
      FreshInDraft(cfg, a.draft, t);
      LateGrows(clock, a.draft.books.history, w'.books.history, a.draft.samples, w'.samples);
  }

  lemma FreshInDraft(cfg: Config, d: Draft, t: Tenant)
    requires DraftOk(cfg, d, t, 1)
    ensures d.books.nextId + 1 !in d.books.history.accepted
  {
  }

  // ---------------------------------------------------------------- visits

  /** A turn counts as expired only entries at the head that are past their deadline. */
  lemma TurnIsLate(cfg: Config, clock: Clock, ts: TenantState, b: Books, samples: nat, t: Tenant, p: Priority)
    requires TurnPre(cfg, ts, b, t, p) && ExpiredLate(clock, b.history, samples)
    ensures ExpiredLate(clock, TakeTurn(clock, ts, b, samples, t, p).books.history, samples + 1)
  {
    hide BooksOk, LaneOk, DeficitOk, ExpiredLate, DeadPrefix, Ids;
    var q, now := ts.queues.At(p), clock.now(samples);
    var k := DeadPrefix(q, b.cancelled, now);
    var ids := Ids(q[..k]) * b.pending;
    assert LaneOk(q, t, p, b);
    forall id: Id | id in ids
      ensures id in b.history.accepted && b.history.accepted[id].task.deadline.Some? && b.history.accepted[id].task.deadline.value < now
    {
      DeadHeadOverdue(cfg, q, t, p, b, now, id);
    }
    TurnHistory(clock, ts, b, samples, t, p);
    LateMore(clock, b.history, TakeTurn(clock, ts, b, samples, t, p).books.history, ids, samples);
  }

  lemma DeadHeadOverdue(cfg: Config, q: seq<Entry>, t: Tenant, p: Priority, b: Books, now: Time, id: Id)
    requires BooksOk(cfg, b, 0) && LaneOk(q, t, p, b)
    requires id in Ids(q[..DeadPrefix(q, b.cancelled, now)]) && id in b.pending
    ensures id in b.history.accepted && b.history.accepted[id].task.deadline.Some? && b.history.accepted[id].task.deadline.value < now
  {
    hide CountersOk;
    var k := DeadPrefix(q, b.cancelled, now);
    var i := PlaceOf(q[..k], id);
    assert Dead(q[i], b.cancelled, now);
    assert EntryOk(q[i], t, p, b);
    FatesOf(b);
  }

  lemma TurnHistory(clock: Clock, ts: TenantState, b: Books, samples: nat, t: Tenant, p: Priority)
    ensures var h := TakeTurn(clock, ts, b, samples, t, p).books.history;
            var q := ts.queues.At(p);
            && h.accepted == b.history.accepted
            && h.expired == b.history.expired + Ids(q[..DeadPrefix(q, b.cancelled, clock.now(samples))]) * b.pending
  {
    hide ChargeFor, Ids, WrapI64, QueueTime, DeadPrefix;
  }

  lemma VisitIsLate(cfg: Config, clock: Clock, w: World, i: nat, p: Priority)
    requires Inv(cfg, w) && WorldLate(clock, w) && CanVisit(w, i, p)
    ensures WorldLate(clock, VisitRing(clock, w, i, p).world)
  {
    hide Inv, TakeTurn, TurnPre, HomeState, ExpiredLate;
    var t := w.shards[i].rings.At(p)[0];
    RingHead(cfg, w, i, p);
    HomeTurnPre(cfg, w, t, p);
    TurnIsLate(cfg, clock, HomeState(w, t), w.books, w.samples, t, p);
    var h' := VisitRing(clock, w, i, p).world.books.history;
    LateGrows(clock, h', h', w.samples + 1, VisitRing(clock, w, i, p).world.samples);
  }

  lemma StepIsLate(cfg: Config, clock: Clock, w: World, m: Move)
    requires Inv(cfg, w) && WorldLate(clock, w)
    ensures WorldLate(clock, Step(cfg, clock, w, m))
  {
    hide Inv, Enqueue, VisitRing, ExpiredLate, RecordReject, QuantumFor, AsI64;
    InvShards(cfg, w);
    var h, h' := w.books.history, Step(cfg, clock, w, m).books.history;
    match m
    case EnqueueMove(t, task) => EnqueueIsLate(cfg, clock, w, t, task);
    case VisitMove(i, p) =>
      if CanVisit(w, i, p) {
        VisitIsLate(cfg, clock, w, i, p);
      }
    case GiveUpMove => RejectIsStatsOnly(w.books, TimedOut);
    case CancelMove(_) => LateGrows(clock, h, h', w.samples, w.samples);
    case _ =>
  }

  lemma {:induction false} RunIsLate(cfg: Config, clock: Clock, w: World, moves: seq<Move>)
    requires Inv(cfg, w) && WorldLate(clock, w)
    ensures w.shards != [] && WorldLate(clock, Run(cfg, clock, w, moves))
    decreases |moves|
  {
    hide Inv, Step, WorldLate;
    InvShards(cfg, w);
    if moves != [] {
      StepKeeps(cfg, clock, w, moves[0]);
      StepIsLate(cfg, clock, w, moves[0]);
      RunIsLate(cfg, clock, Step(cfg, clock, w, moves[0]), moves[1..]);
    }
  }

  /** In every reachable world each expired task had a deadline, and some clock reading of the run was past it. */
  lemma NothingExpiresEarly(cfg: Config, clock: Clock, w: World, id: Id)
    requires Reachable(cfg, clock, w) && id in w.books.history.expired
    ensures var h := w.books.history;
            && id in h.accepted && h.accepted[id].task.deadline.Some?
            && exists k: nat :: k < w.samples && clock.now(k) > h.accepted[id].task.deadline.value
  {
    hide Inv, Step, Run;
    var shards: nat, quanta: Quanta, moves: seq<Move> :| w == Run(cfg, clock, Fresh(shards, quanta), moves);
    FreshInv(cfg, shards, quanta);
    RunIsLate(cfg, clock, Fresh(shards, quanta), moves);
    assert PastDeadline(clock, w.books.history, id, w.samples);
  }
}
