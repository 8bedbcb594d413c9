/** An enqueue lock section, under any policy and with any outcome, keeps the invariant. */
module EnqueueProofs {
  import opened Types
  import opened World
  import opened Invariant

  /** The tenant of an enqueue in progress, `inHand` slots reserved for it. */
  ghost predicate DraftOk(cfg: Config, d: Draft, t: Tenant, inHand: nat) {
    && BooksOk(cfg, d.books, inHand)
    && TenantOk(d.state, t, d.books)
    && d.state.TotalLen() <= cfg.maxPerTenant
    && forall p: Priority :: d.state.queues.At(p) != [] ==> d.state.active.At(p)
  }

  /** What the lock section may do before the task joins: tenant `t`'s queues shrink, its flags are
      only cleared, nobody else notices. */
  ghost predicate OnlyShrinks(d: Draft, d': Draft, t: Tenant) {
    && d'.state.deficits == d.state.deficits
    && d'.state.quantum == d.state.quantum
    && (forall p: Priority :: d'.state.active.At(p) ==> d.state.active.At(p))
    && (forall p: Priority, e :: e in d'.state.queues.At(p) ==> e in d.state.queues.At(p))
    && d'.books.history.accepted == d.books.history.accepted
    && d'.books.history.log == d.books.history.log
    && d'.books.nextId == d.books.nextId
    && (forall id :: id in d'.books.pending ==> id in d.books.pending)
    && (forall t2, p: Priority :: t2 != t ==> SameLane(d.books, d'.books, t2, p))
  }

  lemma ShrinksTrans(d: Draft, d1: Draft, d2: Draft, t: Tenant)
    requires OnlyShrinks(d, d1, t) && OnlyShrinks(d1, d2, t)
    ensures OnlyShrinks(d, d2, t)
  {
    forall t2, p: Priority | t2 != t ensures SameLane(d.books, d2.books, t2, p) {
      assert SameLane(d.books, d1.books, t2, p) && SameLane(d1.books, d2.books, t2, p);
    }
  }

  lemma RemovedAreOwn(ts: TenantState, ts': TenantState, t: Tenant, b: Books)
    requires TenantOk(ts, t, b)
    ensures forall id :: id in RemovedIds(ts.queues, ts'.queues) ==>
              id in b.history.accepted && b.history.accepted[id].tenant == t
  {
  }

  lemma PurgeKeepsLane(q: seq<Entry>, t: Tenant, p: Priority, b: Books, now: Time, budget: nat, removed: set<Id>)
    requires LaneOk(q, t, p, b)
    requires var q' := PurgedQueue(q, b.cancelled, now, budget);
             Ids(q) - Ids(q') <= removed && removed !! Ids(q')
    ensures LaneOk(PurgedQueue(q, b.cancelled, now, budget), t, p, Reap(b, removed))
  {
    hide PurgedQueue;
    PurgedIsSublist(q, b.cancelled, now, budget);
    ShrinkKeeps(q, PurgedQueue(q, b.cancelled, now, budget), t, p, b, Reap(b, removed), removed);
  }

  lemma PurgedIds(q: seq<Entry>, cancelled: set<Id>, now: Time, budget: nat)
    requires Increasing(q)
    ensures Ids(PurgedQueue(q, cancelled, now, budget)) <= Ids(q)
  {
    hide PurgedQueue;
    PurgedIsSublist(q, cancelled, now, budget);
  }

  lemma PurgeKeepsTenant(ts: TenantState, t: Tenant, b: Books, now: Time, budget: nat)
    requires TenantOk(ts, t, b)
    ensures var ts' := PurgedState(ts, b.cancelled, now, budget);
            TenantOk(ts', t, Reap(b, RemovedIds(ts.queues, ts'.queues)))
  {
    hide PurgedQueue, LaneOk, Reap;
    var q := ts.queues;
    var removed := RemovedIds(q, PurgedState(ts, b.cancelled, now, budget).queues);
    assert Increasing(q.high) && Increasing(q.normal) && Increasing(q.low) by { LanesIncrease(ts, t, b); }
    PurgedIds(q.high, b.cancelled, now, budget);
    PurgedIds(q.normal, b.cancelled, now, budget);
    PurgedIds(q.low, b.cancelled, now, budget);
    LanesDisjoint(q.high, High, q.normal, Normal, t, b);
    LanesDisjoint(q.high, High, q.low, Low, t, b);
    LanesDisjoint(q.normal, Normal, q.low, Low, t, b);
    PurgeKeepsLane(q.high, t, High, b, now, budget, removed);
    PurgeKeepsLane(q.normal, t, Normal, b, now, budget, removed);
    PurgeKeepsLane(q.low, t, Low, b, now, budget, removed);
  }

  lemma LanesIncrease(ts: TenantState, t: Tenant, b: Books)
    requires TenantOk(ts, t, b)
    ensures Increasing(ts.queues.high) && Increasing(ts.queues.normal) && Increasing(ts.queues.low)
  {
  }

  lemma PurgeShrinksState(ts: TenantState, t: Tenant, b: Books, now: Time, budget: nat)
    requires TenantOk(ts, t, b)
    ensures var ts' := PurgedState(ts, b.cancelled, now, budget);
            && ts'.TotalLen() <= ts.TotalLen()
            && forall p: Priority, e :: e in ts'.queues.At(p) ==> e in ts.queues.At(p)
  {
    hide PurgedQueue, LaneOk;
    LanesIncrease(ts, t, b);
    PurgedIsSublist(ts.queues.high, b.cancelled, now, budget);
    PurgedIsSublist(ts.queues.normal, b.cancelled, now, budget);
    PurgedIsSublist(ts.queues.low, b.cancelled, now, budget);
  }

  lemma PurgeKeepsDraft(cfg: Config, clock: Clock, d: Draft, reason: PurgeReason, t: Tenant, inHand: nat)
    requires DraftOk(cfg, d, t, inHand)
    ensures DraftOk(cfg, PurgeForEnqueue(clock, d, reason).0, t, inHand)
  {
    hide PurgedQueue, TenantOk, OneFate, Reap, RemovedIds;
    var d' := PurgeForEnqueue(clock, d, reason).0;
    var now, budget := clock.now(d.samples), ScanBudget(reason);
    var removed := RemovedIds(d.state.queues, d'.state.queues);
    PurgeKeepsTenant(d.state, t, d.books, now, budget);
    PurgeShrinksState(d.state, t, d.books, now, budget);
    ReapKeepsBooks(cfg, d.books, removed, inHand);
    SameQueues(PurgedState(d.state, d.books.cancelled, now, budget), d'.state, t, Reap(d.books, removed));
    StatsOnlyKeepsTenant(d'.state, t, Reap(d.books, removed), d'.books);
    assert OneFate(d'.books) by { StatsOnlyKeepsFates(Reap(d.books, removed), d'.books); }
    forall p: Priority | d'.state.queues.At(p) != [] ensures d'.state.active.At(p) {
      assert d'.state.queues.At(p)[0] in d'.state.queues.At(p);
      assert d.state.active.At(p);
    }
  }

  lemma PurgeOnlyShrinks(cfg: Config, clock: Clock, d: Draft, reason: PurgeReason, t: Tenant, inHand: nat)
    requires DraftOk(cfg, d, t, inHand)
    ensures OnlyShrinks(d, PurgeForEnqueue(clock, d, reason).0, t)
  {
    hide PurgedQueue, TenantOk, SameLane, BooksOk, RemovedIds;
    var d' := PurgeForEnqueue(clock, d, reason).0;
    var removed := RemovedIds(d.state.queues, d'.state.queues);
    PurgeShrinksState(d.state, t, d.books, clock.now(d.samples), ScanBudget(reason));
    RemovedAreOwn(d.state, d'.state, t, d.books);
    ReapIsLocal(d.books, removed, t);
    forall t2, p: Priority | t2 != t ensures SameLane(d.books, d'.books, t2, p) {
      StatsOnlyIsInvisible(d.books, Reap(d.books, removed), d'.books, t2, p);
    }
  }

  lemma PurgeKeeps(cfg: Config, clock: Clock, d: Draft, reason: PurgeReason, t: Tenant, inHand: nat)
    requires DraftOk(cfg, d, t, inHand)
    ensures DraftOk(cfg, PurgeForEnqueue(clock, d, reason).0, t, inHand)
    ensures OnlyShrinks(d, PurgeForEnqueue(clock, d, reason).0, t)
  {
    hide DraftOk, OnlyShrinks, PurgeForEnqueue;
    PurgeKeepsDraft(cfg, clock, d, reason, t, inHand);
    PurgeOnlyShrinks(cfg, clock, d, reason, t, inHand);
  }

  lemma ReapIsLocal(b: Books, removed: set<Id>, t: Tenant)
    requires forall id :: id in removed ==> id in b.history.accepted && b.history.accepted[id].tenant == t
    ensures forall t2, p :: t2 != t ==> SameLane(b, Reap(b, removed), t2, p)
  {
    RemovalIsLocal(b, Reap(b, removed), removed, t);
  }

  lemma StatsOnlyKeepsFates(b: Books, b': Books)
    requires OneFate(b) && b' == b.(stats := b'.stats)
    ensures OneFate(b')
  {
  }

  lemma StatsOnlyIsInvisible(b: Books, b1: Books, b2: Books, t: Tenant, p: Priority)
    requires SameLane(b, b1, t, p) && b2 == b1.(stats := b2.stats)
    ensures SameLane(b, b2, t, p)
  {
  }

  lemma StatsOnlyKeepsTenant(ts: TenantState, t: Tenant, b: Books, b': Books)
    requires TenantOk(ts, t, b)
    requires b' == b.(stats := b'.stats)
    ensures TenantOk(ts, t, b')
  {
    assert forall p: Priority :: SameLane(b, b', t, p);
    SameLaneKeeps(ts.queues.high, t, High, b, b');
    SameLaneKeeps(ts.queues.normal, t, Normal, b, b');
    SameLaneKeeps(ts.queues.low, t, Low, b, b');
  }

  lemma MaybePurgeKeeps(cfg: Config, clock: Clock, d: Draft, t: Tenant)
    requires DraftOk(cfg, d, t, 0)
    ensures DraftOk(cfg, MaybePurge(cfg, clock, d).0, t, 0)
    ensures OnlyShrinks(d, MaybePurge(cfg, clock, d).0, t)
  {
    hide DraftOk, OnlyShrinks, PurgeForEnqueue;
    var d1 := d.(state := d.state.(attempts := d.state.attempts + 1));
    var reason := PurgeReasonFor(cfg, d1.state.TotalLen(), d1.state.attempts);
    AttemptKeeps(cfg, d, t);
    if reason.Some? {
      PurgeKeeps(cfg, clock, d1, reason.value, t, 0);
      ShrinksTrans(d, d1, PurgeForEnqueue(clock, d1, reason.value).0, t);
    }
  }

  lemma AttemptKeeps(cfg: Config, d: Draft, t: Tenant)
    requires DraftOk(cfg, d, t, 0)
    ensures var d1 := d.(state := d.state.(attempts := d.state.attempts + 1));
            DraftOk(cfg, d1, t, 0) && OnlyShrinks(d, d1, t)
  {
    hide BooksOk, TenantOk;
    var d1 := d.(state := d.state.(attempts := d.state.attempts + 1));
    assert TenantOk(d1.state, t, d1.books) by { SameQueues(d.state, d1.state, t, d.books); }
  }

  lemma SameQueues(ts: TenantState, ts': TenantState, t: Tenant, b: Books)
    requires TenantOk(ts, t, b) && ts'.queues == ts.queues
    ensures TenantOk(ts', t, b)
  {
    hide LaneOk;
  }

  lemma DraftFits(cfg: Config, d: Draft, t: Tenant, inHand: nat)
    requires DraftOk(cfg, d, t, inHand)
    ensures d.state.TotalLen() <= cfg.maxPerTenant
  {
  }

  lemma ShrinksRefl(d: Draft, t: Tenant)
    ensures OnlyShrinks(d, d, t)
  {
  }

  ghost predicate AdmissionOk(cfg: Config, d: Draft, a: Admission, t: Tenant) {
    && DraftOk(cfg, a.draft, t, if a.refusal.None? then 1 else 0)
    && OnlyShrinks(d, a.draft, t)
  }

  lemma ReserveKeeps(cfg: Config, d: Draft, t: Tenant)
    requires DraftOk(cfg, d, t, 0) && Reserve(cfg, d.books).Some?
    ensures DraftOk(cfg, d.(books := Reserve(cfg, d.books).value), t, 1)
    ensures OnlyShrinks(d, d.(books := Reserve(cfg, d.books).value), t)
  {
    hide TenantOk, OneFate, SameLane;
    var b' := Reserve(cfg, d.books).value;
    StatsOnlyKeepsTenant(d.state, t, d.books, b');
    StatsOnlyKeepsFates(d.books, b');
    forall t2, p: Priority ensures SameLane(d.books, b', t2, p) {
      SameLaneRefl(d.books, t2, p);
      StatsOnlyIsInvisible(d.books, d.books, b', t2, p);
    }
  }

  lemma SameLaneRefl(b: Books, t: Tenant, p: Priority)
    ensures SameLane(b, b, t, p)
  {
  }

  lemma ReserveOrPurgeKeeps(cfg: Config, clock: Clock, d: Draft, ranFull: bool, t: Tenant)
    requires DraftOk(cfg, d, t, 0)
    ensures AdmissionOk(cfg, d, ReserveOrPurge(cfg, clock, d, ranFull), t)
  {
    hide DraftOk, OnlyShrinks, PurgeForEnqueue, Reserve;
    ShrinksRefl(d, t);
    if Reserve(cfg, d.books).Some? {
      ReserveKeeps(cfg, d, t);
    } else if !ranFull {
      PurgeKeeps(cfg, clock, d, Full, t, 0);
      var d1 := PurgeForEnqueue(clock, d, Full).0;
      if Reserve(cfg, d1.books).Some? {
        ReserveKeeps(cfg, d1, t);
        ShrinksTrans(d, d1, d1.(books := Reserve(cfg, d1.books).value), t);
      }
    }
  }

  lemma AdmitOrRejectKeeps(cfg: Config, clock: Clock, d: Draft, t: Tenant)
    requires DraftOk(cfg, d, t, 0)
    ensures AdmissionOk(cfg, d, AdmitOrReject(cfg, clock, d), t)
    ensures AdmitOrReject(cfg, clock, d).refusal.None? ==> AdmitOrReject(cfg, clock, d).draft.state.TotalLen() < cfg.maxPerTenant
  {
    hide DraftOk, OnlyShrinks, PurgeForEnqueue, MaybePurge, ReserveOrPurge;
    MaybePurgeKeeps(cfg, clock, d, t);
    var (d1, ranFull1) := MaybePurge(cfg, clock, d);
    var full := d1.state.TotalLen() >= cfg.maxPerTenant;
    var d2 := d1;
    if full && !ranFull1 {
      PurgeKeeps(cfg, clock, d1, Full, t, 0);
      d2 := PurgeForEnqueue(clock, d1, Full).0;
      ShrinksTrans(d, d1, d2, t);
    }
    if !(full && d2.state.TotalLen() >= cfg.maxPerTenant) {
      ReserveOrPurgeKeeps(cfg, clock, d2, ranFull1 || full, t);
      ShrinksTrans(d, d2, ReserveOrPurge(cfg, clock, d2, ranFull1 || full).draft, t);
      ReserveOrPurgeShrinks(cfg, clock, d2, ranFull1 || full);
    }
  }

  lemma PurgeIsShorter(clock: Clock, d: Draft, reason: PurgeReason)
    ensures PurgeForEnqueue(clock, d, reason).0.state.TotalLen() <= d.state.TotalLen()
  {
    hide PurgedQueue, RemovedIds, Reap;
    var c, now, budget := d.books.cancelled, clock.now(d.samples), ScanBudget(reason);
    PurgedIsShorter(d.state.queues.high, c, now, budget);
    PurgedIsShorter(d.state.queues.normal, c, now, budget);
    PurgedIsShorter(d.state.queues.low, c, now, budget);
  }

  lemma ReserveOrPurgeShrinks(cfg: Config, clock: Clock, d: Draft, ranFull: bool)
    ensures ReserveOrPurge(cfg, clock, d, ranFull).draft.state.TotalLen() <= d.state.TotalLen()
  {
    hide PurgeForEnqueue, TenantState.TotalLen;
    PurgeIsShorter(clock, d, Full);
  }

  lemma PurgedIsShorter(q: seq<Entry>, cancelled: set<Id>, now: Time, budget: nat)
    ensures |PurgedQueue(q, cancelled, now, budget)| <= |q|
  {
    var rest := q[DeadPrefix(q, cancelled, now)..];
    LiveIsShorter(rest[..Min(budget, |rest|)], cancelled, now);
  }

  lemma EvictKeepsTenant(ts: TenantState, p: Priority, strategy: Strategy, t: Tenant, b: Books)
    requires TenantOk(ts, t, b) && ts.queues.At(p) != []
    ensures var (ts', e) := Evict(ts, p, strategy);
            && TenantOk(ts', t, Displace(b, e.id))
            && EntryOk(e, t, p, b)
  {
    hide TenantOk, EntryOk;
    var (ts', e) := Evict(ts, p, strategy);
    var q, q', b' := ts.queues, ts'.queues, Displace(b, e.id);
    LaneOfAll(ts, t, b);
    assert e in q.At(p);
    assert b'.pending == b.pending - {e.id};
    forall p2: Priority ensures LaneOk(q'.At(p2), t, p2, b') {
      assert LaneOk(q.At(p2), t, p2, b);
      if p2 == p {
        EvictedIds(ts, p, strategy);
      } else {
        LanesDisjoint(q.At(p), p, q.At(p2), p2, t, b);
      }
      ShrinkKeeps(q.At(p2), q'.At(p2), t, p2, b, b', {e.id});
    }
    LanesMakeTenant(ts', t, b');
  }

  lemma EvictedIds(ts: TenantState, p: Priority, strategy: Strategy)
    requires ts.queues.At(p) != [] && Increasing(ts.queues.At(p))
    ensures var (ts', e) := Evict(ts, p, strategy);
            var q, q' := ts.queues.At(p), ts'.queues.At(p);
            Increasing(q') && (forall x :: x in q' ==> x in q) && Ids(q) - Ids(q') <= {e.id} && e.id !in Ids(q')
  {
    var (ts', e) := Evict(ts, p, strategy);
    var q, q' := ts.queues.At(p), ts'.queues.At(p);
    assert forall x :: x in q ==> x in q' || x == e;
  }

  lemma EvictKeeps(cfg: Config, d: Draft, p: Priority, strategy: Strategy, t: Tenant)
    requires DraftOk(cfg, d, t, 0) && d.state.queues.At(p) != []
    ensures var (ts, e) := Evict(d.state, p, strategy);
            var d' := Draft(ts, Displace(d.books, e.id), d.samples);
            && DraftOk(cfg, d', t, if e.id in d.books.pending then 1 else 0)
            && OnlyShrinks(d, d', t)
            && ts.TotalLen() < d.state.TotalLen()
  {
    hide TenantOk, BooksOk, SameLane;
    var (ts, e) := Evict(d.state, p, strategy);
    var d' := Draft(ts, Displace(d.books, e.id), d.samples);
    EvictKeepsTenant(d.state, p, strategy, t, d.books);
    DisplaceKeepsBooks(cfg, d.books, e.id);
    assert d'.books.pending == d.books.pending - {e.id};
    RemovalIsLocal(d.books, d'.books, {e.id}, t);
  }

  lemma LaneOfAll(ts: TenantState, t: Tenant, b: Books)
    requires TenantOk(ts, t, b)
    ensures forall p: Priority :: LaneOk(ts.queues.At(p), t, p, b)
  {
  }

  lemma LanesMakeTenant(ts: TenantState, t: Tenant, b: Books)
    requires forall p: Priority :: LaneOk(ts.queues.At(p), t, p, b)
    ensures TenantOk(ts, t, b)
  {
    assert LaneOk(ts.queues.At(High), t, High, b) && LaneOk(ts.queues.At(Normal), t, Normal, b) && LaneOk(ts.queues.At(Low), t, Low, b);
  }

  lemma AdmitOrEvictKeeps(cfg: Config, clock: Clock, d: Draft, strategy: Strategy, incoming: Priority, t: Tenant)
    requires DraftOk(cfg, d, t, 0)
    ensures AdmissionOk(cfg, d, AdmitOrEvict(cfg, clock, d, strategy, incoming), t)
    ensures var a := AdmitOrEvict(cfg, clock, d, strategy, incoming);
            a.refusal.None? ==> a.draft.state.TotalLen() < cfg.maxPerTenant
  {
    hide DraftOk, OnlyShrinks, PurgeForEnqueue, MaybePurge, ReserveOrPurge, Displace;
    MaybePurgeKeeps(cfg, clock, d, t);
    var (d1, ranFull) := MaybePurge(cfg, clock, d);
    var tenantFull := d1.state.TotalLen() >= cfg.maxPerTenant;
    if !tenantFull && d1.books.stats.queueLen < cfg.maxGlobal {
      ReserveOrPurgeKeeps(cfg, clock, d1, ranFull, t);
      ReserveOrPurgeShrinks(cfg, clock, d1, ranFull);
      ShrinksTrans(d, d1, ReserveOrPurge(cfg, clock, d1, ranFull).draft, t);
    } else {
      var from := EvictFrom(d1.state, incoming);
      if from.Some? {
        EvictKeeps(cfg, d1, from.value, strategy, t);
        DraftFits(cfg, d1, t, 0);
        var (ts, e) := Evict(d1.state, from.value, strategy);
        var d2 := Draft(ts, Displace(d1.books, e.id), d1.samples);
        ShrinksTrans(d, d1, d2, t);
        if e.id !in d1.books.pending {
          ReserveOrPurgeKeeps(cfg, clock, d2, ranFull, t);
          ReserveOrPurgeShrinks(cfg, clock, d2, ranFull);
          ShrinksTrans(d, d2, ReserveOrPurge(cfg, clock, d2, ranFull).draft, t);
        }
      }
    }
  }

  lemma AdmitKeeps(cfg: Config, clock: Clock, d: Draft, t: Tenant, task: Task)
    requires DraftOk(cfg, d, t, 0)
    ensures AdmissionOk(cfg, d, Admit(cfg, clock, d, t, task), t)
    ensures Admit(cfg, clock, d, t, task).refusal.None? ==> Admit(cfg, clock, d, t, task).draft.state.TotalLen() < cfg.maxPerTenant
  {
    match PolicyFor(cfg, t)
    case Reject => AdmitOrRejectKeeps(cfg, clock, d, t);
    case Timeout(_) => AdmitOrRejectKeeps(cfg, clock, d, t);
    case DropOldest => AdmitOrEvictKeeps(cfg, clock, d, Oldest, task.priority, t);
    case DropNewest => AdmitOrEvictKeeps(cfg, clock, d, Newest, task.priority, t);
  }
}
