/** When an enqueue is admitted, refused or evicts: exact conditions on what is queued, pending and expired. */
module Admissions {
  import opened Types
  import opened World
  import opened Invariant
  import opened EnqueueProofs
  import opened Preservation
  import opened Delivery
  import opened Limits

  // ---------------------------------------------------------------- what a purge finds and leaves

  /** What the purges of an enqueue work on: the tenant's queues, the pending ids, the markers, and the number of
      the next clock reading. */
  datatype Stock = Stock(queues: Three<seq<Entry>>, pending: set<Id>, cancelled: set<Id>, at: nat)

  function StockOf(d: Draft): Stock {
    Stock(d.state.queues, d.books.pending, d.books.cancelled, d.samples)
  }

  function Len(q: Three<seq<Entry>>): nat {
    |q.high| + |q.normal| + |q.low|
  }

  function Sweep(s: Stock, now: Time, reach: nat): Three<seq<Entry>> {
    Three(PurgedQueue(s.queues.high, s.cancelled, now, reach), PurgedQueue(s.queues.normal, s.cancelled, now, reach),
          PurgedQueue(s.queues.low, s.cancelled, now, reach))
  }

  /** After a purge that looks at the dead prefix and `reach` entries behind it. */
  function Swept(clock: Clock, s: Stock, reach: nat): Stock {
    var q := Sweep(s, clock.now(s.at), reach);
    var removed := RemovedIds(s.queues, q);
    Stock(q, s.pending - removed, s.cancelled - removed, s.at + 1)
  }

  /** How far behind the dead prefix the purge before the limits are checked looks, if it runs: 32 entries for a
      full tenant, 8 at nine tenths of the limit, none otherwise at every 32nd attempt without a purge. */
  function FirstReach(cfg: Config, len: nat, attempts: nat): Option<nat> {
    if len >= cfg.maxPerTenant then Some(32)
    else if 10 * len >= 9 * cfg.maxPerTenant then Some(8)
    else if attempts >= 31 then Some(0)
    else None
  }

  function FirstSwept(cfg: Config, clock: Clock, s: Stock, attempts: nat): Stock {
    match FirstReach(cfg, Len(s.queues), attempts)
    case None => s
    case Some(reach) => Swept(clock, s, reach)
  }

  /** An entry of the tenant that is still pending and past its deadline lies within the purge's reach. */
  ghost predicate Frees(clock: Clock, s: Stock, reach: nat) {
    exists p: Priority, i :: 0 <= i < |s.queues.At(p)| && i < DeadPrefix(s.queues.At(p), s.cancelled, clock.now(s.at)) + reach
      && s.queues.At(p)[i].id in s.pending && Overdue(s.queues.At(p)[i], clock.now(s.at))
  }

  predicate Overdue(e: Entry, now: Time) {
    e.task.deadline.Some? && e.task.deadline.value < now
  }

  lemma PurgeSweeps(clock: Clock, d: Draft, reason: PurgeReason)
    ensures StockOf(PurgeForEnqueue(clock, d, reason).0) ==
            Swept(clock, StockOf(d), match reason case Periodic => 0 case NearLimit => 8 case Full => 32)
  {
    hide PurgedQueue, RemovedIds;
  }

  lemma MaybePurgeSweeps(cfg: Config, clock: Clock, d: Draft)
    ensures StockOf(MaybePurge(cfg, clock, d).0) == FirstSwept(cfg, clock, StockOf(d), d.state.attempts)
    ensures MaybePurge(cfg, clock, d).1 <==> Len(d.state.queues) >= cfg.maxPerTenant
  {
    hide PurgeForEnqueue, Swept;
    var d1 := d.(state := d.state.(attempts := d.state.attempts + 1));
    PurgeSweeps(clock, d1, Periodic);
    PurgeSweeps(clock, d1, NearLimit);
    PurgeSweeps(clock, d1, Full);
  }

  /** The ids a purge removes from one queue. */
  lemma RemovedExactly(q: seq<Entry>, cancelled: set<Id>, now: Time, reach: nat, i: nat)
    requires Increasing(q) && i < |q|
    ensures q[i].id in Ids(q) - Ids(PurgedQueue(q, cancelled, now, reach)) <==>
            Dead(q[i], cancelled, now) && i < DeadPrefix(q, cancelled, now) + reach
  {
    hide PurgedQueue, Dead, DeadPrefix;
    PurgeMembership(q, cancelled, now, reach, i);
    PurgedIsSublist(q, cancelled, now, reach);
    var q' := PurgedQueue(q, cancelled, now, reach);
    assert q[i] in q;
    if q[i].id in Ids(q') {
      var e :| e in q' && e.id == q[i].id;
      assert e in q;
      var j :| 0 <= j < |q| && q[j] == e;
    }
  }

  function Removed(s: Stock, now: Time, reach: nat): set<Id> {
    RemovedIds(s.queues, Sweep(s, now, reach))
  }

  ghost predicate StockOk(s: Stock) {
    && Increasing(s.queues.high) && Increasing(s.queues.normal) && Increasing(s.queues.low)
    && s.pending !! s.cancelled
  }

  lemma DraftStockOk(cfg: Config, d: Draft, t: Tenant, inHand: nat)
    requires DraftOk(cfg, d, t, inHand)
    ensures StockOk(StockOf(d)) && d.books.stats.queueLen == |d.books.pending| + inHand
    ensures d.state.TotalLen() == Len(d.state.queues) <= cfg.maxPerTenant && |d.books.pending| + inHand <= cfg.maxGlobal
  {
    hide LaneOk;
    LanesIncrease(d.state, t, d.books);
    FatesOf(d.books);
  }

  lemma RemovedOf(s: Stock, now: Time, reach: nat, p: Priority)
    ensures Ids(s.queues.At(p)) - Ids(PurgedQueue(s.queues.At(p), s.cancelled, now, reach)) <= Removed(s, now, reach)
  {
    hide PurgedQueue, Ids;
  }

  lemma RemovedFrom(s: Stock, now: Time, reach: nat, id: Id) returns (p: Priority)
    requires id in Removed(s, now, reach)
    ensures id in Ids(s.queues.At(p)) - Ids(PurgedQueue(s.queues.At(p), s.cancelled, now, reach))
  {
    hide PurgedQueue, Ids;
    var q, q' := s.queues, Sweep(s, now, reach);
    p := if id in Ids(q.high) - Ids(q'.high) then High else if id in Ids(q.normal) - Ids(q'.normal) then Normal else Low;
  }

  lemma LaneGrows(s: Stock, p: Priority)
    requires StockOk(s)
    ensures Increasing(s.queues.At(p))
  {
  }

  lemma PlaceOf(q: seq<Entry>, id: Id) returns (i: nat)
    requires id in Ids(q)
    ensures i < |q| && q[i].id == id
  {
    var e :| e in q && e.id == id;
    i :| 0 <= i < |q| && q[i] == e;
  }

  /** A purge takes a pending id if and only if an overdue pending entry is within its reach. */
  lemma SweepFreesExactly(clock: Clock, s: Stock, reach: nat)
    requires StockOk(s)
    ensures Removed(s, clock.now(s.at), reach) * s.pending != {} <==> Frees(clock, s, reach)
  {
    hide PurgedQueue, Ids, DeadPrefix, Removed, StockOk, Increasing;
    var now := clock.now(s.at);
    assert s.pending !! s.cancelled by { ApartStock(s); }
    if id :| id in Removed(s, now, reach) * s.pending {
      var p := RemovedFrom(s, now, reach, id);
      var i := PlaceOf(s.queues.At(p), id);
      LaneGrows(s, p);
      RemovedExactly(s.queues.At(p), s.cancelled, now, reach, i);
    }
    if Frees(clock, s, reach) {
      var p: Priority, i :| 0 <= i < |s.queues.At(p)| && i < DeadPrefix(s.queues.At(p), s.cancelled, now) + reach
        && s.queues.At(p)[i].id in s.pending && Overdue(s.queues.At(p)[i], now);
      LaneGrows(s, p);
      RemovedExactly(s.queues.At(p), s.cancelled, now, reach, i);
      RemovedOf(s, now, reach, p);
      assert s.queues.At(p)[i].id in Removed(s, now, reach) * s.pending;
    }
  }

  lemma ApartStock(s: Stock)
    requires StockOk(s)
    ensures s.pending !! s.cancelled
  {
  }

  /** So it frees slots exactly then, as many as it takes pending ids. */
  lemma SweptPending(clock: Clock, s: Stock, reach: nat)
    requires StockOk(s)
    ensures Swept(clock, s, reach).pending == s.pending <==> !Frees(clock, s, reach)
    ensures Frees(clock, s, reach) ==> |Swept(clock, s, reach).pending| < |s.pending|
  {
    hide Removed, StockOk, Frees, Sweep;
    SweepFreesExactly(clock, s, reach);
    var gone := RemovedIds(s.queues, Sweep(s, clock.now(s.at), reach));
    assert gone == Removed(s, clock.now(s.at), reach) by { RemovedIs(s, clock.now(s.at), reach); }
    CardMinus(s.pending, gone * s.pending);
    assert s.pending - gone == s.pending - gone * s.pending;
  }

  lemma RemovedIs(s: Stock, now: Time, reach: nat)
    ensures Removed(s, now, reach) == RemovedIds(s.queues, Sweep(s, now, reach))
  {
  }

  // ---------------------------------------------------------------- Reject and Timeout

  /** Taking a slot fails if and only if the counter is at the limit and no full purge, or none that is still to
      come, frees one. */
  lemma ReserveFailsExactly(cfg: Config, clock: Clock, d: Draft, ranFull: bool, t: Tenant)
    requires DraftOk(cfg, d, t, 0)
    ensures ReserveOrPurge(cfg, clock, d, ranFull).refusal ==
            if |d.books.pending| == cfg.maxGlobal && (ranFull || !Frees(clock, StockOf(d), 32)) then Some(GlobalFull) else None
  {
    hide DraftOk, PurgeForEnqueue, Frees, Swept;
    DraftStockOk(cfg, d, t, 0);
    PurgeKeepsDraft(cfg, clock, d, Full, t, 0);
    DraftStockOk(cfg, PurgeForEnqueue(clock, d, Full).0, t, 0);
    PurgeSweeps(clock, d, Full);
    SweptPending(clock, StockOf(d), 32);
    ReleasedExactly(clock, d);
  }

  lemma ReleasedExactly(clock: Clock, d: Draft)
    ensures PurgeForEnqueue(clock, d, Full).1 > 0 <==> Swept(clock, StockOf(d), 32).pending != d.books.pending
  {
    hide PurgedQueue, RemovedIds;
    var removed := RemovedIds(d.state.queues, PurgedState(d.state, d.books.cancelled, clock.now(d.samples), 32).queues);
    if id :| id in removed * d.books.pending {
      assert id in d.books.pending && id !in d.books.pending - removed;
    } else {
      assert forall x: Id :: x in d.books.pending && x in removed ==> x in removed * d.books.pending;
    }
  }

  /** Under Reject and Timeout an enqueue that is not refused for its tenant is refused as globally full if and
      only if as many ids are pending as the limit allows and its purges free none: not the one before the limits
      are checked, and, unless that was a full one already, not the full one after it. Nothing is ever evicted. */
  lemma GlobalFullExactly(cfg: Config, clock: Clock, w: World, t: Tenant, task: Task, policy: Policy)
    requires Inv(cfg, w) && Governs(cfg, policy, t) && (policy.Reject? || policy.Timeout?)
    ensures var ts := HomeState(w, t);
            var s := Stock(ts.queues, w.books.pending, w.books.cancelled, w.samples);
            var len, first := Len(ts.queues), FirstReach(cfg, Len(ts.queues), ts.attempts);
            var refusal := AdmissionOf(cfg, clock, w, t, task).refusal;
            && (refusal == Some(GlobalFull) <==>
                  && |w.books.pending| == cfg.maxGlobal
                  && !(len == cfg.maxPerTenant && TenantClean(ts, w.books.cancelled, clock.now(w.samples), 32))
                  && (first.Some? ==> !Frees(clock, s, first.value))
                  && (len < cfg.maxPerTenant ==> !Frees(clock, FirstSwept(cfg, clock, s, ts.attempts), 32)))
            && refusal in {None, Some(GlobalFull), Some(TenantFull)}
            && AdmissionOf(cfg, clock, w, t, task).draft.books.history.evicted == w.books.history.evicted
  {
    hide Inv, AdmitOrReject, HomeState, TenantClean, Frees, Swept, FirstReach;
    InvShards(cfg, w);
    var d := Draft(HomeState(w, t), w.books, w.samples);
    HomeDraftOk(cfg, w, t);
    TenantFullExactly(cfg, clock, w, t, task);
    DraftGlobalExactly(cfg, clock, d, t);
    DraftStockOk(cfg, d, t, 0);
    RejectOnlyExpires(cfg, clock, d);
  }

  lemma DraftGlobalExactly(cfg: Config, clock: Clock, d: Draft, t: Tenant)
    requires DraftOk(cfg, d, t, 0)
    ensures var s, len := StockOf(d), Len(d.state.queues);
            var first := FirstReach(cfg, len, d.state.attempts);
            var refusal := AdmitOrReject(cfg, clock, d).refusal;
            && (refusal != Some(TenantFull) ==>
                  (refusal == Some(GlobalFull) <==>
                     && |d.books.pending| == cfg.maxGlobal
                     && (first.Some? ==> !Frees(clock, s, first.value))
                     && (len < cfg.maxPerTenant ==> !Frees(clock, FirstSwept(cfg, clock, s, d.state.attempts), 32))))
            && refusal in {None, Some(GlobalFull), Some(TenantFull)}
  {
    hide DraftOk, PurgeForEnqueue, MaybePurge, ReserveOrPurge, Frees, Swept;
    var s := StockOf(d);
    var (d1, ranFull) := MaybePurge(cfg, clock, d);
    DraftStockOk(cfg, d, t, 0);
    MaybePurgeKeeps(cfg, clock, d, t);
    DraftStockOk(cfg, d1, t, 0);
    MaybePurgeSweeps(cfg, clock, d);
    FirstIsShorter(cfg, clock, d);
    ReserveFailsExactly(cfg, clock, d1, ranFull, t);
    var first := FirstReach(cfg, Len(d.state.queues), d.state.attempts);
    if first.Some? {
      SweptPending(clock, s, first.value);
    }
  }

  lemma FirstIsShorter(cfg: Config, clock: Clock, d: Draft)
    ensures MaybePurge(cfg, clock, d).0.state.TotalLen() <= d.state.TotalLen()
  {
    hide PurgeForEnqueue, PurgeReasonFor;
    var d1 := d.(state := d.state.(attempts := d.state.attempts + 1));
    PurgeIsShorter(clock, d1, Periodic);
    PurgeIsShorter(clock, d1, NearLimit);
    PurgeIsShorter(clock, d1, Full);
  }

  // ---------------------------------------------------------------- DropOldest and DropNewest

  /** Every queue an eviction for this priority may touch is empty. */
  ghost predicate NoVictim(q: Three<seq<Entry>>, incoming: Priority) {
    forall p: Priority :: p.Index() >= incoming.Index() ==> q.At(p) == []
  }

  /** The entry to give way: the oldest or the newest of the least important non-empty queue, unless that is more
      important than the newcomer. */
  ghost predicate IsVictim(q: Three<seq<Entry>>, incoming: Priority, policy: Policy, p: Priority, e: Entry) {
    && p.Index() >= incoming.Index() && q.At(p) != []
    && (forall p2: Priority :: p2.Index() > p.Index() ==> q.At(p2) == [])
    && e == if policy.DropOldest? then q.At(p)[0] else q.At(p)[|q.At(p)| - 1]
  }

  /** The queues without it. */
  function WithoutVictim(q: Three<seq<Entry>>, policy: Policy, p: Priority): Three<seq<Entry>>
    requires q.At(p) != []
  {
    q.With(p, if policy.DropOldest? then q.At(p)[1..] else q.At(p)[..|q.At(p)| - 1])
  }

  /** What an enqueue under a Drop policy comes to, told from the stock `s1` the purge before the limits leaves. */
  ghost predicate DropAnswer(cfg: Config, clock: Clock, s1: Stock, ranFull: bool, policy: Policy, incoming: Priority, evicted: set<Id>, a: Admission) {
    var tenantFull, globalFull := Len(s1.queues) >= cfg.maxPerTenant, |s1.pending| >= cfg.maxGlobal;
    var s', evicted' := StockOf(a.draft), a.draft.books.history.evicted;
    && (!tenantFull && !globalFull ==> a.refusal == None && s' == s1 && evicted' == evicted)
    && ((tenantFull || globalFull) && NoVictim(s1.queues, incoming) ==>
          a.refusal == Some(if tenantFull then TenantFull else GlobalFull) && s' == s1 && evicted' == evicted)
    && (forall p, e :: (tenantFull || globalFull) && IsVictim(s1.queues, incoming, policy, p, e) ==>
          VictimAnswer(cfg, clock, s1, ranFull, policy, evicted, a, p, e))
  }

  /** A pending victim leaves its slot to the newcomer; a dead one does not. */
  ghost predicate VictimAnswer(cfg: Config, clock: Clock, s1: Stock, ranFull: bool, policy: Policy, evicted: set<Id>, a: Admission, p: Priority, e: Entry)
    requires s1.queues.At(p) != []
  {
    var s2 := s1.(queues := WithoutVictim(s1.queues, policy, p), cancelled := s1.cancelled - {e.id});
    if e.id in s1.pending then
      && a.refusal == None && StockOf(a.draft) == s2.(pending := s1.pending - {e.id})
      && a.draft.books.history.evicted == evicted + {e.id}
    else
      && a.draft.books.history.evicted == evicted
      && a.refusal == if |s1.pending| >= cfg.maxGlobal && (ranFull || !Frees(clock, s2, 32)) then Some(GlobalFull) else None
  }

  lemma VictimIs(ts: TenantState, incoming: Priority, policy: Policy, p: Priority, e: Entry)
    requires (policy.DropOldest? || policy.DropNewest?) && IsVictim(ts.queues, incoming, policy, p, e)
    ensures var strategy := if policy.DropOldest? then Oldest else Newest;
            && EvictFrom(ts, incoming) == Some(p)
            && Evict(ts, p, strategy) == (ts.(queues := WithoutVictim(ts.queues, policy, p)), e)
  {
    EvictionRespectsPriority(ts, incoming);
    var from := EvictFrom(ts, incoming);
    assert from.Some?;
    assert from.value.Index() == p.Index();
    assert High.Index() == 0 && Normal.Index() == 1 && Low.Index() == 2;
  }

  lemma ReserveOnly(cfg: Config, clock: Clock, d: Draft, ranFull: bool)
    ensures ReserveOrPurge(cfg, clock, d, ranFull).draft.books.history.evicted == d.books.history.evicted
    ensures Reserve(cfg, d.books).Some? ==> StockOf(ReserveOrPurge(cfg, clock, d, ranFull).draft) == StockOf(d)
  {
    hide PurgeForEnqueue;
    ReserveOnlyExpires(cfg, clock, d, ranFull);
  }

  lemma DraftVictim(cfg: Config, clock: Clock, d: Draft, t: Tenant, ranFull: bool, policy: Policy, incoming: Priority, p: Priority, e: Entry)
    requires DraftOk(cfg, d, t, 0) && (policy.DropOldest? || policy.DropNewest?) && IsVictim(d.state.queues, incoming, policy, p, e)
    ensures var strategy := if policy.DropOldest? then Oldest else Newest;
            && EvictFrom(d.state, incoming) == Some(p)
            && var (ts, out) := Evict(d.state, p, strategy);
               var d2 := Draft(ts, Displace(d.books, out.id), d.samples);
               VictimAnswer(cfg, clock, StockOf(d), ranFull, policy, d.books.history.evicted,
                            if out.id in d.books.pending then Admission(d2, None) else ReserveOrPurge(cfg, clock, d2, ranFull), p, e)
  {
    hide DraftOk, ReserveOrPurge, Frees, EvictFrom, Evict, PurgeForEnqueue;
    var strategy := if policy.DropOldest? then Oldest else Newest;
    VictimIs(d.state, incoming, policy, p, e);
    EvictKeeps(cfg, d, p, strategy, t);
    var (ts, out) := Evict(d.state, p, strategy);
    var d2 := Draft(ts, Displace(d.books, out.id), d.samples);
    if e.id !in d.books.pending {
      DraftStockOk(cfg, d, t, 0);
      DraftStockOk(cfg, d2, t, 0);
      ReserveFailsExactly(cfg, clock, d2, ranFull, t);
      ReserveOnly(cfg, clock, d2, ranFull);
      assert d.books.pending - {e.id} == d.books.pending;
    }
  }

  lemma DraftDropExactly(cfg: Config, clock: Clock, d: Draft, t: Tenant, policy: Policy, incoming: Priority)
    requires DraftOk(cfg, d, t, 0) && (policy.DropOldest? || policy.DropNewest?)
    ensures DropAnswer(cfg, clock, FirstSwept(cfg, clock, StockOf(d), d.state.attempts), Len(d.state.queues) >= cfg.maxPerTenant, policy, incoming,
                       d.books.history.evicted, AdmitOrEvict(cfg, clock, d, if policy.DropOldest? then Oldest else Newest, incoming))
  {
    hide DraftOk, PurgeForEnqueue, MaybePurge, ReserveOrPurge, Frees, FirstSwept, EvictFrom, Evict;
    var strategy := if policy.DropOldest? then Oldest else Newest;
    var (d1, ranFull) := MaybePurge(cfg, clock, d);
    var a := AdmitOrEvict(cfg, clock, d, strategy, incoming);
    var s1 := FirstSwept(cfg, clock, StockOf(d), d.state.attempts);
    MaybePurgeKeeps(cfg, clock, d, t);
    DraftStockOk(cfg, d1, t, 0);
    MaybePurgeSweeps(cfg, clock, d);
    MaybePurgeOnlyExpires(cfg, clock, d);
    ReserveOnly(cfg, clock, d1, ranFull);
    ReserveFailsExactly(cfg, clock, d1, ranFull, t);
    EvictionRespectsPriority(d1.state, incoming);
    forall p, e | (Len(s1.queues) >= cfg.maxPerTenant || |s1.pending| >= cfg.maxGlobal) && IsVictim(s1.queues, incoming, policy, p, e)
      ensures VictimAnswer(cfg, clock, s1, ranFull, policy, d.books.history.evicted, a, p, e)
    {
      DraftVictim(cfg, clock, d1, t, ranFull, policy, incoming, p, e);
    }
  }

  /** Under DropOldest and DropNewest: below both limits an enqueue is admitted and nothing else moves. At a limit
      it is refused if and only if every queue it may evict from is empty, for its tenant if that one is full,
      else as globally full; otherwise the one victim leaves, and if that was dead already the slot must come from
      elsewhere. */
  lemma DropExactly(cfg: Config, clock: Clock, w: World, t: Tenant, task: Task, policy: Policy)
    requires Inv(cfg, w) && Governs(cfg, policy, t) && (policy.DropOldest? || policy.DropNewest?)
    ensures var ts := HomeState(w, t);
            var s1 := FirstSwept(cfg, clock, Stock(ts.queues, w.books.pending, w.books.cancelled, w.samples), ts.attempts);
            var a := AdmissionOf(cfg, clock, w, t, task);
            && DropAnswer(cfg, clock, s1, Len(ts.queues) >= cfg.maxPerTenant, policy, task.priority, w.books.history.evicted, a)
            && (a.refusal == Some(TenantFull) <==> Len(s1.queues) == cfg.maxPerTenant && NoVictim(s1.queues, task.priority))
  {
    hide Inv, AdmitOrEvict, AdmitOrReject, HomeState, FirstSwept, DropAnswer, DraftOk, MaybePurge, NoVictim, OnlyShrinks;
    InvShards(cfg, w);
    var d := Draft(HomeState(w, t), w.books, w.samples);
    HomeDraftOk(cfg, w, t);
    DraftDropExactly(cfg, clock, d, t, policy, task.priority);
    var s1 := FirstSwept(cfg, clock, StockOf(d), d.state.attempts);
    MaybePurgeKeeps(cfg, clock, d, t);
    MaybePurgeSweeps(cfg, clock, d);
    DraftStockOk(cfg, MaybePurge(cfg, clock, d).0, t, 0);
    TenantFullUnderDrop(cfg, clock, s1, Len(d.state.queues) >= cfg.maxPerTenant, policy, task.priority, w.books.history.evicted,
                        AdmissionOf(cfg, clock, w, t, task));
  }

  lemma TenantFullUnderDrop(cfg: Config, clock: Clock, s1: Stock, ranFull: bool, policy: Policy, incoming: Priority, evicted: set<Id>, a: Admission)
    requires Len(s1.queues) <= cfg.maxPerTenant && DropAnswer(cfg, clock, s1, ranFull, policy, incoming, evicted, a)
    ensures a.refusal == Some(TenantFull) <==> Len(s1.queues) == cfg.maxPerTenant && NoVictim(s1.queues, incoming)
  {
    hide Frees, StockOf, WithoutVictim;
    if !NoVictim(s1.queues, incoming) {
      var p, e := SomeVictim(s1.queues, incoming, policy);
      assert (Len(s1.queues) >= cfg.maxPerTenant || |s1.pending| >= cfg.maxGlobal) ==> VictimAnswer(cfg, clock, s1, ranFull, policy, evicted, a, p, e);
    }
  }

  lemma SomeVictim(q: Three<seq<Entry>>, incoming: Priority, policy: Policy) returns (p: Priority, e: Entry)
    requires !NoVictim(q, incoming)
    ensures IsVictim(q, incoming, policy, p, e)
  {
    p := if q.low != [] then Low else if q.normal != [] then Normal else High;
    assert q.At(High) == q.high && q.At(Normal) == q.normal && q.At(Low) == q.low;
    assert High.Index() == 0 && Normal.Index() == 1 && Low.Index() == 2;
    e := if policy.DropOldest? then q.At(p)[0] else q.At(p)[|q.At(p)| - 1];
  }

  // ---------------------------------------------------------------- when purges run

  /** From draft `d` to `d'`: the tenant counts its attempts since its last purge. */
  ghost predicate AttemptCounted(d: Draft, d': Draft) {
    && d'.books.stats.purgeRuns >= d.books.stats.purgeRuns
    && d'.state.attempts == if d'.books.stats.purgeRuns > d.books.stats.purgeRuns then 0 else d.state.attempts + 1
  }

  lemma PurgeResets(clock: Clock, d: Draft, reason: PurgeReason)
    ensures var d' := PurgeForEnqueue(clock, d, reason).0;
            d'.books.stats.purgeRuns == d.books.stats.purgeRuns + 1 && d'.state.attempts == 0
  {
    hide PurgedState, RemovedIds;
  }

  lemma MaybePurgeCounts(cfg: Config, clock: Clock, d: Draft)
    ensures var d' := MaybePurge(cfg, clock, d).0;
            && AttemptCounted(d, d')
            && (d'.books.stats.purgeRuns > d.books.stats.purgeRuns <==> FirstReach(cfg, Len(d.state.queues), d.state.attempts).Some?)
  {
    hide PurgeForEnqueue;
    var d1 := d.(state := d.state.(attempts := d.state.attempts + 1));
    PurgeResets(clock, d1, Periodic);
    PurgeResets(clock, d1, NearLimit);
    PurgeResets(clock, d1, Full);
  }

  /** Taking a slot purges if and only if none is left and no full purge ran. */
  lemma ReserveCounts(cfg: Config, clock: Clock, d: Draft, ranFull: bool)
    ensures var d' := ReserveOrPurge(cfg, clock, d, ranFull).draft;
            if d.books.stats.queueLen >= cfg.maxGlobal && !ranFull
            then d'.books.stats.purgeRuns == d.books.stats.purgeRuns + 1 && d'.state.attempts == 0
            else d'.books.stats.purgeRuns == d.books.stats.purgeRuns && d'.state.attempts == d.state.attempts
  {
    hide PurgeForEnqueue;
    PurgeResets(clock, d, Full);
  }

  lemma RejectCounts(cfg: Config, clock: Clock, d: Draft)
    ensures var d' := AdmitOrReject(cfg, clock, d).draft;
            && AttemptCounted(d, d')
            && (FirstReach(cfg, Len(d.state.queues), d.state.attempts).Some? ==> d'.books.stats.purgeRuns > d.books.stats.purgeRuns)
            && (FirstReach(cfg, Len(d.state.queues), d.state.attempts).None? && d.books.stats.queueLen < cfg.maxGlobal ==>
                  d'.books.stats.purgeRuns == d.books.stats.purgeRuns)
  {
    hide PurgeForEnqueue, MaybePurge, ReserveOrPurge, FirstReach;
    MaybePurgeCounts(cfg, clock, d);
    MaybePurgeSweeps(cfg, clock, d);
    FirstIsShorter(cfg, clock, d);
    var (d1, ranFull) := MaybePurge(cfg, clock, d);
    NoPurgeNoChange(cfg, clock, d);
    ReserveCounts(cfg, clock, d1, ranFull);
  }

  lemma NoPurgeNoChange(cfg: Config, clock: Clock, d: Draft)
    ensures FirstReach(cfg, Len(d.state.queues), d.state.attempts).None? ==>
              MaybePurge(cfg, clock, d).0 == d.(state := d.state.(attempts := d.state.attempts + 1))
  {
    hide PurgeForEnqueue;
  }

  lemma EvictCounts(cfg: Config, clock: Clock, d: Draft, strategy: Strategy, incoming: Priority)
    ensures var d' := AdmitOrEvict(cfg, clock, d, strategy, incoming).draft;
            && AttemptCounted(d, d')
            && (FirstReach(cfg, Len(d.state.queues), d.state.attempts).Some? ==> d'.books.stats.purgeRuns > d.books.stats.purgeRuns)
            && (FirstReach(cfg, Len(d.state.queues), d.state.attempts).None? && d.books.stats.queueLen < cfg.maxGlobal ==>
                  d'.books.stats.purgeRuns == d.books.stats.purgeRuns)
  {
    hide PurgeForEnqueue, MaybePurge, ReserveOrPurge, FirstReach, TenantState.TotalLen;
    MaybePurgeCounts(cfg, clock, d);
    var (d1, ranFull) := MaybePurge(cfg, clock, d);
    NoPurgeNoChange(cfg, clock, d);
    ReserveCounts(cfg, clock, d1, ranFull);
    var from := EvictFrom(d1.state, incoming);
    if from.Some? {
      var (ts, e) := Evict(d1.state, from.value, strategy);
      ReserveCounts(cfg, clock, Draft(ts, Displace(d1.books, e.id), d1.samples), ranFull);
    }
  }

  /** A tenant counts the attempts since its last purge. Before the limits are checked a purge runs if the tenant is at
      nine tenths of its limit, or if this is the 32nd attempt since; below both limits no other purge runs. */
  lemma PurgesWhenDue(cfg: Config, clock: Clock, w: World, t: Tenant, task: Task)
    requires w.shards != []
    ensures var ts, before := HomeState(w, t), w.books.stats;
            var w' := Enqueue(cfg, clock, w, t, task);
            var due := 10 * Len(ts.queues) >= 9 * cfg.maxPerTenant || ts.attempts + 1 >= 32;
            && |w'.shards| == |w.shards| && w'.books.stats.purgeRuns >= before.purgeRuns
            && HomeState(w', t).attempts == (if w'.books.stats.purgeRuns > before.purgeRuns then 0 else ts.attempts + 1)
            && (due ==> w'.books.stats.purgeRuns > before.purgeRuns)
            && (!due && before.queueLen < cfg.maxGlobal ==> w'.books.stats.purgeRuns == before.purgeRuns)
  {
    hide AdmitOrReject, AdmitOrEvict, HomeState, RecordReject, Accept;
    var d := Draft(HomeState(w, t), w.books, w.samples);
    RejectCounts(cfg, clock, d);
    EvictCounts(cfg, clock, d, Oldest, task.priority);
    EvictCounts(cfg, clock, d, Newest, task.priority);
    var a := AdmissionOf(cfg, clock, w, t, task);
    HomeOf(Enqueue(cfg, clock, w, t, task), t);
    RejectIsStats(a.draft.books);
    AcceptKeepsRuns(a.draft.books, t, task);
  }

  lemma RejectIsStats(b: Books)
    ensures forall reason :: RecordReject(b, reason).stats.purgeRuns == b.stats.purgeRuns
  {
  }

  lemma AcceptKeepsRuns(b: Books, t: Tenant, task: Task)
    ensures Accept(b, t, task).stats.purgeRuns == b.stats.purgeRuns
  {
  }
}
