/** Per-tenant limits: what a purge removes, when a tenant counts as full, whom an eviction may hit. */
module Limits {
  import opened Types
  import opened World
  import opened Invariant
  import opened EnqueueProofs
  import opened Preservation

  /** The policy that governs tenant `t`: its own if it has one, else the default. */
  ghost predicate Governs(cfg: Config, policy: Policy, t: Tenant) {
    policy == if t in cfg.policyByTenant then cfg.policyByTenant[t] else cfg.policy
  }

  // ---------------------------------------------------------------- purges

  lemma {:induction false} LiveKeepsLive(q: seq<Entry>, cancelled: set<Id>, now: Time)
    ensures forall e :: e in Live(q, cancelled, now) <==> e in q && !Dead(e, cancelled, now)
  {
    if q != [] {
      assert q == [q[0]] + q[1..];
      LiveKeepsLive(q[1..], cancelled, now);
    }
  }

  lemma PlaceInRest(q: seq<Entry>, from: nat, i: nat)
    requires Increasing(q) && i < |q| && from <= |q|
    ensures q[i] in q[from..] <==> i >= from
    ensures q[i] in q[..from] <==> i < from
  {
    if i >= from {
      assert q[from..][i - from] == q[i];
    } else {
      assert q[..from][i] == q[i];
    }
  }

  lemma FrontOfRest(q: seq<Entry>, k: nat, b: nat)
    requires k + b <= |q|
    ensures forall e :: e in q[k..][..b] ==> e in q[..k + b]
  {
    assert q[k..][..b] == q[..k + b][k..];
  }

  lemma PurgeMembership(q: seq<Entry>, cancelled: set<Id>, now: Time, budget: nat, i: nat)
    requires Increasing(q) && i < |q|
    ensures q[i] in PurgedQueue(q, cancelled, now, budget) <==>
            !Dead(q[i], cancelled, now) || i >= DeadPrefix(q, cancelled, now) + budget
  {
    hide Dead, Live, Increasing;
    var k := DeadPrefix(q, cancelled, now);
    var rest := q[k..];
    var b := Min(budget, |rest|);
    LiveKeepsLive(rest[..b], cancelled, now);
    assert rest[b..] == q[k + b..];
    PlaceInRest(q, k + b, i);
    if k <= i < k + b {
      assert rest[..b][i - k] == q[i];
    }
    FrontOfRest(q, k, b);
  }

  /** A purge keeps the survivors in order and removes exactly the dead entries that lie in the dead
      prefix or among the next `budget`. */
  lemma PurgeRemovesOnlyDead(q: seq<Entry>, cancelled: set<Id>, now: Time, budget: nat)
    requires Increasing(q)
    ensures var q' := PurgedQueue(q, cancelled, now, budget);
            && Increasing(q')
            && (forall e :: e in q' ==> e in q)
            && (forall i :: 0 <= i < |q| ==>
                  (q[i] in q' <==> !Dead(q[i], cancelled, now) || i >= DeadPrefix(q, cancelled, now) + budget))
  {
    hide PurgedQueue, Increasing, Dead, DeadPrefix;
    PurgedIsSublist(q, cancelled, now, budget);
    forall i | 0 <= i < |q|
      ensures q[i] in PurgedQueue(q, cancelled, now, budget) <==>
              !Dead(q[i], cancelled, now) || i >= DeadPrefix(q, cancelled, now) + budget
    {
      PurgeMembership(q, cancelled, now, budget, i);
    }
  }

  lemma {:induction false} AllLiveStay(q: seq<Entry>, cancelled: set<Id>, now: Time)
    ensures |Live(q, cancelled, now)| == |q| <==> forall i :: 0 <= i < |q| ==> !Dead(q[i], cancelled, now)
    ensures |Live(q, cancelled, now)| <= |q|
  {
    if q != [] {
      AllLiveStay(q[1..], cancelled, now);
      assert q == [q[0]] + q[1..];
    }
  }

  /** No dead entry among the first `budget`. */
  ghost predicate CleanFront(q: seq<Entry>, cancelled: set<Id>, now: Time, budget: nat) {
    forall i :: 0 <= i < |q| && i < budget ==> !Dead(q[i], cancelled, now)
  }

  lemma PurgeIdleExactly(q: seq<Entry>, cancelled: set<Id>, now: Time, budget: nat)
    requires budget >= 1
    ensures |PurgedQueue(q, cancelled, now, budget)| == |q| <==> CleanFront(q, cancelled, now, budget)
    ensures |PurgedQueue(q, cancelled, now, budget)| <= |q|
  {
    var k := DeadPrefix(q, cancelled, now);
    var rest := q[k..];
    var b := Min(budget, |rest|);
    AllLiveStay(rest[..b], cancelled, now);
    if k == 0 {
      assert rest == q;
      assert forall i :: 0 <= i < b ==> rest[..b][i] == q[i];
    }
  }

  // ---------------------------------------------------------------- tenant full

  ghost predicate TenantClean(ts: TenantState, cancelled: set<Id>, now: Time, budget: nat) {
    && CleanFront(ts.queues.high, cancelled, now, budget)
    && CleanFront(ts.queues.normal, cancelled, now, budget)
    && CleanFront(ts.queues.low, cancelled, now, budget)
  }

  lemma FullPurgeIdleExactly(clock: Clock, d: Draft)
    ensures var ts := PurgeForEnqueue(clock, d, Full).0.state;
            && ts.TotalLen() <= d.state.TotalLen()
            && (ts.TotalLen() == d.state.TotalLen() <==> TenantClean(d.state, d.books.cancelled, clock.now(d.samples), SCAN_BUDGET_FULL))
  {
    hide PurgedQueue, CleanFront, RemovedIds, Reap;
    PurgeIdleExactly(d.state.queues.high, d.books.cancelled, clock.now(d.samples), SCAN_BUDGET_FULL);
    PurgeIdleExactly(d.state.queues.normal, d.books.cancelled, clock.now(d.samples), SCAN_BUDGET_FULL);
    PurgeIdleExactly(d.state.queues.low, d.books.cancelled, clock.now(d.samples), SCAN_BUDGET_FULL);
  }

  lemma DraftFullExactly(cfg: Config, clock: Clock, d: Draft)
    requires d.state.TotalLen() <= cfg.maxPerTenant
    ensures AdmitOrReject(cfg, clock, d).refusal == Some(TenantFull) <==>
            d.state.TotalLen() == cfg.maxPerTenant && TenantClean(d.state, d.books.cancelled, clock.now(d.samples), SCAN_BUDGET_FULL)
  {
    hide PurgeForEnqueue, ReserveOrPurge, CleanFront;
    var d0 := d.(state := d.state.(attempts := d.state.attempts + 1));
    FullPurgeIdleExactly(clock, d0);
    PurgeIsShorter(clock, d0, NearLimit);
    PurgeIsShorter(clock, d0, Periodic);
    assert d0.state.TotalLen() == d.state.TotalLen();
    var (d1, ranFull) := MaybePurge(cfg, clock, d);
    NeverTenantFull(cfg, clock, d1, true);
    NeverTenantFull(cfg, clock, d1, ranFull);
    NeverTenantFull(cfg, clock, PurgeForEnqueue(clock, d1, Full).0, true);
  }

  lemma NeverTenantFull(cfg: Config, clock: Clock, d: Draft, ranFull: bool)
    ensures ReserveOrPurge(cfg, clock, d, ranFull).refusal != Some(TenantFull)
  {
    hide PurgeForEnqueue;
  }

  /** Under Reject and Timeout an enqueue is refused for its tenant exactly when the tenant physically
      holds `maxPerTenant` entries and none of the first 32 of any of its queues is dead. */
  lemma TenantFullExactly(cfg: Config, clock: Clock, w: World, t: Tenant, task: Task)
    requires Inv(cfg, w) && (PolicyFor(cfg, t).Reject? || PolicyFor(cfg, t).Timeout?)
    ensures var ts := HomeState(w, t);
            AdmissionOf(cfg, clock, w, t, task).refusal == Some(TenantFull) <==>
            ts.TotalLen() == cfg.maxPerTenant && TenantClean(ts, w.books.cancelled, clock.now(w.samples), SCAN_BUDGET_FULL)
  {
    hide AdmitOrReject, AdmitOrEvict, BooksOk, TenantOk, TenantClean, Homed, RingsKnown, HomeState;
    assert TenantInvAt(cfg, w, t);
    DraftFullExactly(cfg, clock, Draft(HomeState(w, t), w.books, w.samples));
  }

  function LiveCount(ts: TenantState, cancelled: set<Id>, now: Time): nat {
    |Live(ts.queues.high, cancelled, now)| + |Live(ts.queues.normal, cancelled, now)| + |Live(ts.queues.low, cancelled, now)|
  }

  lemma CleanMeansLive(q: seq<Entry>, cancelled: set<Id>, now: Time, budget: nat)
    requires |q| <= budget
    ensures CleanFront(q, cancelled, now, budget) <==> |Live(q, cancelled, now)| == |q|
    ensures |Live(q, cancelled, now)| <= |q|
  {
    AllLiveStay(q, cancelled, now);
  }

  /** For limits up to 32 that is exactly when the tenant holds `maxPerTenant` tasks that are neither
      cancelled nor expired at the sampled time. */
  lemma SmallLimitFullExactly(cfg: Config, clock: Clock, w: World, t: Tenant, task: Task)
    requires Inv(cfg, w) && (PolicyFor(cfg, t).Reject? || PolicyFor(cfg, t).Timeout?)
    requires cfg.maxPerTenant <= SCAN_BUDGET_FULL
    ensures AdmissionOf(cfg, clock, w, t, task).refusal == Some(TenantFull) <==>
            LiveCount(HomeState(w, t), w.books.cancelled, clock.now(w.samples)) == cfg.maxPerTenant
  {
    hide AdmissionOf, BooksOk, TenantOk, CleanFront, Live, HomeState, Homed, RingsKnown;
    TenantFullExactly(cfg, clock, w, t, task);
    assert TenantInvAt(cfg, w, t);
    var ts := HomeState(w, t);
    CleanMeansLive(ts.queues.high, w.books.cancelled, clock.now(w.samples), SCAN_BUDGET_FULL);
    CleanMeansLive(ts.queues.normal, w.books.cancelled, clock.now(w.samples), SCAN_BUDGET_FULL);
    CleanMeansLive(ts.queues.low, w.books.cancelled, clock.now(w.samples), SCAN_BUDGET_FULL);
  }

  // ---------------------------------------------------------------- evictions

  /** Eviction takes from the least important non-empty lane, never one above the incoming priority, and
      finds no victim exactly when every lane it may touch is empty. */
  lemma EvictionRespectsPriority(ts: TenantState, incoming: Priority)
    ensures EvictFrom(ts, incoming).None? <==>
            forall p: Priority :: p.Index() >= incoming.Index() ==> ts.queues.At(p) == []
    ensures EvictFrom(ts, incoming).Some? ==>
              var p := EvictFrom(ts, incoming).value;
              && p.Index() >= incoming.Index() && ts.queues.At(p) != []
              && forall p2: Priority :: p2.Index() > p.Index() ==> ts.queues.At(p2) == []
  {
    assert ts.queues.At(High) == ts.queues.high && ts.queues.At(Normal) == ts.queues.normal && ts.queues.At(Low) == ts.queues.low;
    assert High.Index() == 0 && Normal.Index() == 1 && Low.Index() == 2;
  }

  lemma FrontOf(q: seq<Entry>)
    requires Increasing(q) && q != []
    ensures forall x :: x in q ==> q[0].id <= x.id
    ensures forall x :: x in q[1..] <==> x in q && x != q[0]
  {
    assert q == [q[0]] + q[1..];
  }

  lemma BackOf(q: seq<Entry>)
    requires Increasing(q) && q != []
    ensures forall x :: x in q ==> x.id <= q[|q| - 1].id
    ensures forall x :: x in q[..|q| - 1] <==> x in q && x != q[|q| - 1]
  {
    assert q == q[..|q| - 1] + [q[|q| - 1]];
  }

  /** The victim is the oldest or the newest of its lane, as the policy says, and nothing else leaves. */
  lemma EvictsOneEnd(ts: TenantState, p: Priority, strategy: Strategy, t: Tenant, b: Books)
    requires TenantOk(ts, t, b) && ts.queues.At(p) != []
    ensures var (ts', e) := Evict(ts, p, strategy);
            && e in ts.queues.At(p)
            && (forall x :: x in ts.queues.At(p) ==> if strategy == Oldest then e.id <= x.id else x.id <= e.id)
            && (forall x :: x in ts'.queues.At(p) <==> x in ts.queues.At(p) && x != e)
            && (forall p2: Priority :: p2 != p ==> ts'.queues.At(p2) == ts.queues.At(p2))
  {
    hide LaneOk, TenantOk, Increasing;
    LaneOfAll(ts, t, b);
    LaneIncreases(ts.queues.At(p), t, p, b);
    if strategy == Oldest {
      FrontOf(ts.queues.At(p));
    } else {
      BackOf(ts.queues.At(p));
    }
  }
}
