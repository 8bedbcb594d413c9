/** The scheduler object: its fields, and the methods that update them in place. */
module Scheduler {
  import opened Types
  import opened World
  import opened Invariant
  import opened EnqueueProofs
  import opened Preservation
  import opened Service
  import opened Limits
  import opened Attempts
  import opened Loops
  import opened Metrics
  import opened Settings
  import ActiveRing
  import Histogram
  import TopTenants

  datatype CancelResult = Cancelled | NotFound

  /** Only the shards, flags, list and settings of the state before matter to how an attempt concludes. */
  lemma ConcludedIgnoresBooks(s: State, b: Books, samples: nat, t: Tenant, task: Task, a: Admission)
    requires s.Shaped()
    ensures Concluded(s.(world := s.world.(books := b, samples := samples)), t, task, a) == Concluded(s, t, task, a)
  {
    hide Join, Accept;
  }

  lemma AcceptLog(b: Books, t: Tenant, task: Task)
    ensures Accept(b, t, task).history.log == b.history.log
  {
  }

  /** The operations performed so far lead from `origin` to `s`, and everything proved of such states holds. */
  ghost predicate LedTo(cfg: Config, clock: Clock, origin: State, ops: seq<Op>, s: State) {
    origin.Shaped() && OpsOk(ops) && StateInv(cfg, s) && s == PerformAll(cfg, clock, origin, ops)
  }

  lemma OneMoreOp(cfg: Config, clock: Clock, origin: State, ops: seq<Op>, s: State, op: Op)
    requires LedTo(cfg, clock, origin, ops, s) && OpOk(op)
    ensures StateInv(cfg, s)
    ensures LedTo(cfg, clock, origin, ops + [op], Perform(cfg, clock, s, op))
  {
    hide Inv, ListOk, Perform, PerformAll, OpOk;
    PerformKeeps(cfg, clock, s, op);
    PerformAllSnoc(cfg, clock, origin, ops, op);
  }

  lemma PerformSubmit(cfg: Config, clock: Clock, s: State, t: Tenant, task: Task)
    requires s.Shaped()
    ensures Perform(cfg, clock, s, SubmitOp(t, task)) == Submit(cfg, clock, s, t, task).0
  {
    hide Submit;
  }

  lemma PerformDequeue(cfg: Config, clock: Clock, s: State)
    requires s.Shaped()
    ensures Perform(cfg, clock, s, DequeueOp) == Service.TryDequeue(clock, s).0
  {
    hide DequeueLoop;
  }

  lemma PerformCancel(cfg: Config, clock: Clock, s: State, id: Id)
    requires s.Shaped()
    ensures var b := s.world.books;
            Perform(cfg, clock, s, WorldOp(CancelMove(id))) ==
            if id !in b.pending then s
            else s.(world := s.world.(books :=
                   b.(pending := b.pending - {id}, cancelled := b.cancelled + {id},
                      stats := b.stats.(queueLen := SatSub(b.stats.queueLen, 1)),
                      history := b.history.(withdrawn := b.history.withdrawn + {id}))))
  {
  }

  lemma QueueTimeFits(now: Time, enqueueTs: Time)
    ensures QueueTime(now, enqueueTs) <= U64_MAX
  {
  }

  /** The counters and the history after a delivery. */
  function Counts(b: Books, id: Id, waited: nat): Books {
    b.(stats := b.stats.(dequeued := b.stats.dequeued + 1, queueLen := SatSub(b.stats.queueLen, 1),
                         queueTimeSum := b.stats.queueTimeSum + waited,
                         queueTimeSamples := b.stats.queueTimeSamples + 1),
       history := b.history.(dispatched := b.history.dispatched + {id}))
  }

  /** The id sets after a head with this id has been claimed, whoever wins it. */
  function Claimed(b: Books, id: Id): Books {
    if id in b.cancelled then b.(cancelled := b.cancelled - {id}) else b.(pending := b.pending - {id})
  }

  /** Serving is claiming the head and, if it was still pending, counting its delivery. */
  lemma ServeHeadClaims(clock: Clock, ts: TenantState, b: Books, samples: nat, t: Tenant, p: Priority)
    requires ts.queues.At(p) != []
    ensures var now, q := clock.now(samples), ts.queues.At(p);
            var e, requeue := q[0], |q| > 1;
            var cost, deficit := ChargeFor(e.task.cost), ts.deficits.At(p);
            var ts1 := ts.(queues := ts.queues.With(p, q[1..]), active := ts.active.With(p, ts.active.At(p) && requeue));
            var waited := QueueTime(clock.now(samples + 1), e.task.enqueueTs);
            ServeHead(clock, ts, b, samples, t, p) ==
            if e.id in b.pending && e.id !in b.cancelled
            then Turn(ts1.(deficits := ts.deficits.With(p, deficit - cost)),
                      Counts(Claimed(b, e.id), e.id, waited).Logging(Visit(t, p, now, Served(e.id, cost, deficit, waited))),
                      requeue, Some(e))
            else Turn(ts1, Claimed(b, e.id).Logging(Visit(t, p, now, Discarded)), requeue, None)
  {
    hide ChargeFor, QueueTime;
    PendingWithout(b.pending, ts.queues.At(p)[0].id);
  }

  /** What `try_dequeue_from_shard` still does from the k-th priority on. */
  function RestOfShard(clock: Clock, w: World, i: nat, k: nat): (v: Visited)
    requires i < |w.shards|
    ensures |v.world.shards| == |w.shards|
    decreases 3 - k
  {
    if k >= |PRIORITIES| then Visited(w, None)
    else
      var v := FullPass(clock, w, i, PRIORITIES[k]);
      if v.served.Some? then v else RestOfShard(clock, v.world, i, k + 1)
  }

  lemma WholeShard(clock: Clock, w: World, i: nat)
    requires i < |w.shards|
    ensures RestOfShard(clock, w, i, 0) == DequeueShard(clock, w, i)
  {
    hide FullPass;
    var h := FullPass(clock, w, i, High);
    var n := FullPass(clock, h.world, i, Normal);
    var l := FullPass(clock, n.world, i, Low);
    assert RestOfShard(clock, l.world, i, 3) == Visited(l.world, None);
    assert RestOfShard(clock, n.world, i, 2) == l;
    assert RestOfShard(clock, h.world, i, 1) == if n.served.Some? then n else l;
  }

  /** What a visit needs to know about the tenant it pops. */
  lemma HeadReady(cfg: Config, w: World, i: nat, p: Priority)
    requires Inv(cfg, w) && CanVisit(w, i, p)
    ensures var t := w.shards[i].rings.At(p)[0];
            t in w.shards[i].tenants ==> TurnPre(cfg, w.shards[i].tenants[t], w.books, t, p)
  {
    hide Inv, TurnPre;
    RingHead(cfg, w, i, p);
    HomeTurnPre(cfg, w, w.shards[i].rings.At(p)[0], p);
  }

  lemma SameTenantsTracked(a: TopTenants.Entries, b: TopTenants.Entries, t: Tenant)
    requires multiset(a) == multiset(b) && TopTenants.Tracked(a, t)
    ensures TopTenants.Tracked(b, t)
  {
    var i :| 0 <= i < |a| && a[i].tenant == t;
    assert a[i] in multiset(b);
  }

  lemma LoopStep(clock: Clock, s: State, remaining: nat)
    requires s.Shaped() && remaining > 0 && s.activeShards != []
    ensures s.activeShards[0] < |s.world.shards|
    ensures var v := DequeueShard(clock, s.world, s.activeShards[0]);
            var s' := Settled(s, s.activeShards[0], v.world);
            DequeueLoop(clock, s, remaining) == if v.served.Some? then (s', v.served) else DequeueLoop(clock, s', remaining - 1)
  {
    hide DequeueShard, Settled;
    assert s.activeShards[0] in s.activeShards;
  }

  lemma LoopEnds(clock: Clock, s: State, remaining: nat)
    requires s.Shaped() && (remaining == 0 || s.activeShards == [])
    ensures DequeueLoop(clock, s, remaining) == (s, None)
  {
  }

  lemma ProviderSet(cfg: Config, clock: Clock, s: State, provider: Option<Tenant -> nat>, shards: seq<Shard>)
    requires s.Shaped() && |shards| == |s.world.shards|
    requires var rates := s.world.quanta.(provider := provider);
             forall j :: 0 <= j < |shards| ==> shards[j] == RefreshedShard(s.world.shards[j], rates)
    ensures Perform(cfg, clock, s, WorldOp(SetProviderMove(provider)))
         == s.(world := s.world.(quanta := s.world.quanta.(provider := provider), shards := shards))
  {
    hide RefreshedShard;
    assert SetProvider(s.world, provider).shards == shards;
  }

  class Scheduler {
    const config: Config
    const clock: Clock
    const baseQuantum: nat
    const activeShards: ActiveRing.ActiveRing<nat>
    const topTenants: TopTenants.TopTenants
    const queueTimes: Histogram.Histogram
    var shards: seq<Shard>
    var shardActive: seq<bool>
    var stats: Stats
    var shutdown: Shutdown
    var tenantQuantum: map<Tenant, nat>
    var quantumProvider: Option<Tenant -> nat>
    var nextTaskId: nat
    var pendingIds: set<Id>
    var cancelledIds: set<Id>
    /** How often the clock has been read. */
    var samples: nat
    ghost var history: History
    ghost const shardCount: nat
    ghost const startRates: Quanta
    ghost var trace: seq<Op>

    // -------------------------------------------------------------- abstraction

    ghost function Ledger(): Books
      reads this
    {
      Books(pendingIds, cancelledIds, nextTaskId, stats, history)
    }

    function Rates(): Quanta
      reads this
    {
      Quanta(tenantQuantum, quantumProvider, baseQuantum)
    }

    ghost function Sections(): World
      reads this
    {
      World(shards, Ledger(), Rates(), samples)
    }

    ghost function Value(): State
      reads this, activeShards
      requires activeShards.Valid()
    {
      State(Sections(), activeShards.Contents(), shardActive, shutdown)
    }

    ghost function DraftOf(ts: TenantState): Draft
      reads this
    {
      Draft(ts, Ledger(), samples)
    }

    ghost function Origin(): State {
      FreshState(shardCount, startRates)
    }

    /** The metrics objects have recorded exactly the dispatches of the run. */
    ghost predicate Recorders()
      reads this, topTenants, queueTimes
    {
      && topTenants.Valid() && topTenants.stream == DispatchEvents(history.log)
      && queueTimes.Valid() && queueTimes.samples == Waits(history.log) && queueTimes.bounds == Histogram.BUCKETS
    }

    /** The object is in the state that the operations performed on it so far lead to. */
    ghost predicate Valid()
      reads this, activeShards, topTenants, queueTimes
    {
      && activeShards.Valid()
      && Recorders()
      && Value().Shaped()
      && LedTo(config, clock, Origin(), trace, Value())
    }

    constructor (config: Config, clock: Clock, shardCount: nat, rates: Quanta, topTenantsCapacity: nat)
      ensures Valid() && fresh(activeShards) && fresh(topTenants) && fresh(queueTimes)
      ensures this.config == config && this.clock == clock && topTenants.capacity == topTenantsCapacity
      ensures Value() == Origin() == FreshState(shardCount, rates) && trace == []
    {
      this.config, this.clock, baseQuantum := config, clock, rates.base;
      activeShards := new ActiveRing.ActiveRing();
      topTenants := new TopTenants.TopTenants(topTenantsCapacity);
      queueTimes := new Histogram.Histogram();
      var n: nat := Max(shardCount, 1);
      shards := seq(n, _ => EMPTY_SHARD);
      shardActive := seq(n, _ => false);
      stats := NO_STATS;
      shutdown := Open;
      tenantQuantum, quantumProvider := rates.overrides, rates.provider;
      nextTaskId, samples := 0, 0;
      pendingIds, cancelledIds := {}, {};
      history := NO_HISTORY;
      this.shardCount, startRates, trace := shardCount, rates, [];
      new;
      hide Inv, ListOk;
      FreshStateOk(config, shardCount, rates);
      assert Value() == Origin();
    }

    // -------------------------------------------------------------- ids and slots

    method TakePending(id: Id) returns (taken: bool)
      modifies this`pendingIds
      ensures taken <==> id in old(pendingIds)
      ensures pendingIds == old(pendingIds) - {id}
    {
      taken := id in pendingIds;
      pendingIds := pendingIds - {id};
    }

    method TakeCancelledMarker(id: Id) returns (marked: bool)
      modifies this`cancelledIds
      ensures marked <==> id in old(cancelledIds)
      ensures cancelledIds == old(cancelledIds) - {id}
    {
      marked := id in cancelledIds;
      cancelledIds := cancelledIds - {id};
    }

    method RegisterPending(id: Id)
      modifies this`pendingIds
      ensures pendingIds == old(pendingIds) + {id}
    {
      pendingIds := pendingIds + {id};
    }

    method MarkCancelled(id: Id)
      modifies this`cancelledIds
      ensures cancelledIds == old(cancelledIds) + {id}
    {
      cancelledIds := cancelledIds + {id};
    }

    method ClearCancelledMarker(id: Id)
      modifies this`cancelledIds
      ensures cancelledIds == old(cancelledIds) - {id}
    {
      cancelledIds := cancelledIds - {id};
    }

    method NextHandle() returns (id: Id)
      modifies this`nextTaskId
      ensures id == nextTaskId == old(nextTaskId) + 1
    {
      nextTaskId := nextTaskId + 1;
      id := nextTaskId;
    }

    method TryReserveSlot() returns (reserved: bool)
      modifies this`stats
      ensures var r := Reserve(config, old(Ledger()));
              reserved == r.Some? && Ledger() == if reserved then r.value else old(Ledger())
    {
      reserved := stats.queueLen < config.maxGlobal;
      if reserved {
        stats := stats.(queueLen := stats.queueLen + 1);
      }
    }

    method ReleaseReservedSlots(delta: nat)
      modifies this`stats
      ensures stats == old(stats).(queueLen := SatSub(old(stats).queueLen, delta))
    {
      if delta > 0 {
        stats := stats.(queueLen := SatSub(stats.queueLen, delta));
      }
    }

    method CountReject(reason: Reason)
      modifies this`stats
      ensures Ledger() == RecordReject(old(Ledger()), reason)
    {
      stats := stats.(dropped := stats.dropped + 1);
      match reason
      case GlobalFull => stats := stats.(rejectedGlobal := stats.rejectedGlobal + 1);
      case TenantFull => stats := stats.(rejectedTenant := stats.rejectedTenant + 1);
      case TimedOut => stats := stats.(timeoutRejected := stats.timeoutRejected + 1);
    }

    /** One reading of the clock. */
    method Now() returns (now: Time)
      modifies this`samples
      ensures now == clock.now(old(samples)) && samples == old(samples) + 1
    {
      now := clock.now(samples);
      samples := samples + 1;
    }

    // -------------------------------------------------------------- purging

    ghost function TallyWith(purge: PurgeStats): Tally
      reads this
    {
      Tally(pendingIds, cancelledIds, purge)
    }

    /** The body both purge loops share: is this entry dead, and if so give back its marker, id and slot. */
    method CollectIfDead(entry: Entry, now: Time, purge: PurgeStats) returns (dead: bool, total: PurgeStats)
      modifies this`pendingIds, this`cancelledIds
      ensures dead == Dead(entry, old(cancelledIds), now)
      ensures TallyWith(total) == if dead then Tallied(old(TallyWith(purge)), entry.id) else old(TallyWith(purge))
    {
      total := purge;
      dead := TakeCancelledMarker(entry.id);
      if dead {
        var taken := TakePending(entry.id);
        if taken {
          total := total.(releasedSlots := total.releasedSlots + 1);
        }
      } else if Expired(entry.task.deadline, now) {
        dead := true;
        var taken := TakePending(entry.id);
        if taken {
          total := PurgeStats(total.removedExpiredLive + 1, total.releasedSlots + 1);
        }
      }
    }

    method DropDeadFront(q: seq<Entry>, now: Time, purge: PurgeStats) returns (queue: seq<Entry>, total: PurgeStats)
      requires Increasing(q)
      modifies this`pendingIds, this`cancelledIds
      ensures queue == q[DeadPrefix(q, old(cancelledIds), now)..]
      ensures Purging(q, old(TallyWith(purge)), queue, TallyWith(total))
    {
      hide Purging, Ids, Tallied, Dead, DeadPrefix;
      queue, total := q, purge;
      ghost var before, k := TallyWith(purge), 0;
      PurgingStarts(q, before);
      while queue != []
        invariant k <= |q| && queue == q[k..]
        invariant forall i :: 0 <= i < k ==> Dead(q[i], before.cancelled, now)
        invariant Purging(q, before, queue, TallyWith(total))
        decreases |queue|
      {
        PurgeOne(q, before, queue, TallyWith(total), 0);
        assert Without(queue, 0) == queue[1..];
        DeadAlike(queue[0], before.cancelled, cancelledIds, now);
        var dead;
        dead, total := CollectIfDead(queue[0], now, total);
        if !dead {
          break;
        }
        queue := queue[1..];
        k := k + 1;
      }
      DeadPrefixIs(q, before.cancelled, now, k);
    }

    method ScanForDead(rest: seq<Entry>, now: Time, sideScanBudget: nat, purge: PurgeStats)
      returns (queue: seq<Entry>, total: PurgeStats)
      requires Increasing(rest)
      modifies this`pendingIds, this`cancelledIds
      ensures queue == Scanned(rest, Min(sideScanBudget, |rest|), old(cancelledIds), now)
      ensures Purging(rest, old(TallyWith(purge)), queue, TallyWith(total))
    {
      hide Scanning, Purging, Tallied, Dead, Scanned;
      queue, total := rest, purge;
      ghost var before := TallyWith(purge);
      ScanStarts(rest, before, now);
      var idx, scanned := 0, 0;
      while idx < |queue| && scanned < sideScanBudget
        invariant scanned <= |rest| && scanned <= sideScanBudget
        invariant Scanning(rest, before, now, scanned, queue, idx, TallyWith(total))
        decreases |rest| - scanned
      {
        ScanStep(rest, before, now, scanned, queue, idx, TallyWith(total));
        var dead;
        dead, total := CollectIfDead(queue[idx], now, total);
        scanned := scanned + 1;
        if dead {
          queue := Without(queue, idx);
        } else {
          idx := idx + 1;
        }
      }
      ScanEnds(rest, before, now, scanned, queue, idx, TallyWith(total));
      ScanningMeans(rest, before, now, scanned, queue, idx, TallyWith(total));
    }

    /** Drops the dead prefix, then the dead among the next `sideScanBudget` entries. */
    method PurgeQueueWithBudget(q: seq<Entry>, now: Time, sideScanBudget: nat, purge: PurgeStats)
      returns (queue: seq<Entry>, total: PurgeStats)
      requires Increasing(q)
      modifies this`pendingIds, this`cancelledIds
      ensures queue == PurgedQueue(q, old(cancelledIds), now, sideScanBudget)
      ensures Purging(q, old(TallyWith(purge)), queue, TallyWith(total))
    {
      hide Purging, Ids, DeadPrefix, Scanned;
      ghost var before := TallyWith(purge);
      queue, total := DropDeadFront(q, now, purge);
      ghost var rest, middle := queue, TallyWith(total);
      queue, total := ScanForDead(queue, now, sideScanBudget, total);
      PurgingTrans(q, before, rest, middle, queue, TallyWith(total));
      MarkersKept(q, before, rest, middle);
      ScanIsLocal(rest, Min(sideScanBudget, |rest|), before.cancelled, middle.cancelled, now);
      ScanDone(q, Min(sideScanBudget, |rest|), before.cancelled, now, sideScanBudget);
    }

    method PurgeTenantWithBudget(ts: TenantState, now: Time, sideScanBudget: nat) returns (after: TenantState, total: PurgeStats)
      requires LanesApart(ts.queues)
      modifies this`pendingIds, this`cancelledIds
      ensures after == PurgedState(ts, old(cancelledIds), now, sideScanBudget)
      ensures PurgingTenant(ts.queues, old(TallyWith(PurgeStats(0, 0))), after.queues, TallyWith(total))
    {
      hide LanesApart, PurgingTenant, Purging, PurgedQueue, PurgedState;
      after, total := ts, PurgeStats(0, 0);
      ghost var before := TallyWith(total);
      PurgingTenantStarts(ts.queues, before);
      var idx := 0;
      while idx < |PRIORITIES|
        invariant 0 <= idx <= 3
        invariant after == ts.(queues := after.queues, active := after.active)
        invariant forall p: Priority :: p.Index() >= idx ==> after.queues.At(p) == ts.queues.At(p) && after.active.At(p) == ts.active.At(p)
        invariant forall p: Priority :: p.Index() < idx ==>
                    && after.queues.At(p) == PurgedQueue(ts.queues.At(p), before.cancelled, now, sideScanBudget)
                    && after.active.At(p) == (ts.active.At(p) && after.queues.At(p) != [])
        invariant PurgingTenant(ts.queues, before, after.queues, TallyWith(total))
      {
        var p := PRIORITIES[idx];
        assert p.Index() == idx;
        ghost var middle := TallyWith(total);
        LaneMarkersKept(ts.queues, before, after.queues, middle, p);
        PurgeIsLocal(ts.queues.At(p), before.cancelled, cancelledIds, now, sideScanBudget);
        LaneIncreasing(ts.queues, p);
        var queue;
        queue, total := PurgeQueueWithBudget(after.queues.At(p), now, sideScanBudget, total);
        LanePurged(ts.queues, before, after.queues, middle, p, queue, TallyWith(total));
        after := after.(queues := after.queues.With(p, queue));
        if queue == [] {
          after := after.(active := after.active.With(p, false));
        }
        idx := idx + 1;
      }
      assert forall p: Priority :: p.Index() < 3;
      EveryLanePurged(ts, after, before.cancelled, now, sideScanBudget);
    }

    method PurgeTenantForEnqueue(ts: TenantState, reason: PurgeReason, ghost t: Tenant, ghost inHand: nat)
      returns (after: TenantState, released: nat)
      requires DraftOk(config, DraftOf(ts), t, inHand)
      modifies this`pendingIds, this`cancelledIds, this`stats, this`samples, this`history
      ensures (DraftOf(after), released) == PurgeForEnqueue(clock, old(DraftOf(ts)), reason)
      ensures DraftOk(config, DraftOf(after), t, inHand)
      ensures history.log == old(history.log)
    {
      hide DraftOk, PurgingTenant, PurgedState, RemovedIds, LanesApart, PurgeForEnqueue;
      ghost var before, p0 := DraftOf(ts), pendingIds;
      PurgeKeeps(config, clock, before, reason, t, inHand);
      DraftLanesApart(config, before, t, inHand);
      var now := Now();
      var total;
      after, total := PurgeTenantWithBudget(ts, now, ScanBudget(reason));
      PurgeAddsUp(clock, before, reason, after, Tally(pendingIds, cancelledIds, total));
      history := history.(expired := history.expired + RemovedIds(ts.queues, after.queues) * p0);
      after := after.(attempts := 0);
      stats := stats.(purgeRuns := stats.purgeRuns + 1, expired := stats.expired + total.removedExpiredLive);
      ReleaseReservedSlots(total.releasedSlots);
      released := total.releasedSlots;
    }

    // -------------------------------------------------------------- admission

    method MaybePurgeTenantBeforeEnqueue(ts: TenantState, ghost t: Tenant) returns (after: TenantState, ranFull: bool)
      requires DraftOk(config, DraftOf(ts), t, 0)
      modifies this`pendingIds, this`cancelledIds, this`stats, this`samples, this`history
      ensures (DraftOf(after), ranFull) == MaybePurge(config, clock, old(DraftOf(ts)))
      ensures DraftOk(config, DraftOf(after), t, 0) && history.log == old(history.log)
    {
      hide DraftOk, PurgeForEnqueue;
      AttemptKeeps(config, DraftOf(ts), t);
      after := ts.(attempts := ts.attempts + 1);
      var reason := PurgeReasonFor(config, after.TotalLen(), after.attempts);
      if reason.Some? {
        var released;
        after, released := PurgeTenantForEnqueue(after, reason.value, t, 0);
      }
      ranFull := reason == Some(Full);
    }

    /** Takes a slot, after one full purge if there was none yet and it frees something. */
    method ReserveAfterPurge(ts: TenantState, ranFull: bool, ghost t: Tenant) returns (after: TenantState, refusal: Option<Reason>)
      requires DraftOk(config, DraftOf(ts), t, 0)
      modifies this`pendingIds, this`cancelledIds, this`stats, this`samples, this`history
      ensures Admission(DraftOf(after), refusal) == ReserveOrPurge(config, clock, old(DraftOf(ts)), ranFull)
      ensures history.log == old(history.log)
    {
      hide DraftOk, PurgeForEnqueue, Reserve;
      after := ts;
      var reserved := TryReserveSlot();
      if !reserved && !ranFull {
        var released;
        after, released := PurgeTenantForEnqueue(after, Full, t, 0);
        if released > 0 {
          reserved := TryReserveSlot();
        }
      }
      refusal := if reserved then None else Some(GlobalFull);
    }

    method AdmitByPurging(ts: TenantState, ghost t: Tenant) returns (after: TenantState, refusal: Option<Reason>)
      requires DraftOk(config, DraftOf(ts), t, 0)
      modifies this`pendingIds, this`cancelledIds, this`stats, this`samples, this`history
      ensures Admission(DraftOf(after), refusal) == AdmitOrReject(config, clock, old(DraftOf(ts)))
      ensures history.log == old(history.log)
    {
      hide DraftOk, PurgeForEnqueue, MaybePurge, ReserveOrPurge;
      var ranFull;
      after, ranFull := MaybePurgeTenantBeforeEnqueue(ts, t);
      if after.TotalLen() >= config.maxPerTenant {
        if !ranFull {
          var released;
          after, released := PurgeTenantForEnqueue(after, Full, t, 0);
          ranFull := true;
        }
        if after.TotalLen() >= config.maxPerTenant {
          return after, Some(TenantFull);
        }
      }
      after, refusal := ReserveAfterPurge(after, ranFull, t);
    }

    /** Evicts one entry: from the lowest non-empty priority not above the incoming one. */
    method DropFromTenant(ts: TenantState, strategy: Strategy, incoming: Priority)
      returns (after: TenantState, dropped: Option<Entry>)
      ensures match EvictFrom(ts, incoming)
              case None => dropped == None && after == ts
              case Some(p) => dropped.Some? && (after, dropped.value) == Evict(ts, p, strategy)
    {
      var dropOrder :=
        match incoming
        case High => [Low, Normal, High]
        case Normal => [Low, Normal]
        case Low => [Low];
      var k := 0;
      while k < |dropOrder|
        invariant 0 <= k <= |dropOrder|
        invariant forall j :: 0 <= j < k ==> ts.queues.At(dropOrder[j]) == []
      {
        var p := dropOrder[k];
        var q := ts.queues.At(p);
        if q != [] {
          assert k >= 1 ==> ts.queues.At(dropOrder[0]) == [];
          assert k >= 2 ==> ts.queues.At(dropOrder[1]) == [];
          assert EvictFrom(ts, incoming) == Some(p);
          match strategy
          case Oldest => return ts.(queues := ts.queues.With(p, q[1..])), Some(q[0]);
          case Newest => return ts.(queues := ts.queues.With(p, q[..|q| - 1])), Some(q[|q| - 1]);
        }
        k := k + 1;
      }
      assert ts.queues.At(dropOrder[0]) == [];
      assert |dropOrder| > 1 ==> ts.queues.At(dropOrder[1]) == [];
      assert |dropOrder| > 2 ==> ts.queues.At(dropOrder[2]) == [];
      return ts, None;
    }

    method AdmitByEvicting(ts: TenantState, strategy: Strategy, incoming: Priority, ghost t: Tenant)
      returns (after: TenantState, refusal: Option<Reason>)
      requires DraftOk(config, DraftOf(ts), t, 0)
      modifies this`pendingIds, this`cancelledIds, this`stats, this`samples, this`history
      ensures Admission(DraftOf(after), refusal) == AdmitOrEvict(config, clock, old(DraftOf(ts)), strategy, incoming)
      ensures history.log == old(history.log)
    {
      hide DraftOk, PurgeForEnqueue, MaybePurge, ReserveOrPurge, Evict, EvictFrom;
      var ranFull;
      after, ranFull := MaybePurgeTenantBeforeEnqueue(ts, t);
      var tenantFull := after.TotalLen() >= config.maxPerTenant;
      var globalFull := stats.queueLen >= config.maxGlobal;
      var reusedSlot := false;
      if tenantFull || globalFull {
        var dropped;
        ghost var d1 := DraftOf(after);
        after, dropped := DropFromTenant(after, strategy, incoming);
        if dropped.None? {
          return after, Some(if tenantFull then TenantFull else GlobalFull);
        }
        EvictionKeeps(config, d1, incoming, strategy, t);
        var id := dropped.value.id;
        ClearCancelledMarker(id);
        var taken := TakePending(id);
        if taken {
          stats := stats.(dropped := stats.dropped + 1, droppedPolicy := stats.droppedPolicy + 1);
          history := history.(evicted := history.evicted + {id});
          reusedSlot := true;
        }
        PendingWithout(d1.books.pending, id);
        assert Ledger() == Displace(d1.books, id);
      }
      if reusedSlot {
        return after, None;
      }
      after, refusal := ReserveAfterPurge(after, ranFull, t);
    }

    // -------------------------------------------------------------- enqueue

    method ActivateShard(i: nat)
      requires activeShards.Valid() && Value().Shaped() && i < |shards|
      modifies this`shardActive, activeShards
      ensures activeShards.Valid() && Value() == Activated(old(Value()), i)
    {
      if !shardActive[i] {
        shardActive := shardActive[i := true];
        activeShards.PushBack(i);
      }
    }

    /** The admitted task joins its queue. */
    method Admitted(tenant: Tenant, task: Task, ts: TenantState) returns (id: Id)
      requires shards != []
      modifies this`shards, this`pendingIds, this`nextTaskId, this`stats, this`history
      ensures id == old(nextTaskId) + 1 && Ledger() == Accept(old(Ledger()), tenant, task)
      ensures var i := ShardIndex(|old(shards)|, tenant);
              var shard := old(shards[i]);
              var (ts', ring) := Join(ts, shard.rings.At(task.priority), tenant, Entry(id, task));
              shards == old(shards)[i := Shard(shard.tenants[tenant := ts'], shard.rings.With(task.priority, ring))]
    {
      hide Join;
      var i := ShardIndex(|shards|, tenant);
      var shard := shards[i];
      id := NextHandle();
      RegisterPending(id);
      var (ts', ring) := Join(ts, shard.rings.At(task.priority), tenant, Entry(id, task));
      shards := shards[i := Shard(shard.tenants[tenant := ts'], shard.rings.With(task.priority, ring))];
      stats := stats.(enqueued := stats.enqueued + 1);
      history := history.(accepted := history.accepted[id := Accepted(tenant, task)]);
    }

    /** The end of an attempt: the refused tenant goes back as it is, the admitted task joins, and a shard
        whose rings were empty is activated. */
    method Conclude(tenant: Tenant, task: Task, ts: TenantState, refusal: Option<Reason>) returns (r: Submitted)
      requires activeShards.Valid() && Value().Shaped()
      modifies this`shards, this`shardActive, this`pendingIds, this`nextTaskId, this`stats, this`history, activeShards
      ensures activeShards.Valid()
      ensures (Value(), r) == Concluded(old(Value()), tenant, task, Admission(old(DraftOf(ts)), refusal))
      ensures history.log == old(history.log)
    {
      hide Join, RingsEmpty, ShardIndex, Accept;
      AcceptLog(Ledger(), tenant, task);
      var i := ShardIndex(|shards|, tenant);
      var shardWasEmpty := RingsEmpty(shards[i]);
      if refusal.Some? {
        shards := shards[i := shards[i].(tenants := shards[i].tenants[tenant := ts])];
        return Rejected(refusal.value);
      }
      var id := Admitted(tenant, task, ts);
      if shardWasEmpty {
        ActivateShard(i);
      }
      r := Enqueued(id);
    }

    method EnqueueAttempt(tenant: Tenant, task: Task) returns (r: Submitted)
      requires activeShards.Valid() && StateInv(config, Value())
      modifies this`shards, this`shardActive, this`pendingIds, this`cancelledIds, this`nextTaskId, this`stats,
               this`samples, this`history, activeShards
      ensures activeShards.Valid()
      ensures (Value(), r) == Attempt(config, clock, old(Value()), tenant, task)
      ensures history.log == old(history.log)
    {
      hide Inv, ListOk, DraftOk, AdmitOrReject, AdmitOrEvict, Concluded;
      if shutdown != Open {
        return NotOpen;
      }
      ghost var before := Value();
      HomeDraftOk(config, Sections(), tenant);
      var shard := shards[ShardIndex(|shards|, tenant)];
      var ts := if tenant in shard.tenants then shard.tenants[tenant] else NewTenant(AsI64(QuantumFor(Rates(), tenant)));
      assert ts == HomeState(Sections(), tenant);
      var refusal;
      match PolicyFor(config, tenant) {
        case Reject => ts, refusal := AdmitByPurging(ts, tenant);
        case Timeout(_) => ts, refusal := AdmitByPurging(ts, tenant);
        case DropOldest => ts, refusal := AdmitByEvicting(ts, Oldest, task.priority, tenant);
        case DropNewest => ts, refusal := AdmitByEvicting(ts, Newest, task.priority, tenant);
      }
      ghost var a := Admission(DraftOf(ts), refusal);
      assert a == AdmissionOf(config, clock, before.world, tenant, task);
      ConcludedIgnoresBooks(before, Ledger(), samples, tenant, task, a);
      r := Conclude(tenant, task, ts, refusal);
    }

    /** One attempt under a policy other than Timeout; a refusal is counted. */
    method EnqueueOnce(tenant: Tenant, task: Task) returns (r: Submitted)
      requires Valid() && !PolicyFor(config, tenant).Timeout?
      modifies this, activeShards
      ensures Valid() && trace == old(trace) + [SubmitOp(tenant, task)]
      ensures (Value(), r) == Submit(config, clock, old(Value()), tenant, task)
    {
      hide LedTo, StateInv, Attempt, Submit, Perform;
      ghost var before := Value();
      PerformSubmit(config, clock, before, tenant, task);
      ghost var op := SubmitOp(tenant, task);
      AttemptIsSubmit(config, clock, before, tenant, task);
      OneMoreOp(config, clock, Origin(), trace, before, op);
      r := EnqueueAttempt(tenant, task);
      if r.Rejected? {
        CountReject(r.reason);
      }
      trace := trace + [op];
    }

    /** The Timeout policy: attempt until one is not refused. How often the waiter wakes up before its
        deadline is the parameter. */
    method EnqueueTimeout(tenant: Tenant, task: Task, wakeups: nat) returns (r: Submitted)
      requires Valid() && PolicyFor(config, tenant).Timeout?
      modifies this, activeShards
      ensures Valid()
      ensures (Value(), r) == Retry(config, clock, old(Value()), tenant, task, wakeups)
      ensures WaitedFor(config, clock, old(Value()), tenant, task, wakeups, Value(), r)
    {
      hide LedTo, StateInv, Attempt, Submit, Perform, WaitedFor;
      ghost var before := Value();
      RetryExactly(config, clock, before, tenant, task, wakeups);
      var left: nat := wakeups;
      while true
        invariant Valid() && left <= wakeups
        invariant unchanged(this`shutdown)
        invariant Retry(config, clock, before, tenant, task, wakeups) == Retry(config, clock, Value(), tenant, task, left)
        decreases left
      {
        AttemptIsSubmit(config, clock, Value(), tenant, task);
        PerformSubmit(config, clock, Value(), tenant, task);
        OneMoreOp(config, clock, Origin(), trace, Value(), SubmitOp(tenant, task));
        r := EnqueueAttempt(tenant, task);
        trace := trace + [SubmitOp(tenant, task)];
        if !r.Rejected? {
          return r;
        }
        if left == 0 {
          PerformGiveUp(config, clock, Value());
          OneMoreOp(config, clock, Origin(), trace, Value(), WorldOp(GiveUpMove));
          CountReject(TimedOut);
          trace := trace + [WorldOp(GiveUpMove)];
          return Rejected(TimedOut);
        }
        left := left - 1;
      }
    }

    /** The policy that governs the tenant decides: under Timeout the call waits, under the others it is one attempt
        whose refusal is counted. */
    method Enqueue(tenant: Tenant, task: Task, wakeups: nat) returns (r: Submitted)
      requires Valid()
      modifies this, activeShards
      ensures Valid()
      ensures forall policy :: Governs(config, policy, tenant) ==>
                if policy.Timeout? then WaitedFor(config, clock, old(Value()), tenant, task, wakeups, Value(), r)
                else (Value(), r) == Submit(config, clock, old(Value()), tenant, task)
    {
      hide LedTo, Submit, Retry, WaitedFor;
      if PolicyFor(config, tenant).Timeout? {
        r := EnqueueTimeout(tenant, task, wakeups);
      } else {
        r := EnqueueOnce(tenant, task);
      }
    }

    // -------------------------------------------------------------- cancel and close

    method CancelTask(id: Id) returns (r: CancelResult)
      requires Valid()
      modifies this
      ensures Valid() && Value() == Perform(config, clock, old(Value()), WorldOp(CancelMove(id)))
      ensures r.Cancelled? <==> id in old(pendingIds)
    {
      hide LedTo, StateInv, Perform;
      PerformCancel(config, clock, Value(), id);
      OneMoreOp(config, clock, Origin(), trace, Value(), WorldOp(CancelMove(id)));
      PendingWithout(pendingIds, id);
      var taken := TakePending(id);
      if taken {
        MarkCancelled(id);
        ReleaseReservedSlots(1);
        history := history.(withdrawn := history.withdrawn + {id});
      }
      trace := trace + [WorldOp(CancelMove(id))];
      r := if taken then Cancelled else NotFound;
    }

    method SetShutdownMode(target: Shutdown)
      requires Valid()
      modifies this
      ensures Valid() && Value() == Perform(config, clock, old(Value()), CloseOp(target))
    {
      hide LedTo, StateInv;
      OneMoreOp(config, clock, Origin(), trace, Value(), CloseOp(target));
      if shutdown == Immediate || target == Immediate {
        shutdown := Immediate;
      } else if shutdown == Open && target == Drain {
        shutdown := Drain;
      }
      trace := trace + [CloseOp(target)];
    }

    // -------------------------------------------------------------- dequeue

    /** One step of the front loop of a visit: a cancelled head gives up its marker, an expired one its id
        and its slot. */
    method DiscardIfDead(entry: Entry, now: Time, count: nat) returns (dead: bool, expired: nat)
      requires pendingIds !! cancelledIds
      modifies this`pendingIds, this`cancelledIds, this`stats
      ensures dead == Dead(entry, old(cancelledIds), now)
      ensures TallyWith(PurgeStats(expired, expired))
           == if dead then Tallied(old(TallyWith(PurgeStats(count, count))), entry.id) else old(TallyWith(PurgeStats(count, count)))
      ensures expired >= count && stats == old(stats).(queueLen := SatSub(old(stats).queueLen, expired - count))
    {
      expired := count;
      PendingWithout(pendingIds, entry.id);
      PendingWithout(cancelledIds, entry.id);
      dead := TakeCancelledMarker(entry.id);
      if !dead && Expired(entry.task.deadline, now) {
        dead := true;
        var taken := TakePending(entry.id);
        if taken {
          expired := expired + 1;
          ReleaseReservedSlots(1);
        }
      }
    }

    method DropDeadHeads(q: seq<Entry>, now: Time) returns (queue: seq<Entry>, expired: nat)
      requires Increasing(q) && pendingIds !! cancelledIds
      modifies this`pendingIds, this`cancelledIds, this`stats
      ensures queue == q[DeadPrefix(q, old(cancelledIds), now)..]
      ensures Purging(q, old(TallyWith(PurgeStats(0, 0))), queue, TallyWith(PurgeStats(expired, expired)))
      ensures stats == old(stats).(queueLen := SatSub(old(stats).queueLen, expired))
    {
      hide Purging, Ids, Tallied, Dead, DeadPrefix;
      queue, expired := q, 0;
      ghost var before, k := TallyWith(PurgeStats(0, 0)), 0;
      PurgingStarts(q, before);
      while queue != []
        invariant k <= |q| && queue == q[k..]
        invariant forall i :: 0 <= i < k ==> Dead(q[i], before.cancelled, now)
        invariant Purging(q, before, queue, TallyWith(PurgeStats(expired, expired)))
        invariant stats == old(stats).(queueLen := SatSub(old(stats).queueLen, expired))
        decreases |queue|
      {
        PurgeOne(q, before, queue, TallyWith(PurgeStats(expired, expired)), 0);
        PurgingApart(q, before, queue, TallyWith(PurgeStats(expired, expired)));
        assert Without(queue, 0) == queue[1..];
        DeadAlike(queue[0], before.cancelled, cancelledIds, now);
        var dead;
        dead, expired := DiscardIfDead(queue[0], now, expired);
        if !dead {
          break;
        }
        queue := queue[1..];
        k := k + 1;
      }
      DeadPrefixIs(q, before.cancelled, now, k);
    }

    /** Adds a visit that served nothing to the history. */
    ghost method LogQuietVisit(v: Visit)
      requires Recorders() && !v.outcome.Served?
      modifies this`history
      ensures Recorders() && Ledger() == old(Ledger()).Logging(v)
    {
      history := history.(log := Then(history.log, v));
    }

    /** The race for a popped entry: its cancel marker is looked at first, then its pending id. */
    method ClaimHead(id: Id) returns (claimed: bool)
      requires Recorders()
      modifies this`pendingIds, this`cancelledIds
      ensures Recorders()
      ensures claimed <==> id in old(pendingIds) && id !in old(cancelledIds)
      ensures Ledger() == Claimed(old(Ledger()), id)
    {
      PendingWithout(cancelledIds, id);
      claimed := false;
      var marked := TakeCancelledMarker(id);
      if !marked {
        claimed := TakePending(id);
      }
    }

    /** Tells the metrics objects of a delivery, and the history of its visit. */
    method RecordVisit(t: Tenant, p: Priority, waited: nat, ghost v: Visit)
      requires Recorders() && waited <= U64_MAX
      requires v.tenant == t && v.outcome.Served? && v.outcome.queueTime == waited
      modifies this`history, topTenants, queueTimes
      ensures Recorders() && Ledger() == old(Ledger()).Logging(v)
    {
      hide Waits, DispatchEvents, TopTenants.Sketch, TopTenants.Recorded, Histogram.CountsOf;
      ServedOnce(history.log, v);
      queueTimes.RecordQueueTime(waited);
      topTenants.Record(t, 1);
      history := history.(log := Then(history.log, v));
    }

    /** Everything that counts a delivery whose pending id has been taken. */
    method RecordDelivery(t: Tenant, p: Priority, entry: Entry, cost: nat, ghost deficit: int, ghost now: Time) returns (waited: nat)
      requires Recorders()
      modifies this`stats, this`samples, this`history, topTenants, queueTimes
      ensures Recorders()
      ensures waited == QueueTime(clock.now(old(samples)), entry.task.enqueueTs) && samples == old(samples) + 1
      ensures Ledger() == Counts(old(Ledger()), entry.id, waited).Logging(Visit(t, p, now, Served(entry.id, cost, deficit, waited)))
    {
      hide Waits, DispatchEvents, QueueTime;
      stats := stats.(dequeued := stats.dequeued + 1);
      ReleaseReservedSlots(1);
      var later := Now();
      waited := QueueTime(later, entry.task.enqueueTs);
      QueueTimeFits(later, entry.task.enqueueTs);
      stats := stats.(queueTimeSum := stats.queueTimeSum + waited, queueTimeSamples := stats.queueTimeSamples + 1);
      history := history.(dispatched := history.dispatched + {entry.id});
      RecordVisit(t, p, waited, Visit(t, p, now, Served(entry.id, cost, deficit, waited)));
    }

    /** Pops the affordable head and, if it is still pending, charges and delivers it. `at` is the clock
        reading of the visit. */
    method ServeFront(ts: TenantState, t: Tenant, p: Priority, ghost at: nat)
      returns (after: TenantState, requeue: bool, served: Option<Entry>)
      requires Recorders() && ts.queues.At(p) != [] && samples == at + 1
      modifies this`pendingIds, this`cancelledIds, this`stats, this`samples, this`history, topTenants, queueTimes
      ensures Recorders()
      ensures Turn(after, Ledger(), requeue, served) == ServeHead(clock, ts, old(Ledger()), at, t, p)
      ensures samples == at + if served.Some? then 2 else 1
    {
      hide ServeHead, Claimed, Counts, Recorders, ChargeFor, QueueTime;
      ServeHeadClaims(clock, ts, Ledger(), at, t, p);
      var q := ts.queues.At(p);
      var entry, cost := q[0], ChargeFor(q[0].task.cost);
      requeue := |q| > 1;
      after := ts.(queues := ts.queues.With(p, q[1..]), active := ts.active.With(p, ts.active.At(p) && requeue));
      served := None;
      var claimed := ClaimHead(entry.id);
      if claimed {
        ghost var deficit := ts.deficits.At(p);
        after := after.(deficits := after.deficits.With(p, after.deficits.At(p) - cost));
        var _ := RecordDelivery(t, p, entry, cost, deficit, clock.now(at));
        served := Some(entry);
      } else {
        LogQuietVisit(Visit(t, p, clock.now(at), Discarded));
      }
    }

    /** A visit once the dead heads are gone: go idle, refill, or serve. */
    method TurnAtHead(ts: TenantState, t: Tenant, p: Priority, ghost at: nat)
      returns (after: TenantState, requeue: bool, served: Option<Entry>)
      requires Recorders() && samples == at + 1
      modifies this`pendingIds, this`cancelledIds, this`stats, this`samples, this`history, topTenants, queueTimes
      ensures Recorders()
      ensures Turn(after, Ledger(), requeue, served) == HeadTurn(clock, ts, old(Ledger()), at, t, p)
      ensures samples == at + if served.Some? then 2 else 1
    {
      hide ServeHead, ChargeFor, Recorders;
      var q := ts.queues.At(p);
      after, requeue, served := ts, false, None;
      if q == [] {
        after := ts.(active := ts.active.With(p, false));
        LogQuietVisit(Visit(t, p, clock.now(at), Idle));
      } else {
        var cost, deficit := ChargeFor(q[0].task.cost), ts.deficits.At(p);
        if deficit < cost {
          after := ts.(deficits := ts.deficits.With(p, WrapI64(deficit + ts.quantum)));
          LogQuietVisit(Visit(t, p, clock.now(at), Refilled(q[0].id, cost, deficit, ts.quantum)));
          requeue := true;
        } else {
          after, requeue, served := ServeFront(ts, t, p, at);
        }
      }
    }

    /** One visit of tenant `t` in ring `p`. */
    method GiveTurn(ts: TenantState, t: Tenant, p: Priority) returns (after: TenantState, requeue: bool, served: Option<Entry>)
      requires Recorders() && TurnPre(config, ts, Ledger(), t, p)
      modifies this`pendingIds, this`cancelledIds, this`stats, this`samples, this`history, topTenants, queueTimes
      ensures Recorders()
      ensures Turn(after, Ledger(), requeue, served) == TakeTurn(clock, ts, old(Ledger()), old(samples), t, p)
      ensures samples == old(samples) + if served.Some? then 2 else 1
    {
      hide TurnPre, Purging, DropDead, HeadTurn, DeadPrefix;
      ghost var before, at := Ledger(), samples;
      TurnLanes(config, ts, Ledger(), t, p);
      var now := Now();
      var q, expired := DropDeadHeads(ts.queues.At(p), now);
      DropAddsUp(ts, before, p, now, TallyWith(PurgeStats(expired, expired)));
      after := ts.(queues := ts.queues.With(p, q));
      stats := stats.(expired := stats.expired + expired);
      history := history.(expired := DropDead(ts, before, p, now).1.history.expired);
      assert (after, Ledger()) == DropDead(ts, before, p, now);
      after, requeue, served := TurnAtHead(after, t, p, at);
    }

    /** One iteration of the ring loop: pop a tenant, give it its turn, put it back if it asked for it. */
    method VisitNext(i: nat, p: Priority) returns (served: Option<(Tenant, Entry)>)
      requires Recorders() && CanVisit(Sections(), i, p)
      requires var t := shards[i].rings.At(p)[0];
               t in shards[i].tenants ==> TurnPre(config, shards[i].tenants[t], Ledger(), t, p)
      modifies this`shards, this`pendingIds, this`cancelledIds, this`stats, this`samples, this`history, topTenants, queueTimes
      ensures Recorders()
      ensures Visited(Sections(), served) == VisitRing(clock, old(Sections()), i, p)
    {
      hide TurnPre, TakeTurn, Waits, DispatchEvents;
      var shard := shards[i];
      var ring := shard.rings.At(p);
      var tenant, rest := ring[0], ring[1..];
      served := None;
      if tenant !in shard.tenants {
        shards := shards[i := shard.(rings := shard.rings.With(p, rest))];
        return;
      }
      var ts, requeue, entry := GiveTurn(shard.tenants[tenant], tenant, p);
      if requeue {
        rest := rest + [tenant];
      }
      shards := shards[i := Shard(shard.tenants[tenant := ts], shard.rings.With(p, rest))];
      if entry.Some? {
        served := Some((tenant, entry.value));
      }
    }

    method ServeFromRing(i: nat, p: Priority) returns (served: Option<(Tenant, Entry)>)
      requires Recorders() && i < |shards| && Inv(config, Sections())
      modifies this`shards, this`pendingIds, this`cancelledIds, this`stats, this`samples, this`history, topTenants, queueTimes
      ensures Recorders() && |shards| == |old(shards)| && Inv(config, Sections())
      ensures Visited(Sections(), served) == FullPass(clock, old(Sections()), i, p)
    {
      hide Inv, VisitRing, Recorders;
      ghost var before := Sections();
      var ringLen := |shards[i].rings.At(p)|;
      var n := 0;
      while n < ringLen
        invariant 0 <= n <= ringLen && |shards| == |old(shards)|
        invariant Recorders() && Inv(config, Sections())
        invariant FullPass(clock, before, i, p) == Pass(clock, Sections(), i, p, ringLen - n)
      {
        if shards[i].rings.At(p) == [] {
          return None;
        }
        VisitKeeps(config, clock, Sections(), i, p);
        HeadReady(config, Sections(), i, p);
        served := VisitNext(i, p);
        if served.Some? {
          return;
        }
        n := n + 1;
      }
      served := None;
    }

    method TryDequeueFromShard(i: nat) returns (served: Option<(Tenant, Entry)>)
      requires Recorders() && i < |shards| && Inv(config, Sections())
      modifies this`shards, this`pendingIds, this`cancelledIds, this`stats, this`samples, this`history, topTenants, queueTimes
      ensures Recorders() && |shards| == |old(shards)| && Inv(config, Sections())
      ensures Visited(Sections(), served) == DequeueShard(clock, old(Sections()), i)
    {
      hide Inv, FullPass, DequeueShard, Recorders;
      ghost var before := Sections();
      WholeShard(clock, before, i);
      var idx := 0;
      while idx < |PRIORITIES|
        invariant 0 <= idx <= 3 && |shards| == |old(shards)|
        invariant Recorders() && Inv(config, Sections())
        invariant RestOfShard(clock, before, i, 0) == RestOfShard(clock, Sections(), i, idx)
      {
        served := ServeFromRing(i, PRIORITIES[idx]);
        if served.Some? {
          return;
        }
        idx := idx + 1;
      }
      served := None;
    }

    method ShouldClose() returns (closed: bool)
      requires activeShards.Valid()
      ensures closed == ShouldReturnClosed(Value())
    {
      match shutdown
      case Immediate => closed := true;
      case Drain => closed := stats.queueLen == 0;
      case Open => closed := false;
    }

    method TryDequeue() returns (r: Dequeued)
      requires Valid()
      modifies this, activeShards, topTenants, queueTimes
      ensures Valid() && trace == old(trace) + [DequeueOp]
      ensures (Value(), r) == Service.TryDequeue(clock, old(Value()))
    {
      hide LedTo, Inv, ListOk, Perform, DequeueShard, DequeueLoop, Waits, DispatchEvents;
      ghost var before := Value();
      OneMoreOp(config, clock, Origin(), trace, before, DequeueOp);
      PerformDequeue(config, clock, before);
      if shutdown == Immediate {
        trace := trace + [DequeueOp];
        return Closed;
      }
      var served := DequeueFromActive();
      trace := trace + [DequeueOp];
      if served.Some? {
        return Delivered(served.value.0, served.value.1);
      }
      var closed := ShouldClose();
      r := if closed then Closed else Empty;
    }

    /** The shard whose turn is over goes back to the list while it has work, and is unflagged otherwise. */
    method Resettle(i: nat, ghost s: State)
      requires activeShards.Valid() && Recorders() && s.Shaped() && s.activeShards != [] && s.activeShards[0] == i
      requires i < |shards| == |s.world.shards|
      requires activeShards.Contents() == s.activeShards[1..] && shardActive == s.shardActive && shutdown == s.shutdown
      modifies this`shardActive, activeShards
      ensures activeShards.Valid() && Recorders()
      ensures Value() == Settled(s, i, Sections())
    {
      hide RingsEmpty, Waits, DispatchEvents;
      var hasWork := !RingsEmpty(shards[i]);
      if hasWork {
        activeShards.PushBack(i);
      } else {
        shardActive := shardActive[i := false];
        assert s.activeShards[1..] + [] == s.activeShards[1..];
      }
    }

    /** The loop over the active shards. */
    method DequeueFromActive() returns (served: Option<(Tenant, Entry)>)
      requires activeShards.Valid() && Recorders() && Value().Shaped() && Inv(config, Sections())
      modifies this`shards, this`shardActive, this`pendingIds, this`cancelledIds, this`stats, this`samples, this`history,
               activeShards, topTenants, queueTimes
      ensures activeShards.Valid() && Recorders()
      ensures (Value(), served) == DequeueLoop(clock, old(Value()), |old(activeShards.Contents())|)
    {
      hide Inv, DequeueShard, DequeueLoop, Settled, Recorders;
      ghost var before := Value();
      var remaining := activeShards.Len();
      ghost var start := remaining;
      while remaining > 0
        invariant activeShards.Valid() && Recorders() && Value().Shaped() && Inv(config, Sections())
        invariant DequeueLoop(clock, before, start) == DequeueLoop(clock, Value(), remaining)
        decreases remaining
      {
        ghost var s := Value();
        var popped := activeShards.PopFront();
        if popped.None? {
          break;
        }
        var i := popped.value;
        LoopStep(clock, s, remaining);
        remaining := remaining - 1;
        served := TryDequeueFromShard(i);
        Resettle(i, s);
        if served.Some? {
          return;
        }
      }
      LoopEnds(clock, Value(), remaining);
      served := None;
    }

    // -------------------------------------------------------------- quanta

    method RefreshTenantQuantum(tenant: Tenant)
      requires shards != []
      modifies this`shards
      ensures Sections() == RefreshTenant(old(Sections()), tenant)
    {
      var i := ShardIndex(|shards|, tenant);
      var shard := shards[i];
      if tenant in shard.tenants {
        var ts := shard.tenants[tenant].(quantum := AsI64(QuantumFor(Rates(), tenant)));
        shards := shards[i := shard.(tenants := shard.tenants[tenant := ts])];
      }
    }

    method SetTenantQuantum(tenant: Tenant, quantum: nat)
      requires Valid()
      modifies this
      ensures Valid() && Value() == Perform(config, clock, old(Value()), WorldOp(SetQuantumMove(tenant, quantum)))
    {
      hide LedTo, StateInv, RefreshTenant, Waits, DispatchEvents;
      ghost var op := WorldOp(SetQuantumMove(tenant, quantum));
      OneMoreOp(config, clock, Origin(), trace, Value(), op);
      tenantQuantum := tenantQuantum[tenant := Max(quantum, 1)];
      RefreshTenantQuantum(tenant);
      trace := trace + [op];
    }

    method ClearTenantQuantum(tenant: Tenant)
      requires Valid()
      modifies this
      ensures Valid() && Value() == Perform(config, clock, old(Value()), WorldOp(ClearQuantumMove(tenant)))
    {
      hide LedTo, StateInv, RefreshTenant, Waits, DispatchEvents;
      ghost var op := WorldOp(ClearQuantumMove(tenant));
      OneMoreOp(config, clock, Origin(), trace, Value(), op);
      tenantQuantum := tenantQuantum - {tenant};
      RefreshTenantQuantum(tenant);
      trace := trace + [op];
    }

    method RefreshShard(shard: Shard) returns (refreshed: Shard)
      ensures refreshed == RefreshedShard(shard, Rates())
    {
      var tenants, todo := shard.tenants, shard.tenants.Keys;
      while todo != {}
        invariant tenants.Keys == shard.tenants.Keys && todo <= shard.tenants.Keys
        invariant forall t :: t in todo ==> tenants[t] == shard.tenants[t]
        invariant forall t :: t in shard.tenants && t !in todo ==>
                    tenants[t] == shard.tenants[t].(quantum := AsI64(QuantumFor(Rates(), t)))
        decreases |todo|
      {
        var t :| t in todo;
        tenants := tenants[t := tenants[t].(quantum := AsI64(QuantumFor(Rates(), t)))];
        todo := todo - {t};
      }
      refreshed := shard.(tenants := tenants);
      assert refreshed.tenants == RefreshedShard(shard, Rates()).tenants;
    }

    method SetQuantumProvider(provider: Option<Tenant -> nat>)
      requires Valid()
      modifies this
      ensures Valid() && Value() == Perform(config, clock, old(Value()), WorldOp(SetProviderMove(provider)))
    {
      hide LedTo, StateInv, Perform, RefreshedShard, Waits, DispatchEvents;
      ghost var op, before, start := WorldOp(SetProviderMove(provider)), shards, Value();
      OneMoreOp(config, clock, Origin(), trace, Value(), op);
      quantumProvider := provider;
      var i := 0;
      while i < |shards|
        invariant 0 <= i <= |shards| == |before|
        invariant forall j :: 0 <= j < i ==> shards[j] == RefreshedShard(before[j], Rates())
        invariant forall j :: i <= j < |before| ==> shards[j] == before[j]
        modifies this`shards
      {
        var shard := RefreshShard(shards[i]);
        shards := shards[i := shard];
        i := i + 1;
      }
      ProviderSet(config, clock, start, provider, shards);
      trace := trace + [op];
    }

    // -------------------------------------------------------------- metrics

    /** The queue-time percentile num/den: the nearest-rank quantile of the queue times of all tasks
        dispatched so far, rounded up to its bucket's bound. */
    method QueueTimePercentile(num: nat, den: nat) returns (ns: nat)
      requires Valid() && 0 < num <= den
      ensures |Waits(history.log)| == stats.dequeued
      ensures stats.dequeued == 0 ==> ns == 0
      ensures stats.dequeued > 0 ==> Histogram.LeastBound(Histogram.BUCKETS, Waits(history.log), num, den, ns)
      ensures forall sorted: seq<nat> |
                stats.dequeued > 0 && Histogram.Sorted(sorted) && multiset(sorted) == multiset(Waits(history.log)) ::
                var r := Histogram.Rank(stats.dequeued, num, den);
                && Histogram.LeastRank(r, stats.dequeued, num, den)
                && 1 <= r <= |sorted| && sorted[r - 1] <= U64_MAX && ns == Histogram.RoundUp(Histogram.BUCKETS, sorted[r - 1])
    {
      hide Valid, StateInv, Waits, Histogram.Rank, Histogram.RoundUp, Histogram.Sorted, Histogram.LeastBound, Histogram.LeastRank;
      assert queueTimes.Valid() && queueTimes.samples == Waits(history.log) && queueTimes.bounds == Histogram.BUCKETS
        && |Waits(history.log)| == stats.dequeued by { WaitsRecorded(); }
      ns := queueTimes.Percentile(num, den);
    }

    lemma WaitsRecorded()
      requires Valid()
      ensures queueTimes.Valid() && queueTimes.samples == Waits(history.log) && queueTimes.bounds == Histogram.BUCKETS
      ensures |Waits(history.log)| == stats.dequeued
    {
      hide LedTo, Reachable, Waits, DispatchEvents, Histogram.CountsOf, TopTenants.Sketch, TopTenants.TotalWeight, TopTenants.TrueWeight;
      ObjectReaches();
      RecordedDispatches(config, clock, Sections(), 0);
    }

    /** The top talkers, most dispatched first. */
    method TopTenantsSnapshot() returns (top: TopTenants.Entries)
      requires Valid()
      ensures TopTenants.Descending(top)
      ensures topTenants.capacity > 0 && stats.dequeued <= U64_MAX ==>
                forall t :: |OfTenant(history, history.dispatched, t)| * topTenants.capacity > stats.dequeued ==>
                  TopTenants.Tracked(top, t)
    {
      hide LedTo, Reachable;
      top := TopTenants.Snapshot(topTenants.entries);
      TopTenants.SnapshotSorts(topTenants.entries);
      if topTenants.capacity > 0 && stats.dequeued <= U64_MAX {
        ObjectReaches();
        TopTalkers(config, clock, Sections(), topTenants.capacity);
        forall t | TopTenants.Tracked(topTenants.entries, t) ensures TopTenants.Tracked(top, t) {
          SameTenantsTracked(topTenants.entries, top, t);
        }
      }
    }

    /** The object's quanta are those its calls to set, clear and provide them choose. */
    lemma ObjectQuantum(t: Tenant)
      requires Valid()
      ensures Worth(HomeState(Sections(), t).quantum,
                    Chosen(StaticAfter(StaticOf(startRates, t), trace, t), ProviderAfter(startRates.provider, trace), startRates.base, t))
    {
      hide HomeState, PerformAll, StateInv, Worth, Chosen, StaticOf, StaticAfter, ProviderAfter, OpOk;
      QuantumFollowsCalls(config, clock, shardCount, startRates, trace, t);
    }

    /** Whatever is proved of every reachable world is true of the object, at every moment between calls. */
    lemma ObjectReaches()
      requires Valid()
      ensures Reachable(config, clock, Sections())
    {
      hide Reachable, PerformAll, StateInv;
      OperationsReach(config, clock, shardCount, startRates, trace);
    }
  }
}
