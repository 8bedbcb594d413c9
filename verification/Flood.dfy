/** A run that starves a task its tenant can pay for: High work that keeps coming takes every dequeue. */
module Flood {
  import opened Types
  import opened Sums
  import opened World
  import opened Invariant
  import opened EnqueueProofs
  import opened Preservation
  import opened Delivery
  import opened BoundedWait
  import opened RoundRobin
  import opened Service
  import opened Limits
  import opened Refills
  import opened Selection
  import opened Examples

  /** Tenant 0 submits a free Low task; then, `n` times, tenant 1 submits a free High one and a consumer calls
      `try_dequeue`. */
  function Flooded(n: nat): (s: State)
    ensures s.Shaped()
  {
    if n == 0 then PerformAll(ROOMY, Still(), FreshState(1, UNIT_QUANTUM), [SubmitOp(0, FREE_LOW)])
    else PerformAll(ROOMY, Still(), Flooded(n - 1), [SubmitOp(1, FREE_HIGH), DequeueOp])
  }

  const LOW := Entry(1, FREE_LOW)

  /** After `n` rounds the Low task waits at the head of its lane, and all High tasks are gone. */
  ghost predicate LowWaits(s: State, n: nat) {
    && StateInv(ROOMY, s) && Tidy(s.world) && s.shutdown == Open && |s.world.shards| == 1
    && s.world.books.nextId == n + 1 && s.world.books.pending <= {1}
    && HomeState(s.world, 0).queues == Three([], [], [LOW]) && HomeState(s.world, 0).deficits.low == 0
    && HomeState(s.world, 1).queues == Three([], [], []) && HomeState(s.world, 1).deficits.high == 0
    && s.world.shards[0].rings.high == []
  }

  lemma TwoOps(cfg: Config, clock: Clock, s: State, a: Op, b: Op)
    requires s.Shaped()
    ensures PerformAll(cfg, clock, s, [a, b]) == Perform(cfg, clock, Perform(cfg, clock, s, a), b)
  {
    hide Perform;
    assert [a, b][1..] == [b] && [b][1..] == [];
    var s1 := Perform(cfg, clock, s, a);
    assert PerformAll(cfg, clock, s, [a, b]) == PerformAll(cfg, clock, s1, [b]);
    assert PerformAll(cfg, clock, s1, [b]) == PerformAll(cfg, clock, Perform(cfg, clock, s1, b), []);
  }

  lemma LowSubmitted()
    ensures LowWaits(Flooded(0), 0)
  {
    hide Inv, Tidy, ListOk, Enqueue, TenantWith;
    var s0 := FreshState(1, UNIT_QUANTUM);
    FreshStateOk(ROOMY, 1, UNIT_QUANTUM);
    FreshIsTidy(1, UNIT_QUANTUM);
    EnqueueIntoEmpty(ROOMY, Still(), s0.world, 0, FREE_LOW);
    StepKeepsTidy(ROOMY, Still(), s0.world, EnqueueMove(0, FREE_LOW));
    SubmitKeeps(ROOMY, Still(), s0, 0, FREE_LOW);
    assert [SubmitOp(0, FREE_LOW)][1..] == [];
    var s := Submit(ROOMY, Still(), s0, 0, FREE_LOW).0;
    assert Flooded(0) == PerformAll(ROOMY, Still(), s, []);
    assert HomeState(s.world, 0) == TenantWith(1, Low, LOW);
    LowLane();
  }

  lemma LowLane()
    ensures TenantWith(1, Low, LOW).queues == Three([], [], [LOW]) && TenantWith(1, Low, LOW).deficits.low == 0
  {
  }

  /** The High task is admitted and listed. */
  lemma HighSubmitted(s: State, n: nat)
    requires LowWaits(s, n)
    ensures var s', e := Submit(ROOMY, Still(), s, 1, FREE_HIGH).0, Entry(n + 2, FREE_HIGH);
            && StateInv(ROOMY, s') && Tidy(s'.world) && s'.shutdown == Open && |s'.world.shards| == 1
            && s'.world.books.nextId == n + 2 && s'.world.books.pending <= {1, n + 2}
            && HomeState(s'.world, 0) == HomeState(s.world, 0)
            && HomeState(s'.world, 1).queues == Three([e], [], []) && HomeState(s'.world, 1).deficits.high == 0
            && s'.world.shards[0].rings.high == [1]
  {
    hide Inv, Tidy, ListOk, HomeState, AdmitOrReject, OnlyShrinks, DraftOk;
    var w := s.world;
    var d := Draft(HomeState(w, 1), w.books, w.samples);
    var a := AdmissionOf(ROOMY, Still(), w, 1, FREE_HIGH);
    SubmitKeeps(ROOMY, Still(), s, 1, FREE_HIGH);
    StepKeepsTidy(ROOMY, Still(), w, EnqueueMove(1, FREE_HIGH));
    HomeDraftOk(ROOMY, w, 1);
    AdmitKeeps(ROOMY, Still(), d, 1, FREE_HIGH);
    TidyIsCalm(w, 1);
    TidyUnmarked(w);
    AdmitLeaves(ROOMY, Still(), d);
    FewPending(w, n);
    TenantFullExactly(ROOMY, Still(), w, 1, FREE_HIGH);
    OnlyIfGlobalFull(ROOMY, Still(), d);
    assert a.refusal == None;
    SameNextId(d, a.draft, 1);
    DraftShrinks(d, a.draft);
    ElsewhereHome(ROOMY, Still(), w, 1, FREE_HIGH, 0);
    EmptyLaneUnflagged(w);
    JoinsHigh(w, a.draft, n);
    HighIsWorld(s);
  }

  lemma EmptyLaneUnflagged(w: World)
    requires w.shards != [] && Tidy(w) && HomeState(w, 1).queues.high == []
    ensures !HomeState(w, 1).active.high
  {
    hide HomeState;
    assert TidyLane(HomeState(w, 1), 1, High, RingOf(w, 1, High));
  }

  lemma FewPending(w: World, n: nat)
    requires Inv(ROOMY, w) && w.books.pending <= {1}
    ensures w.books.stats.queueLen <= 1
  {
    hide TenantInvAt, Homed, RingsKnown;
    CardMinus({1}, w.books.pending);
  }

  lemma DraftShrinks(d: Draft, d': Draft)
    requires OnlyShrinks(d, d', 1)
    ensures d'.books.pending <= d.books.pending && d'.state.deficits == d.state.deficits
  {
  }

  lemma JoinsHigh(w: World, d: Draft, n: nat)
    requires |w.shards| == 1 && AdmissionOf(ROOMY, Still(), w, 1, FREE_HIGH) == Admission(d, None)
    requires d.state == HomeState(w, 1).(attempts := d.state.attempts) && d.books.nextId == n + 1 && d.books.pending <= {1}
    requires HomeState(w, 1).queues == Three([], [], []) && HomeState(w, 1).deficits.high == 0 && !HomeState(w, 1).active.high
    requires w.shards[0].rings.high == []
    ensures var w', e := Enqueue(ROOMY, Still(), w, 1, FREE_HIGH), Entry(n + 2, FREE_HIGH);
            && |w'.shards| == 1 && w'.books.nextId == n + 2 && w'.books.pending <= {1, n + 2}
            && HomeState(w', 1).queues == Three([e], [], []) && HomeState(w', 1).deficits.high == 0
            && w'.shards[0].rings.high == [1]
  {
    hide AdmissionOf, HomeState;
    var w' := Enqueue(ROOMY, Still(), w, 1, FREE_HIGH);
    assert ShardIndex(1, 1) == 0;
    assert [] + [1] == [1] && [] + [Entry(n + 2, FREE_HIGH)] == [Entry(n + 2, FREE_HIGH)];
    HomeOf(w', 1);
  }

  lemma HighIsWorld(s: State)
    requires s.Shaped() && s.shutdown == Open
    ensures var s' := Submit(ROOMY, Still(), s, 1, FREE_HIGH).0;
            s'.world == Enqueue(ROOMY, Still(), s.world, 1, FREE_HIGH) && s'.shutdown == Open
  {
    hide Enqueue, AdmissionOf;
  }

  /** The High task is served: its ring holds nothing else, and it costs nothing. */
  lemma HighServed(w: World, e: Entry)
    requires Inv(ROOMY, w) && Tidy(w) && |w.shards| == 1 && w.shards[0].rings.high == [1]
    requires HomeState(w, 1).queues == Three([e], [], []) && HomeState(w, 1).deficits.high == 0
    requires e.task == FREE_HIGH
    ensures var v := VisitRing(Still(), w, 0, High);
            && v.served == Some((1, e)) && DequeueShard(Still(), w, 0) == v
            && |v.world.shards| == 1 && Inv(ROOMY, v.world) && Tidy(v.world)
            && HomeState(v.world, 0) == HomeState(w, 0)
            && HomeState(v.world, 1).queues == Three([], [], []) && HomeState(v.world, 1).deficits.high == 0
            && v.world.shards[0].rings.high == []
  {
    hide Inv, Tidy, HomeState, TakeTurn, TurnPre, DeadPrefix;
    var v := VisitRing(Still(), w, 0, High);
    TidyUnmarked(w);
    VisitKeeps(ROOMY, Still(), w, 0, High);
    StepKeepsTidy(ROOMY, Still(), w, VisitMove(0, High));
    VisitSummary(ROOMY, Still(), w, 0, High);
    TurnSummary(ROOMY, Still(), HomeState(w, 1), w.books, w.samples, 1, High);
    NothingDead([e], Still().now(w.samples));
    OnlyHighChanges(HomeState(w, 1), HomeState(v.world, 1), e);
    RingHead(ROOMY, w, 0, High);
    RingAfter(Still(), w, 0, High);
    EmptyLaneUnlisted(v.world);
  }

  lemma OnlyHighChanges(ts: TenantState, ts': TenantState, e: Entry)
    requires ts.queues == Three([e], [], []) && forall p: Priority :: p != High ==> ts'.queues.At(p) == ts.queues.At(p)
    requires ts'.queues.At(High) == [e][1..]
    ensures ts'.queues == Three([], [], [])
  {
    assert ts'.queues.At(Normal) == [] && ts'.queues.At(Low) == [];
  }

  lemma EmptyLaneUnlisted(w: World)
    requires |w.shards| == 1 && Tidy(w) && HomeState(w, 1).queues.high == []
    ensures 1 !in w.shards[0].rings.high
  {
    hide HomeState;
    assert TidyLane(HomeState(w, 1), 1, High, RingOf(w, 1, High));
  }

  lemma ServedGone(w: World, e: Entry)
    requires Inv(ROOMY, w) && CanVisit(w, 0, High) && HomeState(w, 1).queues == Three([e], [], []) && w.books.pending <= {1, e.id}
    requires Inv(ROOMY, VisitRing(Still(), w, 0, High).world)
    requires VisitRing(Still(), w, 0, High).world.shards != []
    requires HomeState(VisitRing(Still(), w, 0, High).world, 1).queues == Three([], [], [])
    ensures VisitRing(Still(), w, 0, High).world.books.pending <= {1}
    ensures VisitRing(Still(), w, 0, High).world.books.nextId == w.books.nextId
  {
    hide BooksOk, TenantInvAt, Homed, RingsKnown, HomeState, VisitRing;
    var w' := VisitRing(Still(), w, 0, High).world;
    VisitPending(Still(), w, 0, High);
    InvAtLane(ROOMY, w, 1, High);
    HeadAccepted([e], 1, High, w.books);
    VisitLogs(ROOMY, Still(), w, 0, High);
    InvAtLane(ROOMY, w', 1, High);
    assert Queued(w'.books, e.id) ==> e.id in Ids([]);
  }

  /** The call of `try_dequeue` in round `n + 1` hands out that round's High task. */
  lemma HighDelivered(s: State, n: nat)
    requires LowWaits(s, n)
    ensures var s1 := Submit(ROOMY, Still(), s, 1, FREE_HIGH).0;
            && TryDequeue(Still(), s1).1 == Delivered(1, Entry(n + 2, FREE_HIGH))
            && LowWaits(TryDequeue(Still(), s1).0, n + 1)
  {
    hide Inv, Tidy, HomeState, DequeueShard, VisitRing, Submit;
    var s1, e := Submit(ROOMY, Still(), s, 1, FREE_HIGH).0, Entry(n + 2, FREE_HIGH);
    HighSubmitted(s, n);
    HighServed(s1.world, e);
    ServedGone(s1.world, e);
    DequeueKeeps(ROOMY, Still(), s1);
    var v := DequeueShard(Still(), s1.world, 0);
    OnlyShardListed(s1);
    assert DequeueLoop(Still(), s1, 1) == (Settled(s1, 0, v.world), v.served);
  }

  lemma OnlyShardListed(s: State)
    requires StateInv(ROOMY, s) && |s.world.shards| == 1 && s.world.shards[0].rings.high == [1]
    ensures s.activeShards == [0]
  {
    hide Inv;
    assert !RingsEmpty(s.world.shards[0]);
    assert s.shardActive[0] && 0 in s.activeShards;
    assert forall k :: 0 <= k < |s.activeShards| ==> s.activeShards[k] in s.activeShards;
    DistinctBelow(s.activeShards, 1);
  }

  lemma {:induction false} LowKeepsWaiting(n: nat)
    ensures LowWaits(Flooded(n), n)
  {
    hide LowWaits, Submit, TryDequeue;
    if n == 0 {
      LowSubmitted();
    } else {
      var s := Flooded(n - 1);
      LowKeepsWaiting(n - 1);
      TwoOps(ROOMY, Still(), s, SubmitOp(1, FREE_HIGH), DequeueOp);
      HighDelivered(s, n - 1);
    }
  }

  /** Starvation by priority: however many rounds, the Low task still waits at the head of its lane, which could
      pay for it at once, and the next call hands out the next High task instead. */
  lemma LowStarves(n: nat)
    ensures var s := Flooded(n);
            && Waiting(s.world, 0, Low, LOW) && LOW.id !in s.world.books.history.dispatched
            && ChargeFor(LOW.task.cost) <= HomeState(s.world, 0).deficits.low
            && TryDequeue(Still(), Submit(ROOMY, Still(), s, 1, FREE_HIGH).0).1 == Delivered(1, Entry(n + 2, FREE_HIGH))
  {
    hide Inv, Tidy, ListOk, HomeState, Flooded, TryDequeue, Submit;
    var s := Flooded(n);
    LowKeepsWaiting(n);
    HighDelivered(s, n);
    TidyUnmarked(s.world);
    LowPending(s.world);
    PendingNotDispatched(ROOMY, s.world, 0, Low, LOW);
  }

  lemma LowPending(w: World)
    requires Inv(ROOMY, w) && w.shards != [] && w.books.cancelled == {} && HomeState(w, 0).queues == Three([], [], [LOW])
    ensures Waiting(w, 0, Low, LOW)
  {
    hide BooksOk, TenantInvAt, Homed, RingsKnown, HomeState;
    InvAtLane(ROOMY, w, 0, Low);
    assert EntryOk([LOW][0], 0, Low, w.books);
  }
}
