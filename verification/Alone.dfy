/** One task alone in a new scheduler: exactly which call of `try_dequeue` hands it out. */
module Alone {
  import opened Types
  import opened World
  import opened Invariant
  import opened EnqueueProofs
  import opened Preservation
  import opened Service
  import opened Draining
  import opened Settings

  /** The one task `e` waits in lane (t, p), with `deficit` so far, after `at` clock readings. */
  ghost predicate Waits(cfg: Config, s: State, t: Tenant, p: Priority, e: Entry, quantum: int, deficit: int, at: nat) {
    && StateInv(cfg, s) && s.shutdown == Open && s.world.samples == at && s.world.books.cancelled == {}
    && HomeState(s.world, t).queues.At(p) == [e] && HomeState(s.world, t).quantum == quantum && HomeState(s.world, t).deficits.At(p) == deficit
    && s.activeShards == [ShardIndex(|s.world.shards|, t)]
    && forall p2: Priority :: s.world.shards[ShardIndex(|s.world.shards|, t)].rings.At(p2) == if p2 == p then [t] else []
  }

  lemma EmptyPass(clock: Clock, w: World, i: nat, p: Priority)
    requires i < |w.shards| && w.shards[i].rings.At(p) == []
    ensures FullPass(clock, w, i, p) == Visited(w, None)
  {
  }

  lemma OnePass(clock: Clock, w: World, i: nat, p: Priority)
    requires i < |w.shards| && |w.shards[i].rings.At(p)| == 1
    ensures FullPass(clock, w, i, p) == VisitRing(clock, w, i, p)
  {
    hide VisitRing;
    var v := VisitRing(clock, w, i, p);
    RingAfter(clock, w, i, p);
    assert v.served.None? ==> Pass(clock, v.world, i, p, 0) == Visited(v.world, None);
  }

  /** With one entry in one ring a shard dequeue is one visit. */
  lemma OneVisit(clock: Clock, w: World, i: nat, p: Priority)
    requires i < |w.shards| && |w.shards[i].rings.At(p)| == 1
    requires forall p2: Priority :: p2 != p ==> w.shards[i].rings.At(p2) == []
    ensures DequeueShard(clock, w, i) == VisitRing(clock, w, i, p)
  {
    hide VisitRing, FullPass;
    var v := VisitRing(clock, w, i, p);
    RingAfter(clock, w, i, p);
    OnePass(clock, w, i, p);
    forall p2: Priority | p2 != p ensures FullPass(clock, w, i, p2) == Visited(w, None) && FullPass(clock, v.world, i, p2) == Visited(v.world, None) {
      EmptyPass(clock, w, i, p2);
      EmptyPass(clock, v.world, i, p2);
    }
  }

  lemma StillLive(e: Entry, now: Time)
    requires e.task.deadline.Some? ==> now <= e.task.deadline.value
    ensures DeadPrefix([e], {}, now) == 0
  {
  }

  /** The visit of the lone task: served if its deficit covers its cost, else refilled. */
  lemma LoneVisit(cfg: Config, clock: Clock, s: State, t: Tenant, p: Priority, e: Entry, quantum: int, deficit: int, at: nat)
    requires Waits(cfg, s, t, p, e, quantum, deficit, at) && e.task.cost <= I64_MAX
    requires e.task.deadline.Some? ==> clock.now(at) <= e.task.deadline.value
    ensures var i := ShardIndex(|s.world.shards|, t);
            var v := VisitRing(clock, s.world, i, p);
            && DequeueShard(clock, s.world, i) == v
            && (deficit >= e.task.cost ==> v.served == Some((t, e)))
            && (deficit < e.task.cost ==>
                  && v.served == None && |v.world.shards| == |s.world.shards| && v.world.samples == at + 1 && v.world.books.cancelled == {}
                  && HomeState(v.world, t).queues.At(p) == [e] && HomeState(v.world, t).quantum == quantum
                  && HomeState(v.world, t).deficits.At(p) == WrapI64(deficit + quantum)
                  && forall p2: Priority :: v.world.shards[i].rings.At(p2) == if p2 == p then [t] else [])
  {
    hide Inv, ListOk, HomeState, TakeTurn, TurnPre, DeadPrefix, WrapI64;
    var w, i := s.world, ShardIndex(|s.world.shards|, t);
    OneVisit(clock, w, i, p);
    VisitSummary(cfg, clock, w, i, p);
    TurnSummary(cfg, clock, HomeState(w, t), w.books, w.samples, t, p);
    StillLive(e, clock.now(at));
    RingHead(cfg, w, i, p);
    RingAfter(clock, w, i, p);
    VisitKeeps(cfg, clock, w, i, p);
    if deficit < e.task.cost {
      var w' := VisitRing(clock, w, i, p).world;
      assert [e][0..] == [e] && Ids([e][..0]) == {};
      InvAtLane(cfg, w', t, p);
    }
  }

  /** A call short of the cost answers `Empty` and adds one quantum. */
  lemma LoneRefill(cfg: Config, clock: Clock, s: State, t: Tenant, p: Priority, e: Entry, quantum: nat, deficit: nat, at: nat)
    requires Waits(cfg, s, t, p, e, quantum, deficit, at) && deficit < e.task.cost && e.task.cost + quantum <= I64_MAX
    requires e.task.deadline.Some? ==> clock.now(at) <= e.task.deadline.value
    ensures TryDequeue(clock, s).1 == Empty
    ensures Waits(cfg, TryDequeue(clock, s).0, t, p, e, quantum, deficit + quantum, at + 1)
  {
    hide Inv, ListOk, HomeState, DequeueShard, VisitRing;
    LoneVisit(cfg, clock, s, t, p, e, quantum, deficit, at);
    DequeueKeeps(cfg, clock, s);
    var i := ShardIndex(|s.world.shards|, t);
    var v := DequeueShard(clock, s.world, i);
    assert v.world.shards[i].rings.At(p) == [t];
    assert !RingsEmpty(v.world.shards[i]);
    assert [i][1..] + [i] == [i];
    var s1 := Service.Settled(s, i, v.world);
    assert DequeueLoop(clock, s, 1) == DequeueLoop(clock, s1, 0);
  }

  lemma LoneServed(cfg: Config, clock: Clock, s: State, t: Tenant, p: Priority, e: Entry, quantum: nat, deficit: nat, at: nat)
    requires Waits(cfg, s, t, p, e, quantum, deficit, at) && e.task.cost <= deficit && e.task.cost <= I64_MAX
    requires e.task.deadline.Some? ==> clock.now(at) <= e.task.deadline.value
    ensures TryDequeue(clock, s).1 == Delivered(t, e)
  {
    hide Inv, ListOk, HomeState, DequeueShard, VisitRing;
    LoneVisit(cfg, clock, s, t, p, e, quantum, deficit, at);
  }

  /** The j-th call answers `Empty` while j - 1 quanta are short of the cost. */
  lemma {:induction false} LoneCalls(cfg: Config, clock: Clock, s: State, t: Tenant, p: Priority, e: Entry, quantum: nat, j: nat)
    requires Waits(cfg, s, t, p, e, quantum, 0, 0) && e.task.cost + quantum <= I64_MAX
    requires j > 0 ==> (j - 1) * quantum < e.task.cost
    requires e.task.deadline.Some? ==> forall k: nat :: k < j ==> clock.now(k) <= e.task.deadline.value
    ensures Waits(cfg, Repeat(clock, s, j), t, p, e, quantum, j * quantum, j)
    ensures forall k: nat :: k < j ==> TryDequeue(clock, Repeat(clock, s, k)).1 == Empty
    decreases j
  {
    hide Waits, TryDequeue;
    assert s.Shaped() by { WaitsShaped(cfg, s, t, p, e, quantum, 0, 0); }
    if j > 0 {
      TimesMonotone(if j == 1 then 0 else j - 2, j - 1, quantum);
      LoneCalls(cfg, clock, s, t, p, e, quantum, j - 1);
      RepeatMore(clock, s, j - 1);
      LoneRefill(cfg, clock, Repeat(clock, s, j - 1), t, p, e, quantum, (j - 1) * quantum, j - 1);
      assert (j - 1) * quantum + quantum == j * quantum;
    }
  }

  lemma WaitsShaped(cfg: Config, s: State, t: Tenant, p: Priority, e: Entry, quantum: int, deficit: int, at: nat)
    requires Waits(cfg, s, t, p, e, quantum, deficit, at)
    ensures s.Shaped()
  {
    hide Inv, ListOk;
  }

  lemma {:induction false} RepeatMore(clock: Clock, s: State, n: nat)
    requires s.Shaped()
    ensures Repeat(clock, s, n + 1) == TryDequeue(clock, Repeat(clock, s, n)).0
    decreases n
  {
    hide TryDequeue;
    if n > 0 {
      RepeatMore(clock, TryDequeue(clock, s).0, n - 1);
    } else {
      assert Repeat(clock, TryDequeue(clock, s).0, 0) == TryDequeue(clock, s).0;
    }
  }

  // ---------------------------------------------------------------- from a new scheduler

  /** The first task of a tenant is admitted under every policy while there is room for one. */
  lemma FirstIsAdmitted(cfg: Config, clock: Clock, quantum: int, b: Books, samples: nat, t: Tenant, task: Task)
    requires b.stats.queueLen < cfg.maxGlobal && cfg.maxPerTenant >= 1
    ensures Admit(cfg, clock, Draft(NewTenant(quantum), b, samples), t, task)
         == Admission(Draft(NewTenant(quantum).(attempts := 1), Reserve(cfg, b).value, samples), None)
  {
    hide PurgeForEnqueue, EvictFrom;
    var d := Draft(NewTenant(quantum), b, samples);
    assert MaybePurge(cfg, clock, d) == (d.(state := d.state.(attempts := 1)), false);
  }

  lemma FirstSubmitted(cfg: Config, clock: Clock, shards: nat, quanta: Quanta, t: Tenant, task: Task, quantum: int)
    requires cfg.maxGlobal >= 1 && cfg.maxPerTenant >= 1
    requires HomeState(FreshState(shards, quanta).world, t).quantum == quantum
    ensures var (s, r) := Submit(cfg, clock, FreshState(shards, quanta), t, task);
            r == Enqueued(1) && Waits(cfg, s, t, task.priority, Entry(1, task), quantum, 0, 0)
  {
    hide Inv, Admit, QuantumFor, AsI64;
    var s0 := FreshState(shards, quanta);
    var w, i := s0.world, ShardIndex(|s0.world.shards|, t);
    FreshStateOk(cfg, shards, quanta);
    SubmitKeeps(cfg, clock, s0, t, task);
    assert HomeState(w, t) == NewTenant(quantum);
    FirstIsAdmitted(cfg, clock, quantum, w.books, w.samples, t, task);
    assert [] + [t] == [t] && [] + [i] == [i] && [] + [Entry(1, task)] == [Entry(1, task)];
    var s := Submit(cfg, clock, s0, t, task).0;
    HomeOf(s.world, t);
  }

  /** End to end: alone in a new scheduler, a task whose cost is covered by n quanta of its tenant and no fewer, cost
      plus quantum within an `i64`, that does not expire meanwhile, is handed out by exactly the call number n + 1
      of `try_dequeue`, and every earlier one answers `Empty`. */
  lemma LoneTaskExactly(cfg: Config, clock: Clock, shards: nat, quanta: Quanta, t: Tenant, task: Task, q: nat, n: nat)
    requires cfg.maxGlobal >= 1 && cfg.maxPerTenant >= 1
    requires var chosen := Chosen(StaticOf(quanta, t), quanta.provider, quanta.base, t);
             q == (if chosen == 0 then 1 else chosen) && task.cost + q <= I64_MAX
    requires (n - 1) * q < task.cost <= n * q
    requires task.deadline.Some? ==> forall k: nat :: k <= n ==> clock.now(k) <= task.deadline.value
    ensures var (s, r) := Submit(cfg, clock, FreshState(shards, quanta), t, task);
            && r == Enqueued(1)
            && (forall k: nat :: k < n ==> TryDequeue(clock, Repeat(clock, s, k)).1 == Empty)
            && TryDequeue(clock, Repeat(clock, s, n)).1 == Delivered(t, Entry(1, task))
  {
    hide Waits, TryDequeue, Submit, HomeState, StaticOf, Chosen, FreshState, InForce, Repeat;
    FreshInForce(shards, quanta);
    InForceIsWorth(FreshState(shards, quanta).world, t);
    FreshQuanta(shards, quanta);
    FirstSubmitted(cfg, clock, shards, quanta, t, task, q);
    var s := Submit(cfg, clock, FreshState(shards, quanta), t, task).0;
    LoneCalls(cfg, clock, s, t, task.priority, Entry(1, task), q, n);
    LoneServed(cfg, clock, Repeat(clock, s, n), t, task.priority, Entry(1, task), q, n * q, n);
  }

  lemma FreshQuanta(shards: nat, quanta: Quanta)
    ensures FreshState(shards, quanta).world.quanta == quanta
  {
  }
}
