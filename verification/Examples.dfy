/** Concrete runs showing what the scheduler does not promise. */
module Examples {
  import opened Types
  import opened World
  import opened Invariant
  import opened Preservation
  import opened Service
  import opened Draining
  import opened EnqueueProofs
  import opened Limits
  import opened RoundRobin
  import opened Selection
  import opened Refills

  const ROOMY := Config(10, 10, Reject, map[])
  const UNIT_QUANTUM := Quanta(map[], None, 1)
  const FREE_NORMAL := Task(0, 0, None, Normal, 0)
  const COSTLY_HIGH := Task(0, 0, None, High, 1)

  function Still(): Clock {
    Clock(k => 0)
  }

  function TenantWith(quantum: int, p: Priority, e: Entry): TenantState {
    NewTenant(quantum).(queues := Three([], [], []).With(p, [e]), active := Three(false, false, false).With(p, true), attempts := 1)
  }

  lemma JoinIdle(quantum: int, ring: seq<Tenant>, t: Tenant, e: Entry)
    ensures Join(NewTenant(quantum).(attempts := 1), ring, t, e) == (TenantWith(quantum, e.task.priority, e), ring + [t])
  {
    assert [] + [e] == [e];
  }

  lemma AdmitIdle(cfg: Config, clock: Clock, quantum: int, b: Books, samples: nat)
    requires b.stats.queueLen < cfg.maxGlobal && cfg.maxPerTenant >= 1
    ensures AdmitOrReject(cfg, clock, Draft(NewTenant(quantum), b, samples)) ==
            Admission(Draft(NewTenant(quantum).(attempts := 1), Reserve(cfg, b).value, samples), None)
  {
    hide PurgeForEnqueue;
    var d := Draft(NewTenant(quantum), b, samples);
    assert MaybePurge(cfg, clock, d) == (d.(state := d.state.(attempts := 1)), false);
  }

  lemma EnqueueIntoEmpty(cfg: Config, clock: Clock, w: World, t: Tenant, task: Task)
    requires w.shards != [] && t !in w.shards[ShardIndex(|w.shards|, t)].tenants
    requires w.books.stats.queueLen < cfg.maxGlobal && cfg.maxPerTenant >= 1 && PolicyFor(cfg, t) == Reject
    ensures var w' := Enqueue(cfg, clock, w, t, task);
            var e := Entry(w.books.nextId + 1, task);
            var i := ShardIndex(|w.shards|, t);
            && w'.shards == w.shards[i := Shard(w.shards[i].tenants[t := TenantWith(AsI64(QuantumFor(w.quanta, t)), task.priority, e)],
                                                w.shards[i].rings.With(task.priority, w.shards[i].rings.At(task.priority) + [t]))]
            && w'.books.pending == w.books.pending + {e.id} && w'.books.cancelled == w.books.cancelled
            && w'.books.nextId == e.id && w'.books.stats.queueLen == w.books.stats.queueLen + 1
            && w'.quanta == w.quanta && w'.samples == w.samples
  {
    hide AdmitOrReject, Join, TenantWith, QuantumFor, AsI64;
    var i := ShardIndex(|w.shards|, t);
    var quantum := AsI64(QuantumFor(w.quanta, t));
    assert HomeState(w, t) == NewTenant(quantum);
    AdmitIdle(cfg, clock, quantum, w.books, w.samples);
    JoinIdle(quantum, w.shards[i].rings.At(task.priority), t, Entry(w.books.nextId + 1, task));
  }

  /** Strict priority fails: a High task of charge 1 is queued by tenant 1, and the first dequeue hands
      out tenant 2's free Normal task instead. */
  lemma LowerPriorityOvertakes()
    ensures var w := Run(ROOMY, Still(), Fresh(1, UNIT_QUANTUM), [EnqueueMove(2, FREE_NORMAL), EnqueueMove(1, COSTLY_HIGH)]);
            && 2 in w.books.pending
            && w.shards[0].tenants.Keys == {1, 2} && w.shards[0].tenants[1].queues.high == [Entry(2, COSTLY_HIGH)]
            && DequeueShard(Still(), w, 0).served == Some((2, Entry(1, FREE_NORMAL)))
  {
    var w0 := Fresh(1, UNIT_QUANTUM);
    var moves := [EnqueueMove(2, FREE_NORMAL), EnqueueMove(1, COSTLY_HIGH)];
    var w1 := Enqueue(ROOMY, Still(), w0, 2, FREE_NORMAL);
    var w := Enqueue(ROOMY, Still(), w1, 1, COSTLY_HIGH);
    TwoMoves(ROOMY, Still(), w0, moves[0], moves[1]);
    assert w == Run(ROOMY, Still(), w0, moves);
    hide Enqueue, Run;
    EnqueueIntoEmpty(ROOMY, Still(), w0, 2, FREE_NORMAL);
    EnqueueIntoEmpty(ROOMY, Still(), w1, 1, COSTLY_HIGH);
    assert [] + [1] == [1] && [] + [2] == [2];
    FirstDequeue(w);
  }

  lemma TwoMoves(cfg: Config, clock: Clock, w: World, a: Move, b: Move)
    requires w.shards != []
    ensures Run(cfg, clock, w, [a, b]) == Step(cfg, clock, Step(cfg, clock, w, a), b)
  {
    hide Step;
    assert [a, b][1..] == [b] && [b][1..] == [];
    var w1 := Step(cfg, clock, w, a);
    assert Run(cfg, clock, w, [a, b]) == Run(cfg, clock, w1, [b]);
    var w2 := Step(cfg, clock, w1, b);
    assert Run(cfg, clock, w1, [b]) == Run(cfg, clock, w2, []);
  }

  lemma FirstDequeue(w: World)
    requires |w.shards| == 1
    requires w.shards[0].tenants == map[2 := TenantWith(1, Normal, Entry(1, FREE_NORMAL)), 1 := TenantWith(1, High, Entry(2, COSTLY_HIGH))]
    requires w.shards[0].rings == Three([1], [2], [])
    requires w.books.pending == {1, 2} && w.books.cancelled == {}
    ensures DequeueShard(Still(), w, 0).served == Some((2, Entry(1, FREE_NORMAL)))
  {
    var high := VisitRing(Still(), w, 0, High);
    HighIsRefilled(w);
    assert FullPass(Still(), w, 0, High) == high;
    NormalIsServed(high.world);
  }

  lemma HighIsRefilled(w: World)
    requires |w.shards| == 1
    requires w.shards[0].tenants == map[2 := TenantWith(1, Normal, Entry(1, FREE_NORMAL)), 1 := TenantWith(1, High, Entry(2, COSTLY_HIGH))]
    requires w.shards[0].rings == Three([1], [2], [])
    requires w.books.pending == {1, 2} && w.books.cancelled == {}
    ensures var v := VisitRing(Still(), w, 0, High);
            && v.served.None?
            && |v.world.shards| == 1 && 2 in v.world.shards[0].tenants
            && v.world.shards[0].tenants[2] == TenantWith(1, Normal, Entry(1, FREE_NORMAL))
            && v.world.shards[0].rings == Three([1], [2], [])
            && v.world.books.pending == {1, 2} && v.world.books.cancelled == {}
  {
    var ts := TenantWith(1, High, Entry(2, COSTLY_HIGH));
    assert [1][1..] + [1] == [1];
    assert DeadPrefix([Entry(2, COSTLY_HIGH)], {}, 0) == 0;
    assert [Entry(2, COSTLY_HIGH)][0..] == [Entry(2, COSTLY_HIGH)];
    assert Ids([Entry(2, COSTLY_HIGH)][..0]) == {};
    var (ts1, b1) := DropDead(ts, w.books, High, 0);
    assert ts1 == ts;
    assert b1.pending == {1, 2} && b1.cancelled == {};
  }

  lemma NormalIsServed(w: World)
    requires |w.shards| == 1 && 2 in w.shards[0].tenants
    requires w.shards[0].tenants[2] == TenantWith(1, Normal, Entry(1, FREE_NORMAL))
    requires w.shards[0].rings == Three([1], [2], [])
    requires w.books.pending == {1, 2} && w.books.cancelled == {}
    ensures FullPass(Still(), w, 0, Normal).served == Some((2, Entry(1, FREE_NORMAL)))
  {
    var e := Entry(1, FREE_NORMAL);
    var ts := TenantWith(1, Normal, e);
    assert DeadPrefix([e], {}, 0) == 0;
    assert [e][0..] == [e];
    assert Ids([e][..0]) == {};
    var (ts1, b1) := DropDead(ts, w.books, Normal, 0);
    assert ts1 == ts;
    assert b1.pending == {1, 2} && b1.cancelled == {};
    assert VisitRing(Still(), w, 0, Normal).served == Some((2, e));
  }

  // ---------------------------------------------------------------- a tenant twice in its ring

  const TIGHT := Config(10, 1, Reject, map[])
  const BRIEF := Task(0, 0, Some(0), Normal, 0)

  function Later(): Clock {
    Clock(k => 1)
  }

  lemma BriefPurged(b: Books)
    requires 1 in b.pending
    ensures var ts := TenantWith(1, Normal, Entry(1, BRIEF)).(attempts := 2);
            PurgedState(ts, b.cancelled, 1, 32) == NewTenant(1).(attempts := 2)
  {
    var q := [Entry(1, BRIEF)];
    assert DeadPrefix(q[1..], b.cancelled, 1) == 0;
    assert DeadPrefix(q, b.cancelled, 1) == 1 && q[1..] == [];
    assert PurgedQueue(q, b.cancelled, 1, 32) == [];
    assert PurgedQueue([], b.cancelled, 1, 32) == [];
  }

  /** An expired task whose purge clears the flag leaves the tenant's ring entry behind; the next enqueue
      adds a second one. */
  lemma TenantListedTwice()
    ensures Run(TIGHT, Later(), Fresh(1, UNIT_QUANTUM), [EnqueueMove(7, BRIEF), EnqueueMove(7, BRIEF)]).shards[0].rings.normal == [7, 7]
  {
    var w0 := Fresh(1, UNIT_QUANTUM);
    var w1 := Enqueue(TIGHT, Later(), w0, 7, BRIEF);
    FirstBrief();
    SecondBrief(w1);
    TwoMoves(TIGHT, Later(), w0, EnqueueMove(7, BRIEF), EnqueueMove(7, BRIEF));
  }

  lemma FirstBrief()
    ensures var w := Enqueue(TIGHT, Later(), Fresh(1, UNIT_QUANTUM), 7, BRIEF);
            && |w.shards| == 1 && w.shards[0].tenants == map[7 := TenantWith(1, Normal, Entry(1, BRIEF))]
            && w.shards[0].rings == Three([], [7], [])
            && w.books.pending == {1} && w.books.cancelled == {} && w.books.stats.queueLen == 1
  {
    hide Enqueue;
    EnqueueIntoEmpty(TIGHT, Later(), Fresh(1, UNIT_QUANTUM), 7, BRIEF);
    assert [] + [7] == [7] && {} + {1} == {1};
  }

  lemma SecondBrief(w: World)
    requires |w.shards| == 1 && w.shards[0].tenants == map[7 := TenantWith(1, Normal, Entry(1, BRIEF))]
    requires w.shards[0].rings == Three([], [7], [])
    requires w.books.pending == {1} && w.books.cancelled == {} && w.books.stats.queueLen == 1
    ensures Enqueue(TIGHT, Later(), w, 7, BRIEF).shards[0].rings.normal == [7, 7]
  {
    hide PurgedState, Reap, RemovedIds;
    assert ShardIndex(1, 7) == 0;
    var d := Draft(TenantWith(1, Normal, Entry(1, BRIEF)), w.books, w.samples);
    assert HomeState(w, 7) == d.state;
    BriefPurged(w.books);
    var d1 := d.(state := d.state.(attempts := 2));
    assert PurgeReasonFor(TIGHT, d1.state.TotalLen(), 2) == Some(Full);
    var (d2, released) := PurgeForEnqueue(Later(), d1, Full);
    assert d2.state == NewTenant(1);
    assert MaybePurge(TIGHT, Later(), d) == (d2, true);
    SlotsFall(w.books, RemovedIds(d1.state.queues, NewTenant(1).queues));
    var a := AdmissionOf(TIGHT, Later(), w, 7, BRIEF);
    assert a.refusal == None && a.draft.state == NewTenant(1);
    assert [7] + [7] == [7, 7];
  }

  lemma SlotsFall(b: Books, removed: set<Id>)
    ensures Reap(b, removed).stats.queueLen <= b.stats.queueLen
  {
  }

  // ---------------------------------------------------------------- a quantum that fits and still starves

  const ODDLY_LARGE: nat := I64_MAX - 1
  const BOUNDLESS := Task(0, 0, None, High, U64_MAX)

  function Stuck(): State {
    PerformAll(ROOMY, Still(), FreshState(1, Quanta(map[], None, ODDLY_LARGE)), [SubmitOp(0, BOUNDLESS)])
  }

  /** A quantum within `i64` is not enough: with quantum i64::MAX - 1 the refills of a task that charges
      i64::MAX wrap around at every second visit and never reach it, so draining does not end. */
  lemma FittingQuantumStarves()
    ensures forall n: nat :: Stuck().Shaped() && Entries(Repeat(Still(), Stuck(), n).world) > 0
  {
    hide StateInv, Fits, AllTimeless, Repeat, Entries;
    StuckState();
    FreshStateOk(ROOMY, 1, Quanta(map[], None, ODDLY_LARGE));
    PerformAllKeeps(ROOMY, Still(), FreshState(1, Quanta(map[], None, ODDLY_LARGE)), [SubmitOp(0, BOUNDLESS)]);
    assert StateInv(ROOMY, Stuck());
    StuckDoesNotFit();
    DrainsExactly(ROOMY, Still(), Stuck());
  }

  lemma StuckState()
    ensures var s := Stuck();
            && s.shutdown == Open && |s.world.shards| == 1
            && s.world.shards[0].tenants == map[0 := TenantWith(ODDLY_LARGE, High, Entry(1, BOUNDLESS))]
            && s.world.books.cancelled == {} && s.world.quanta == Quanta(map[], None, ODDLY_LARGE)
  {
    hide Enqueue;
    var s0 := FreshState(1, Quanta(map[], None, ODDLY_LARGE));
    EnqueueIntoEmpty(ROOMY, Still(), s0.world, 0, BOUNDLESS);
    assert [SubmitOp(0, BOUNDLESS)][1..] == [];
    assert Stuck() == PerformAll(ROOMY, Still(), Submit(ROOMY, Still(), s0, 0, BOUNDLESS).0, []);
  }

  lemma StuckDoesNotFit()
    ensures Stuck().world.shards != [] && AllTimeless(Stuck().world) && !Fits(ByRounds, Stuck().world)
  {
    hide Stuck;
    StuckState();
    var w := Stuck().world;
    var ts := TenantWith(ODDLY_LARGE, High, Entry(1, BOUNDLESS));
    assert ShardIndex(1, 0) == 0;
    assert HomeState(w, 0) == ts;
    assert LowBit(ODDLY_LARGE) == 2;
    assert Peak(0, ODDLY_LARGE) == I64_MAX - 1;
    assert !TenantFits(ByRounds, HomeState(w, 0), High, w.books.cancelled);
    forall t, p: Priority ensures Timeless(HomeState(w, t).queues.At(p)) {
      assert ShardIndex(1, t) == 0;
    }
  }

  // ---------------------------------------------------------------- priorities across shards

  const FREE_LOW := Task(0, 0, None, Low, 0)
  const FREE_HIGH := Task(0, 0, None, High, 0)

  function TwoShards(): State {
    PerformAll(ROOMY, Still(), FreshState(2, UNIT_QUANTUM), [SubmitOp(0, FREE_LOW), SubmitOp(1, FREE_HIGH)])
  }

  /** Priorities are not compared across shards: with a Low task in the shard listed first and a High task
      in the other, both affordable, the Low one is handed out. */
  lemma LowOvertakesAcrossShards()
    ensures var s := TwoShards();
            && s.Shaped() && 2 in s.world.books.pending
            && IsPlace(s.world, Place(1, High, 0)) && QuoteAt(Still(), s.world, Place(1, High, 0), s.world.samples).pays
            && TryDequeue(Still(), s).1 == Delivered(0, Entry(1, FREE_LOW))
  {
    hide Inv, ListOk, TryDequeue, QuoteAt, IsPlace, TwoShards, TenantWith;
    TwoShardsState();
    TwoShardsOk();
    LowFirst(TwoShards());
  }

  lemma TwoShardsOk()
    ensures StateInv(ROOMY, TwoShards())
  {
    hide Inv, ListOk, PerformAll;
    FreshStateOk(ROOMY, 2, UNIT_QUANTUM);
    PerformAllKeeps(ROOMY, Still(), FreshState(2, UNIT_QUANTUM), [SubmitOp(0, FREE_LOW), SubmitOp(1, FREE_HIGH)]);
  }

  lemma LowFirst(s: State)
    requires StateInv(ROOMY, s) && s.shutdown == Open && s.activeShards == [0, 1] && |s.world.shards| == 2
    requires s.world.shards[0] == Shard(map[0 := TenantWith(1, Low, Entry(1, FREE_LOW))], Three([], [], [0]))
    requires s.world.shards[1] == Shard(map[1 := TenantWith(1, High, Entry(2, FREE_HIGH))], Three([1], [], []))
    requires s.world.books.cancelled == {}
    ensures IsPlace(s.world, Place(1, High, 0)) && QuoteAt(Still(), s.world, Place(1, High, 0), s.world.samples).pays
    ensures TryDequeue(Still(), s).1 == Delivered(0, Entry(1, FREE_LOW))
  {
    hide Inv, ListOk, TryDequeue, ListPlaces, QuoteAt, TenantWith;
    FirstPayingIsDelivered(ROOMY, Still(), s);
    FirstPlace(s);
    var quotes := Quotes(Still(), s.world, ListPlaces(s.world, s.activeShards), s.world.samples);
    FreeHeadPays(s.world, 0, 0, 1, FREE_LOW);
    FreeHeadPays(s.world, 1, 1, 2, FREE_HIGH);
    WinnerIsFirst(quotes, 0);
  }

  lemma TwoShardsState()
    ensures var s := TwoShards();
            && s.shutdown == Open && s.activeShards == [0, 1] && |s.world.shards| == 2
            && s.world.shards[0] == Shard(map[0 := TenantWith(1, Low, Entry(1, FREE_LOW))], Three([], [], [0]))
            && s.world.shards[1] == Shard(map[1 := TenantWith(1, High, Entry(2, FREE_HIGH))], Three([1], [], []))
            && s.world.books.pending == {1, 2} && s.world.books.cancelled == {}
  {
    hide Enqueue, TenantWith, AdmissionOf;
    var ops := [SubmitOp(0, FREE_LOW), SubmitOp(1, FREE_HIGH)];
    var s0 := FreshState(2, UNIT_QUANTUM);
    EnqueueIntoEmpty(ROOMY, Still(), s0.world, 0, FREE_LOW);
    var s1 := Submit(ROOMY, Still(), s0, 0, FREE_LOW).0;
    AdmittedIntoEmpty(ROOMY, Still(), s0.world, 0, FREE_LOW);
    assert s1.activeShards == [0];
    EnqueueIntoEmpty(ROOMY, Still(), s1.world, 1, FREE_HIGH);
    var s2 := Submit(ROOMY, Still(), s1, 1, FREE_HIGH).0;
    AdmittedIntoEmpty(ROOMY, Still(), s1.world, 1, FREE_HIGH);
    assert s2.activeShards == [0, 1];
    assert [] + [0] == [0] && [] + [1] == [1];
    assert s1.world.shards[1] == EMPTY_SHARD;
    assert EMPTY_SHARD.tenants[1 := TenantWith(1, High, Entry(2, FREE_HIGH))] == map[1 := TenantWith(1, High, Entry(2, FREE_HIGH))];
    assert ops[1..] == [ops[1]] && ops[1..][1..] == [];
    assert TwoShards() == PerformAll(ROOMY, Still(), s1, ops[1..]);
    assert PerformAll(ROOMY, Still(), s1, ops[1..]) == PerformAll(ROOMY, Still(), s2, []);
  }

  lemma AdmittedIntoEmpty(cfg: Config, clock: Clock, w: World, t: Tenant, task: Task)
    requires w.shards != [] && t !in w.shards[ShardIndex(|w.shards|, t)].tenants
    requires w.books.stats.queueLen < cfg.maxGlobal && cfg.maxPerTenant >= 1 && PolicyFor(cfg, t) == Reject
    ensures AdmissionOf(cfg, clock, w, t, task).refusal == None
  {
    hide AdmitOrReject, QuantumFor, AsI64;
    AdmitIdle(cfg, clock, AsI64(QuantumFor(w.quanta, t)), w.books, w.samples);
  }

  lemma FirstPlace(s: State)
    requires s.Shaped() && s.activeShards == [0, 1] && |s.world.shards| == 2 && s.world.shards[0].rings == Three([], [], [0])
    ensures |ListPlaces(s.world, s.activeShards)| > 0 && ListPlaces(s.world, s.activeShards)[0] == Place(0, Low, 0)
  {
    assert ShardPlaces(s.world, 0)[0] == Place(0, Low, 0);
  }

  lemma FreeHeadPays(w: World, i: nat, t: Tenant, id: Id, task: Task)
    requires i < |w.shards| == 2 && ShardIndex(2, t) == i && task.cost == 0 && task.deadline == None
    requires w.shards[i].tenants == map[t := TenantWith(1, task.priority, Entry(id, task))] && w.books.cancelled == {}
    requires w.shards[i].rings.At(task.priority) == [t]
    ensures forall at: nat :: QuoteAt(Still(), w, Place(i, task.priority, 0), at) == Quote(t, task.priority, Some(Entry(id, task)), true)
  {
    hide TenantWith;
    var e := Entry(id, task);
    assert HomeState(w, t) == TenantWith(1, task.priority, e);
    FreshLane(task.priority, e);
    forall at: nat ensures QuoteAt(Still(), w, Place(i, task.priority, 0), at) == Quote(t, task.priority, Some(e), true) {
      LoneQuote(w, i, t, e, at);
    }
  }

  lemma LoneQuote(w: World, i: nat, t: Tenant, e: Entry, at: nat)
    requires i < |w.shards| && w.shards[i].rings.At(e.task.priority) == [t] && w.books.cancelled == {}
    requires e.task.cost == 0 && e.task.deadline == None
    requires var ts := HomeState(w, t);
             ts.queues.At(e.task.priority) == [e] && ts.deficits.At(e.task.priority) == 0 && ts.quantum == 1
    ensures QuoteAt(Still(), w, Place(i, e.task.priority, 0), at) == Quote(t, e.task.priority, Some(e), true)
  {
    hide HomeState, LiveHead, After;
    OneLive(e, Still().now(at));
    assert [t][..0] == [];
    AfterNone(0, 1);
  }

  lemma FreshLane(p: Priority, e: Entry)
    ensures var ts := TenantWith(1, p, e);
            ts.queues.At(p) == [e] && ts.deficits.At(p) == 0 && ts.quantum == 1
  {
  }

  lemma OneLive(e: Entry, now: Time)
    requires e.task.deadline == None
    ensures LiveHead([e], {}, now) == Some(e)
  {
    assert DeadPrefix([e], {}, now) == 0;
  }

  // ---------------------------------------------------------------- a dead entry out of the purge's reach

  const DEEP := Config(100, 33, Reject, map[])
  const PLAIN := Task(0, 0, None, Normal, 1)

  function Fill(n: nat): seq<Move> {
    seq(n, _ => EnqueueMove(0, PLAIN))
  }

  function Backlog(n: nat): seq<Entry> {
    seq(n, i requires 0 <= i < n => Entry(i + 1, PLAIN))
  }

  function Filled(clock: Clock, n: nat): World {
    Run(DEEP, clock, Fresh(1, UNIT_QUANTUM), Fill(n))
  }

  /** Above 32 the limit can bind early: with `maxPerTenant` 33, a tenant that has enqueued 33 tasks and
      cancelled the last holds 32 live ones and is refused as full. */
  lemma DeepDeadEntryStillCounts(clock: Clock)
    ensures var w := Run(DEEP, clock, Fresh(1, UNIT_QUANTUM), Fill(33) + [CancelMove(33)]);
            && LiveCount(HomeState(w, 0), w.books.cancelled, clock.now(w.samples)) == 32
            && AdmissionOf(DEEP, clock, w, 0, PLAIN).refusal == Some(TenantFull)
  {
    hide Inv, AdmissionOf, Live, Run, Step, HomeState;
    var w33 := Filled(clock, 33);
    FilledWorld(clock, 33);
    RunConcat(DEEP, clock, Fresh(1, UNIT_QUANTUM), Fill(33), [CancelMove(33)]);
    var w := Run(DEEP, clock, Fresh(1, UNIT_QUANTUM), Fill(33) + [CancelMove(33)]);
    OneMove(DEEP, clock, w33, CancelMove(33));
    StepKeeps(DEEP, clock, w33, CancelMove(33));
    CancelLast(clock, w33);
    DeepIsFull(clock, w);
  }

  lemma OneMove(cfg: Config, clock: Clock, w: World, m: Move)
    requires w.shards != []
    ensures Run(cfg, clock, w, [m]) == Step(cfg, clock, w, m)
  {
    hide Step;
    assert [m][1..] == [];
  }

  lemma CancelLast(clock: Clock, w: World)
    requires Inv(DEEP, w) && HomeState(w, 0).queues == Three([], Backlog(33), []) && w.books.cancelled == {}
    ensures var w' := Step(DEEP, clock, w, CancelMove(33));
            HomeState(w', 0) == HomeState(w, 0) && w'.books.cancelled == {33}
  {
    hide TenantInvAt, Homed, RingsKnown, CountersOk, QuantumFor, AsI64;
    InvAtLane(DEEP, w, 0, Normal);
    assert Backlog(33)[32] == Entry(33, PLAIN);
    assert EntryOk(Backlog(33)[32], 0, Normal, w.books);
  }

  lemma DeepIsFull(clock: Clock, w: World)
    requires Inv(DEEP, w) && HomeState(w, 0).queues == Three([], Backlog(33), []) && w.books.cancelled == {33}
    ensures LiveCount(HomeState(w, 0), w.books.cancelled, clock.now(w.samples)) == 32
    ensures AdmissionOf(DEEP, clock, w, 0, PLAIN).refusal == Some(TenantFull)
  {
    hide BooksOk, TenantInvAt, Homed, RingsKnown, AdmissionOf, Live, HomeState;
    var q, c, now := Backlog(33), w.books.cancelled, clock.now(w.samples);
    assert TenantClean(HomeState(w, 0), c, now, SCAN_BUDGET_FULL);
    TenantFullExactly(DEEP, clock, w, 0, PLAIN);
    LiveOfAppended(q[..32], q[32], c, now);
    assert q[..32] + [q[32]] == q;
    AllLiveStay(q[..32], c, now);
    AllLiveStay([], c, now);
  }

  lemma {:induction false} FilledWorld(clock: Clock, n: nat)
    requires n <= 33
    ensures var w := Filled(clock, n);
            && Inv(DEEP, w) && Tidy(w) && w.books.nextId == n && |w.shards| == 1
            && HomeState(w, 0).queues == Three([], Backlog(n), [])
  {
    hide Inv, Tidy, Run, Step, HomeState;
    if n == 0 {
      FreshInv(DEEP, 1, UNIT_QUANTUM);
      FreshIsTidy(1, UNIT_QUANTUM);
      NothingFilled(clock);
    } else {
      var w := Filled(clock, n - 1);
      FilledWorld(clock, n - 1);
      assert Fill(n) == Fill(n - 1) + [EnqueueMove(0, PLAIN)];
      RunConcat(DEEP, clock, Fresh(1, UNIT_QUANTUM), Fill(n - 1), [EnqueueMove(0, PLAIN)]);
      OneMove(DEEP, clock, w, EnqueueMove(0, PLAIN));
      StepKeeps(DEEP, clock, w, EnqueueMove(0, PLAIN));
      StepKeepsTidy(DEEP, clock, w, EnqueueMove(0, PLAIN));
      FillOne(clock, w, n - 1);
    }
  }

  lemma NothingFilled(clock: Clock)
    ensures var w := Filled(clock, 0);
            && w == Fresh(1, UNIT_QUANTUM) && |w.shards| == 1 && w.books.nextId == 0
            && HomeState(w, 0).queues == Three([], Backlog(0), [])
  {
    hide QuantumFor, AsI64;
    assert Fill(0) == [] && Backlog(0) == [];
  }

  lemma FillOne(clock: Clock, w: World, n: nat)
    requires n < 33 && Inv(DEEP, w) && Tidy(w) && w.books.nextId == n && |w.shards| == 1
    requires HomeState(w, 0).queues == Three([], Backlog(n), [])
    ensures var w' := Step(DEEP, clock, w, EnqueueMove(0, PLAIN));
            && w'.books.nextId == n + 1 && |w'.shards| == 1
            && HomeState(w', 0).queues == Three([], Backlog(n + 1), [])
  {
    hide BooksOk, TenantInvAt, Homed, RingsKnown, Tidy, HomeState, AdmitOrReject, QuantumFor, AsI64, OnlyShrinks, DraftOk;
    var d := Draft(HomeState(w, 0), w.books, w.samples);
    var a := AdmissionOf(DEEP, clock, w, 0, PLAIN);
    HomeDraftOk(DEEP, w, 0);
    AdmitKeeps(DEEP, clock, d, 0, PLAIN);
    TidyIsCalm(w, 0);
    TidyUnmarked(w);
    AdmitLeaves(DEEP, clock, d);
    QueueWithinIds(w);
    TenantFullExactly(DEEP, clock, w, 0, PLAIN);
    OnlyIfGlobalFull(DEEP, clock, d);
    assert a.refusal == None;
    var w' := Step(DEEP, clock, w, EnqueueMove(0, PLAIN));
    assert a.draft.books.nextId == n by { SameNextId(d, a.draft, 0); }
    assert Backlog(n + 1) == Backlog(n) + [Entry(n + 1, PLAIN)];
    assert ShardIndex(1, 0) == 0;
    HomeOf(w', 0);
  }

  lemma TidyUnmarked(w: World)
    requires w.shards != [] && Tidy(w)
    ensures w.books.cancelled == {}
  {
  }

  lemma SameNextId(d: Draft, d': Draft, t: Tenant)
    requires OnlyShrinks(d, d', t)
    ensures d'.books.nextId == d.books.nextId
  {
  }

  lemma QueueWithinIds(w: World)
    requires Inv(DEEP, w)
    ensures w.books.stats.queueLen <= w.books.nextId
  {
    hide TenantInvAt, Homed, RingsKnown;
    FatesOf(w.books);
    CardMinus(w.books.history.accepted.Keys, w.books.pending);
  }

  lemma OnlyIfGlobalFull(cfg: Config, clock: Clock, d: Draft)
    requires d.books.stats.queueLen < cfg.maxGlobal
    ensures AdmitOrReject(cfg, clock, d).refusal in {None, Some(TenantFull)}
  {
    hide PurgedState, RemovedIds, Reap, PurgeReasonFor;
    var d0 := d.(state := d.state.(attempts := d.state.attempts + 1));
    PurgeFreesSlots(clock, d0, NearLimit);
    PurgeFreesSlots(clock, d0, Periodic);
    PurgeFreesSlots(clock, d0, Full);
    PurgeFreesSlots(clock, MaybePurge(cfg, clock, d).0, Full);
  }

  lemma PurgeFreesSlots(clock: Clock, d: Draft, reason: PurgeReason)
    ensures PurgeForEnqueue(clock, d, reason).0.books.stats.queueLen <= d.books.stats.queueLen
  {
    hide PurgedState, RemovedIds;
  }

  lemma {:induction false} LiveOfAppended(q: seq<Entry>, e: Entry, cancelled: set<Id>, now: Time)
    ensures Live(q + [e], cancelled, now) == Live(q, cancelled, now) + if Dead(e, cancelled, now) then [] else [e]
  {
    if q != [] {
      assert (q + [e])[1..] == q[1..] + [e];
      LiveOfAppended(q[1..], e, cancelled, now);
    } else {
      assert ([] + [e])[1..] == [];
    }
  }
}
