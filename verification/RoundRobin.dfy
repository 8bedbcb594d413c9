/** Without deadlines, cancels and evictions a ring is a plain rotation: no duplicates, no idle visits. */
module RoundRobin {
  import opened Types
  import opened World
  import opened Invariant
  import opened EnqueueProofs
  import opened Preservation
  import opened Delivery
  import opened Throughput
  import opened BoundedWait

  ghost predicate Deathless(q: seq<Entry>) {
    forall e :: e in q ==> e.task.deadline.None?
  }

  /** A lane is in its ring exactly while it has work, and none of that work can die in the queue. */
  ghost predicate TidyLane(ts: TenantState, t: Tenant, p: Priority, ring: seq<Tenant>) {
    && (ts.queues.At(p) != [] <==> ts.active.At(p))
    && (ts.active.At(p) <==> t in ring)
    && Deathless(ts.queues.At(p))
  }

  ghost predicate NoDuplicates(ring: seq<Tenant>) {
    forall i, j :: 0 <= i < j < |ring| ==> ring[i] != ring[j]
  }

  ghost predicate Tidy(w: World)
    requires w.shards != []
  {
    && w.books.cancelled == {}
    && (forall t, p: Priority :: TidyLane(HomeState(w, t), t, p, RingOf(w, t, p)))
    && (forall i, p: Priority :: 0 <= i < |w.shards| ==> NoDuplicates(w.shards[i].rings.At(p)))
  }

  /** Moves of a Reject/Timeout run without deadlines or cancels. */
  predicate Calm(cfg: Config, m: Move) {
    match m
    case EnqueueMove(t, task) => task.deadline.None? && (PolicyFor(cfg, t).Reject? || PolicyFor(cfg, t).Timeout?)
    case CancelMove(_) => false
    case _ => true
  }

  lemma FreshIsTidy(shards: nat, quanta: Quanta)
    ensures Tidy(Fresh(shards, quanta))
  {
    hide QuantumFor, AsI64;
  }

  // ---------------------------------------------------------------- enqueue

  lemma {:induction false} NothingDead(q: seq<Entry>, now: Time)
    requires Deathless(q)
    ensures DeadPrefix(q, {}, now) == 0 && Live(q, {}, now) == q
  {
    if q != [] {
      assert q == [q[0]] + q[1..];
      NothingDead(q[1..], now);
    }
  }

  lemma PurgeFindsNothing(q: seq<Entry>, now: Time, budget: nat)
    requires Deathless(q)
    ensures PurgedQueue(q, {}, now, budget) == q
  {
    NothingDead(q, now);
    assert q[0..] == q;
    var b := Min(budget, |q|);
    NothingDead(q[..b], now);
    assert q[..b] + q[b..] == q;
  }

  /** A draft whose tenant only had its purge clock touched. */
  ghost predicate Untouched(d: Draft, d': Draft) {
    && d'.state == d.state.(attempts := d'.state.attempts)
    && d'.books.cancelled == {}
  }

  ghost predicate CalmState(ts: TenantState) {
    forall p: Priority :: Deathless(ts.queues.At(p)) && (ts.active.At(p) ==> ts.queues.At(p) != [])
  }

  lemma PurgeLeaves(clock: Clock, d: Draft, reason: PurgeReason)
    requires CalmState(d.state) && d.books.cancelled == {}
    ensures Untouched(d, PurgeForEnqueue(clock, d, reason).0)
  {
    hide PurgedQueue, RemovedIds, Deathless;
    var now, budget, q := clock.now(d.samples), ScanBudget(reason), d.state.queues;
    assert Deathless(q.At(High)) && Deathless(q.At(Normal)) && Deathless(q.At(Low));
    PurgeFindsNothing(q.high, now, budget);
    PurgeFindsNothing(q.normal, now, budget);
    PurgeFindsNothing(q.low, now, budget);
    var a := d.state.active;
    assert a.At(High) ==> q.At(High) != [];
    assert a.At(Normal) ==> q.At(Normal) != [];
    assert a.At(Low) ==> q.At(Low) != [];
  }

  lemma ReserveLeaves(cfg: Config, clock: Clock, d: Draft, ranFull: bool)
    requires CalmState(d.state) && d.books.cancelled == {}
    ensures Untouched(d, ReserveOrPurge(cfg, clock, d, ranFull).draft)
  {
    hide PurgeForEnqueue;
    PurgeLeaves(clock, d, Full);
  }

  lemma AdmitLeaves(cfg: Config, clock: Clock, d: Draft)
    requires CalmState(d.state) && d.books.cancelled == {}
    ensures Untouched(d, AdmitOrReject(cfg, clock, d).draft)
  {
    hide PurgeForEnqueue, ReserveOrPurge, PurgeReasonFor;
    var d0 := d.(state := d.state.(attempts := d.state.attempts + 1));
    assert CalmState(d0.state) by { SameCalm(d.state, d0.state); }
    var reason := PurgeReasonFor(cfg, d0.state.TotalLen(), d0.state.attempts);
    if reason.Some? {
      PurgeLeaves(clock, d0, reason.value);
    }
    var (d1, ranFull) := MaybePurge(cfg, clock, d);
    assert CalmState(d1.state) by { SameCalm(d.state, d1.state); }
    PurgeLeaves(clock, d1, Full);
    var d2 := PurgeForEnqueue(clock, d1, Full).0;
    assert CalmState(d2.state) by { SameCalm(d.state, d2.state); }
    var full := d1.state.TotalLen() >= cfg.maxPerTenant;
    ReserveLeaves(cfg, clock, d1, ranFull || full);
    ReserveLeaves(cfg, clock, d2, ranFull || full);
  }

  lemma SameCalm(ts: TenantState, ts': TenantState)
    requires CalmState(ts) && ts' == ts.(attempts := ts'.attempts)
    ensures CalmState(ts')
  {
    hide Deathless;
    forall p: Priority ensures Deathless(ts'.queues.At(p)) && (ts'.active.At(p) ==> ts'.queues.At(p) != []) {
      assert Deathless(ts.queues.At(p));
    }
  }

  lemma JoinKeepsTidy(ts: TenantState, t: Tenant, task: Task, id: Id, rings: Three<seq<Tenant>>, p: Priority)
    requires TidyLane(ts, t, p, rings.At(p)) && task.deadline.None?
    ensures var (ts', ring) := Join(ts, rings.At(task.priority), t, Entry(id, task));
            TidyLane(ts', t, p, rings.With(task.priority, ring).At(p))
  {
  }

  lemma EnqueueKeepsTidy(cfg: Config, clock: Clock, w: World, t: Tenant, task: Task)
    requires Inv(cfg, w) && Tidy(w) && Calm(cfg, EnqueueMove(t, task))
    ensures Tidy(Enqueue(cfg, clock, w, t, task))
  {
    hide BooksOk, TenantInvAt, Homed, RingsKnown, AdmitOrReject, AdmitOrEvict, Join, RecordReject, AsI64, QuantumFor, TidyLane, CalmState, HomeState, NoDuplicates;
    var ts := HomeState(w, t);
    var d := Draft(ts, w.books, w.samples);
    var i := ShardIndex(|w.shards|, t);
    var rings := w.shards[i].rings;
    assert CalmState(ts) by { TidyIsCalm(w, t); }
    AdmitLeaves(cfg, clock, d);
    var a := AdmissionOf(cfg, clock, w, t, task);
    var w' := Enqueue(cfg, clock, w, t, task);
    var e := Entry(a.draft.books.nextId + 1, task);
    var ring := Join(a.draft.state, rings.At(task.priority), t, e).1;
    HomeOf(w', t);
    if a.refusal.Some? {
      RejectIsStatsOnly(a.draft.books, a.refusal.value);
    }
    assert TidyLane(ts, t, task.priority, rings.At(task.priority)) by { assert TidyLane(ts, t, task.priority, RingOf(w, t, task.priority)); }
    assert NoDuplicates(rings.At(task.priority));
    JoinedRingTidy(a.draft.state, ts, rings.At(task.priority), t, e);
    forall x, p: Priority ensures TidyLane(HomeState(w', x), x, p, RingOf(w', x, p)) {
      assert TidyLane(HomeState(w, x), x, p, RingOf(w, x, p));
      if x == t {
        SameTidy(ts, a.draft.state, t, p, rings.At(p));
        JoinKeepsTidy(a.draft.state, t, task, e.id, rings, p);
      } else {
        assert HomeState(w', x) == HomeState(w, x) by { ElsewhereHome(cfg, clock, w, t, task, x); }
        TidyRing(HomeState(w, x), x, p, RingOf(w, x, p), RingOf(w', x, p), t);
      }
    }
    forall j, p: Priority | 0 <= j < |w'.shards| ensures NoDuplicates(w'.shards[j].rings.At(p)) {
      assert NoDuplicates(w.shards[j].rings.At(p));
    }
  }

  lemma ElsewhereHome(cfg: Config, clock: Clock, w: World, t: Tenant, task: Task, x: Tenant)
    requires w.shards != [] && x != t
    ensures HomeState(Enqueue(cfg, clock, w, t, task), x) == HomeState(w, x)
  {
    hide Admit, Join, RecordReject, AsI64, QuantumFor, Accept;
  }

  lemma TidyIsCalm(w: World, t: Tenant)
    requires w.shards != [] && Tidy(w)
    ensures CalmState(HomeState(w, t))
  {
    hide HomeState, Deathless;
    var ts := HomeState(w, t);
    forall p: Priority ensures Deathless(ts.queues.At(p)) && (ts.active.At(p) ==> ts.queues.At(p) != []) {
      assert TidyLane(ts, t, p, RingOf(w, t, p));
    }
  }

  lemma SameTidy(ts: TenantState, ts': TenantState, t: Tenant, p: Priority, ring: seq<Tenant>)
    requires TidyLane(ts, t, p, ring) && ts' == ts.(attempts := ts'.attempts)
    ensures TidyLane(ts', t, p, ring)
  {
  }

  lemma TidyRing(ts: TenantState, x: Tenant, p: Priority, ring: seq<Tenant>, ring': seq<Tenant>, t: Tenant)
    requires TidyLane(ts, x, p, ring) && x != t && (ring' == ring || ring' == ring + [t])
    ensures TidyLane(ts, x, p, ring')
  {
  }

  lemma JoinedRingTidy(ts': TenantState, ts: TenantState, ring: seq<Tenant>, t: Tenant, e: Entry)
    requires TidyLane(ts, t, e.task.priority, ring) && NoDuplicates(ring) && ts' == ts.(attempts := ts'.attempts)
    ensures var ring' := Join(ts', ring, t, e).1;
            NoDuplicates(ring') && (ring' == ring || ring' == ring + [t])
  {
  }

  // ---------------------------------------------------------------- visits

  /** A tidy lane's turn refills it or serves its head, and it goes back to the ring while it has work. */
  lemma TidyTurn(cfg: Config, clock: Clock, ts: TenantState, b: Books, samples: nat, t: Tenant, p: Priority, ring: seq<Tenant>)
    requires TurnPre(cfg, ts, b, t, p) && b.cancelled == {}
    requires TidyLane(ts, t, p, [t] + ring) && t !in ring
    ensures var turn := TakeTurn(clock, ts, b, samples, t, p);
            && turn.books.cancelled == {}
            && TidyLane(turn.state, t, p, if turn.requeue then ring + [t] else ring)
            && (forall p2: Priority :: p2 != p ==> turn.state.queues.At(p2) == ts.queues.At(p2) && turn.state.active.At(p2) == ts.active.At(p2))
  {
    hide BooksOk, LaneOk, DeficitOk, ChargeFor, QueueTime, Dispatch;
    var q := ts.queues.At(p);
    assert t in [t] + ring;
    NothingDead(q, clock.now(samples));
    assert q[0..] == q;
    assert LaneOk(q, t, p, b);
    HeadIsPending(cfg, q, t, p, b);
    DispatchKeepsCancelled(b, q[0].id, QueueTime(clock.now(samples + 1), q[0].task.enqueueTs));
    var b1 := Reap(b, Ids(q[..0]));
    assert Ids(q[..0]) == {};
    assert b1.pending == b.pending;
    DispatchKeepsCancelled(b1, q[0].id, QueueTime(clock.now(samples + 1), q[0].task.enqueueTs));
  }

  lemma DispatchKeepsCancelled(b: Books, id: Id, queueTime: nat)
    ensures Dispatch(b, id, queueTime).cancelled == b.cancelled
  {
  }

  lemma VisitKeepsTidy(cfg: Config, clock: Clock, w: World, i: nat, p: Priority)
    requires Inv(cfg, w) && Tidy(w) && CanVisit(w, i, p)
    ensures Tidy(VisitRing(clock, w, i, p).world)
  {
    hide BooksOk, TenantInvAt, TakeTurn, TidyLane, HomeState, TurnPre, Homed, RingsKnown;
    var ring := w.shards[i].rings.At(p);
    var t := ring[0];
    var w' := VisitRing(clock, w, i, p).world;
    RingHead(cfg, w, i, p);
    HomeTurnPre(cfg, w, t, p);
    HomeOf(w', t);
    var ts := w.shards[i].tenants[t];
    assert NoDuplicates(ring);
    assert ring == [t] + ring[1..] && t !in ring[1..];
    assert TidyLane(HomeState(w, t), t, p, RingOf(w, t, p));
    TidyTurn(cfg, clock, ts, w.books, w.samples, t, p, ring[1..]);
    forall x, p2: Priority ensures TidyLane(HomeState(w', x), x, p2, RingOf(w', x, p2)) {
      assert TidyLane(HomeState(w, x), x, p2, RingOf(w, x, p2));
      if x == t {
        if p2 != p {
          OtherLaneTidy(ts, HomeState(w', t), t, p2, RingOf(w, t, p2));
        }
      } else {
        assert HomeState(w', x) == HomeState(w, x) by { VisitElsewhereHome(clock, w, i, p, x); }
        TidyPopped(HomeState(w, x), x, p2, RingOf(w, x, p2), RingOf(w', x, p2));
      }
    }
    forall j, p2: Priority | 0 <= j < |w'.shards| ensures NoDuplicates(w'.shards[j].rings.At(p2)) {
      assert NoDuplicates(w.shards[j].rings.At(p2));
    }
  }

  lemma VisitElsewhereHome(clock: Clock, w: World, i: nat, p: Priority, x: Tenant)
    requires w.shards != [] && CanVisit(w, i, p) && x != w.shards[i].rings.At(p)[0]
    ensures HomeState(VisitRing(clock, w, i, p).world, x) == HomeState(w, x)
  {
    hide TakeTurn, AsI64, QuantumFor;
  }

  lemma OtherLaneTidy(ts: TenantState, ts': TenantState, t: Tenant, p: Priority, ring: seq<Tenant>)
    requires TidyLane(ts, t, p, ring)
    requires ts'.queues.At(p) == ts.queues.At(p) && ts'.active.At(p) == ts.active.At(p)
    ensures TidyLane(ts', t, p, ring)
  {
  }

  lemma TidyPopped(ts: TenantState, x: Tenant, p: Priority, ring: seq<Tenant>, ring': seq<Tenant>)
    requires TidyLane(ts, x, p, ring) && (x in ring' <==> x in ring)
    ensures TidyLane(ts, x, p, ring')
  {
  }

  lemma QuantaKeepTidy(w: World, w': World)
    requires w.shards != [] && Tidy(w) && SameButQuanta(w, w')
    ensures Tidy(w')
  {
    hide TidyLane, NoDuplicates, AsI64, QuantumFor;
    forall x, p: Priority ensures TidyLane(HomeState(w', x), x, p, RingOf(w', x, p)) {
      assert TidyLane(HomeState(w, x), x, p, RingOf(w, x, p));
      OtherLaneTidy(HomeState(w, x), HomeState(w', x), x, p, RingOf(w, x, p));
    }
    forall j, p: Priority | 0 <= j < |w'.shards| ensures NoDuplicates(w'.shards[j].rings.At(p)) {
      assert NoDuplicates(w.shards[j].rings.At(p));
    }
  }

  lemma StepKeepsTidy(cfg: Config, clock: Clock, w: World, m: Move)
    requires Inv(cfg, w) && Tidy(w) && Calm(cfg, m)
    ensures Tidy(Step(cfg, clock, w, m))
  {
    hide BooksOk, TenantInvAt, Homed, RingsKnown, Tidy, Enqueue, VisitRing, QuantumFor, AsI64, RecordReject;
    match m
    case EnqueueMove(t, task) => EnqueueKeepsTidy(cfg, clock, w, t, task);
    case GiveUpMove => GiveUpKeepsTidy(w);
    case VisitMove(i, p) =>
      if CanVisit(w, i, p) {
        VisitKeepsTidy(cfg, clock, w, i, p);
      }
    case SetQuantumMove(t, q) => QuantaKeepTidy(w, Step(cfg, clock, w, m));
    case ClearQuantumMove(t) => QuantaKeepTidy(w, Step(cfg, clock, w, m));
    case SetProviderMove(f) => QuantaKeepTidy(w, Step(cfg, clock, w, m));
  }

  lemma GiveUpKeepsTidy(w: World)
    requires w.shards != [] && Tidy(w)
    ensures Tidy(w.(books := RecordReject(w.books, TimedOut)))
  {
    hide TidyLane, NoDuplicates;
    var w' := w.(books := RecordReject(w.books, TimedOut));
    forall x, p: Priority ensures TidyLane(HomeState(w', x), x, p, RingOf(w', x, p)) {
      assert TidyLane(HomeState(w, x), x, p, RingOf(w, x, p));
      assert HomeState(w', x) == HomeState(w, x);
    }
    forall j, p: Priority | 0 <= j < |w'.shards| ensures NoDuplicates(w'.shards[j].rings.At(p)) {
      assert NoDuplicates(w.shards[j].rings.At(p));
    }
  }

  // ---------------------------------------------------------------- two backlogged tenants

  /** Tenants `a` and `b` share the ring of priority `p` and have work in every world of the run. */
  ghost predicate BothBusy(cfg: Config, clock: Clock, w: World, moves: seq<Move>, a: Tenant, b: Tenant, p: Priority)
    requires w.shards != []
    decreases |moves|
  {
    && HomeState(w, a).queues.At(p) != []
    && HomeState(w, b).queues.At(p) != []
    && (moves != [] ==> BothBusy(cfg, clock, Step(cfg, clock, w, moves[0]), moves[1..], a, b, p))
  }

  function Lead(w: World, a: Tenant, b: Tenant, p: Priority): int
    requires w.shards != []
  {
    if Position(RingOf(w, a, p), a) < Position(RingOf(w, b, p), b) then 0 else 1
  }

  ghost function TurnsOf(w: World, t: Tenant, p: Priority): nat {
    Turns(w.books.history.log, t, p)
  }

  lemma PositionOfAppended(ring: seq<Tenant>, t: Tenant)
    requires t !in ring
    ensures Position(ring + [t], t) == |ring|
  {
    if ring != [] {
      assert (ring + [t])[1..] == ring[1..] + [t];
      PositionOfAppended(ring[1..], t);
    }
  }

  /** Rotating the head to the back moves everyone else one place forward. */
  lemma Rotation(ring: seq<Tenant>, a: Tenant, b: Tenant)
    requires ring != [] && a in ring && b in ring && a != b && NoDuplicates(ring)
    ensures var ring' := ring[1..] + [ring[0]];
            (Position(ring', a) < Position(ring', b)) ==
            (if ring[0] == a then false else if ring[0] == b then true else Position(ring, a) < Position(ring, b))
  {
    var x, rest := ring[0], ring[1..];
    assert ring == [x] + rest;
    PositionOfAppended(rest, x);
    if x != a {
      PositionAfterPush(rest, x, a);
    }
    if x != b {
      PositionAfterPush(rest, x, b);
    }
  }

  lemma PositionsAfterPop(ring: seq<Tenant>, a: Tenant, b: Tenant)
    requires ring != [] && a in ring && b in ring && ring[0] != a && ring[0] != b
    ensures (Position(ring[1..], a) < Position(ring[1..], b)) == (Position(ring, a) < Position(ring, b))
  {
    PositionAfterPop(ring, a);
    PositionAfterPop(ring, b);
  }

  lemma VisitKeepsLead(cfg: Config, clock: Clock, w: World, i: nat, p2: Priority, a: Tenant, b: Tenant, p: Priority)
    requires Inv(cfg, w) && Tidy(w) && CanVisit(w, i, p2) && a != b
    requires ShardIndex(|w.shards|, a) == ShardIndex(|w.shards|, b)
    requires HomeState(w, a).queues.At(p) != [] && HomeState(w, b).queues.At(p) != []
    requires var w' := VisitRing(clock, w, i, p2).world;
             HomeState(w', a).queues.At(p) != [] && HomeState(w', b).queues.At(p) != []
    ensures var w' := VisitRing(clock, w, i, p2).world;
            TurnsOf(w', a, p) - TurnsOf(w', b, p) - Lead(w', a, b, p) == TurnsOf(w, a, p) - TurnsOf(w, b, p) - Lead(w, a, b, p)
  {
    hide BooksOk, TenantInvAt, VisitRing, HomeState, Homed, RingsKnown, VisitOk, Position, Tidy;
    var w' := VisitRing(clock, w, i, p2).world;
    VisitLogs(cfg, clock, w, i, p2);
    RingHead(cfg, w, i, p2);
    VisitKeepsTidy(cfg, clock, w, i, p2);
    InRing(w, a, p);
    InRing(w, b, p);
    RingAfterVisit(clock, w, i, p2, a, p);
    InRing(w', a, p);
    InRing(w', b, p);
    if i == ShardIndex(|w.shards|, a) && p2 == p {
      TidyRings(w, i, p);
      RingTurn(RingOf(w, a, p), RingOf(w', a, p), a, b);
    }
  }

  lemma TidyRings(w: World, i: nat, p: Priority)
    requires w.shards != [] && Tidy(w) && i < |w.shards|
    ensures NoDuplicates(w.shards[i].rings.At(p))
  {
    hide TidyLane, HomeState, NoDuplicates;
  }

  lemma RingAfterVisit(clock: Clock, w: World, i: nat, p2: Priority, t: Tenant, p: Priority)
    requires w.shards != [] && CanVisit(w, i, p2)
    ensures |VisitRing(clock, w, i, p2).world.shards| == |w.shards|
    ensures var ring, ring' := RingOf(w, t, p), RingOf(VisitRing(clock, w, i, p2).world, t, p);
            if i == ShardIndex(|w.shards|, t) && p2 == p then ring' == ring[1..] || ring' == ring[1..] + [ring[0]] else ring' == ring
  {
    hide TakeTurn;
  }

  /** Who is ahead after one pop of a ring that both stay in. */
  lemma RingTurn(ring: seq<Tenant>, ring': seq<Tenant>, a: Tenant, b: Tenant)
    requires ring != [] && a in ring && b in ring && a in ring' && b in ring' && a != b && NoDuplicates(ring)
    requires ring' == ring[1..] || ring' == ring[1..] + [ring[0]]
    ensures (Position(ring', a) < Position(ring', b)) ==
            (if ring[0] == a then false else if ring[0] == b then true else Position(ring, a) < Position(ring, b))
    ensures ring[0] == a ==> Position(ring, a) < Position(ring, b)
    ensures ring[0] == b ==> Position(ring, b) < Position(ring, a)
  {
    hide Position;
    HeadPosition(ring, a);
    HeadPosition(ring, b);
    if ring' == ring[1..] + [ring[0]] {
      Rotation(ring, a, b);
    } else {
      assert ring[0] != a && ring[0] != b;
      PositionsAfterPop(ring, a, b);
    }
  }

  lemma HeadPosition(ring: seq<Tenant>, t: Tenant)
    requires ring != []
    ensures Position(ring, t) == 0 <==> ring[0] == t
  {
  }

  lemma InRing(w: World, t: Tenant, p: Priority)
    requires w.shards != [] && Tidy(w) && HomeState(w, t).queues.At(p) != []
    ensures t in RingOf(w, t, p)
  {
    hide HomeState;
    assert TidyLane(HomeState(w, t), t, p, RingOf(w, t, p));
  }

  lemma StepKeepsLead(cfg: Config, clock: Clock, w: World, m: Move, a: Tenant, b: Tenant, p: Priority)
    requires Inv(cfg, w) && Tidy(w) && Calm(cfg, m) && a != b
    requires ShardIndex(|w.shards|, a) == ShardIndex(|w.shards|, b)
    requires HomeState(w, a).queues.At(p) != [] && HomeState(w, b).queues.At(p) != []
    requires var w' := Step(cfg, clock, w, m);
             HomeState(w', a).queues.At(p) != [] && HomeState(w', b).queues.At(p) != []
    ensures var w' := Step(cfg, clock, w, m);
            TurnsOf(w', a, p) - TurnsOf(w', b, p) - Lead(w', a, b, p) == TurnsOf(w, a, p) - TurnsOf(w, b, p) - Lead(w, a, b, p)
  {
    hide BooksOk, TenantInvAt, Homed, RingsKnown, HomeState, Tidy, VisitRing, Position, Enqueue, RefreshTenant;
    InRing(w, a, p);
    InRing(w, b, p);
    if m.VisitMove? && CanVisit(w, m.shard, m.priority) {
      VisitIsStep(cfg, clock, w, m.shard, m.priority);
      VisitKeepsLead(cfg, clock, w, m.shard, m.priority, a, b, p);
    } else {
      OthersKeepLog(cfg, clock, w, m);
      OthersOnlyPush(cfg, clock, w, m, a, p);
      OthersOnlyPush(cfg, clock, w, m, b, p);
      match m
      case EnqueueMove(t, task) =>
        PositionAfterPush(RingOf(w, a, p), t, a);
        PositionAfterPush(RingOf(w, b, p), t, b);
      case _ =>
    }
  }

  lemma OthersOnlyPush(cfg: Config, clock: Clock, w: World, m: Move, t: Tenant, p: Priority)
    requires Inv(cfg, w) && (m.VisitMove? ==> !CanVisit(w, m.shard, m.priority))
    ensures var w' := Step(cfg, clock, w, m);
            RingOf(w', t, p) == RingOf(w, t, p) || (m.EnqueueMove? && RingOf(w', t, p) == RingOf(w, t, p) + [m.tenant])
  {
    hide BooksOk, TenantInvAt, Homed, RingsKnown, VisitRing, Admit, HomeState, QuantumFor, AsI64;
  }

  lemma {:induction false} RunKeepsLead(cfg: Config, clock: Clock, w: World, moves: seq<Move>, a: Tenant, b: Tenant, p: Priority)
    requires Inv(cfg, w) && Tidy(w) && a != b
    requires forall i :: 0 <= i < |moves| ==> Calm(cfg, moves[i])
    requires ShardIndex(|w.shards|, a) == ShardIndex(|w.shards|, b)
    requires BothBusy(cfg, clock, w, moves, a, b, p)
    ensures var w' := Run(cfg, clock, w, moves);
            TurnsOf(w', a, p) - TurnsOf(w', b, p) - Lead(w', a, b, p) == TurnsOf(w, a, p) - TurnsOf(w, b, p) - Lead(w, a, b, p)
    decreases |moves|
  {
    hide BooksOk, TenantInvAt, Homed, RingsKnown, HomeState, Tidy, Step, Lead, TurnsOf, Calm;
    if moves != [] {
      var w1 := Step(cfg, clock, w, moves[0]);
      StepKeeps(cfg, clock, w, moves[0]);
      StepKeepsTidy(cfg, clock, w, moves[0]);
      assert BothBusy(cfg, clock, w1, moves[1..], a, b, p);
      StepKeepsLead(cfg, clock, w, moves[0], a, b, p);
      RunKeepsLead(cfg, clock, w1, moves[1..], a, b, p);
    }
  }

  /** Round robin: in a Reject/Timeout run without deadlines or cancels, two tenants that share a ring
      and stay backlogged get numbers of visits that differ by at most one. */
  lemma VisitsStayLevel(cfg: Config, clock: Clock, w: World, moves: seq<Move>, a: Tenant, b: Tenant, p: Priority)
    requires Inv(cfg, w) && Tidy(w) && a != b
    requires forall i :: 0 <= i < |moves| ==> Calm(cfg, moves[i])
    requires ShardIndex(|w.shards|, a) == ShardIndex(|w.shards|, b)
    requires BothBusy(cfg, clock, w, moves, a, b, p)
    ensures var w' := Run(cfg, clock, w, moves);
            -1 <= (TurnsOf(w', a, p) - TurnsOf(w, a, p)) - (TurnsOf(w', b, p) - TurnsOf(w, b, p)) <= 1
  {
    hide Inv, Tidy, BothBusy, TurnsOf, Calm, Step;
    RunKeepsLead(cfg, clock, w, moves, a, b, p);
  }

  /** Such runs start tidy and stay tidy. */
  lemma {:induction false} CalmRunsAreTidy(cfg: Config, clock: Clock, w: World, moves: seq<Move>)
    requires Inv(cfg, w) && Tidy(w) && forall i :: 0 <= i < |moves| ==> Calm(cfg, moves[i])
    ensures Tidy(Run(cfg, clock, w, moves))
    decreases |moves|
  {
    hide BooksOk, TenantInvAt, Homed, RingsKnown, Tidy, Step, Calm;
    if moves != [] {
      StepKeeps(cfg, clock, w, moves[0]);
      StepKeepsTidy(cfg, clock, w, moves[0]);
      CalmRunsAreTidy(cfg, clock, Step(cfg, clock, w, moves[0]), moves[1..]);
    }
  }

  /** From a new scheduler: whatever calm run went before, two tenants that then share a ring and stay
      backlogged get numbers of visits that differ by at most one. */
  lemma VisitsStayLevelFromFresh(cfg: Config, clock: Clock, shards: nat, quanta: Quanta, before: seq<Move>, moves: seq<Move>,
                                 a: Tenant, b: Tenant, p: Priority)
    requires forall i :: 0 <= i < |before| ==> Calm(cfg, before[i])
    requires forall i :: 0 <= i < |moves| ==> Calm(cfg, moves[i])
    requires var w := Run(cfg, clock, Fresh(shards, quanta), before);
             && a != b && ShardIndex(|w.shards|, a) == ShardIndex(|w.shards|, b)
             && BothBusy(cfg, clock, w, moves, a, b, p)
    ensures var w := Run(cfg, clock, Fresh(shards, quanta), before);
            var w' := Run(cfg, clock, w, moves);
            -1 <= (TurnsOf(w', a, p) - TurnsOf(w, a, p)) - (TurnsOf(w', b, p) - TurnsOf(w, b, p)) <= 1
  {
    hide Inv, Tidy, BothBusy, TurnsOf, Calm, Run;
    FreshInv(cfg, shards, quanta);
    FreshIsTidy(shards, quanta);
    RunKeeps(cfg, clock, Fresh(shards, quanta), before);
    CalmRunsAreTidy(cfg, clock, Fresh(shards, quanta), before);
    VisitsStayLevel(cfg, clock, Run(cfg, clock, Fresh(shards, quanta), before), moves, a, b, p);
  }
}
