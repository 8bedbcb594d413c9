/** How long the head of a lane can wait, in pops of its ring. */
module BoundedWait {
  import opened Types
  import opened World
  import opened Invariant
  import opened EnqueueProofs
  import opened Preservation
  import opened Delivery
  import opened Refills

  /** Where a tenant first stands in a ring. */
  function Position(ring: seq<Tenant>, t: Tenant): (k: nat)
    ensures k <= |ring|
    ensures k < |ring| <==> t in ring
  {
    if ring == [] || ring[0] == t then 0 else 1 + Position(ring[1..], t)
  }

  lemma {:induction false} PositionAfterPush(ring: seq<Tenant>, x: Tenant, t: Tenant)
    requires t in ring
    ensures Position(ring + [x], t) == Position(ring, t)
  {
    if ring[0] != t {
      assert (ring + [x])[1..] == ring[1..] + [x];
      PositionAfterPush(ring[1..], x, t);
    }
  }

  lemma {:induction false} PositionOfPushed(ring: seq<Tenant>, t: Tenant)
    ensures Position(ring + [t], t) <= |ring|
  {
    if ring != [] && ring[0] != t {
      assert (ring + [t])[1..] == ring[1..] + [t];
      PositionOfPushed(ring[1..], t);
    }
  }

  /** Pops of the ring of lane (t, p): visits at that priority to tenants of the same shard. */
  ghost function Pops(log: Log, n: nat, t: Tenant, p: Priority): nat
    requires n > 0
  {
    match log
    case Start => 0
    case Then(before, v) =>
      Pops(before, n, t, p) + if v.priority == p && ShardIndex(n, v.tenant) == ShardIndex(n, t) then 1 else 0
  }

  /** Task `e` is the head of lane (t, p) and still pending. */
  ghost predicate Waiting(w: World, t: Tenant, p: Priority, e: Entry)
    requires w.shards != []
  {
    && HomeState(w, t).queues.At(p) != []
    && HomeState(w, t).queues.At(p)[0] == e
    && e.id in w.books.pending
  }

  /** Refills of `quantum` can make the head affordable. */
  ghost predicate InReach(w: World, t: Tenant, p: Priority, e: Entry, quantum: int)
    requires w.shards != []
  {
    Payable(ChargeFor(e.task.cost), HomeState(w, t).deficits.At(p), quantum)
  }

  ghost function Budget(w: World, t: Tenant, p: Priority, e: Entry, longest: nat, quantum: int): nat
    requires w.shards != [] && InReach(w, t, p, e, quantum)
  {
    Position(RingOf(w, t, p), t) + 1 +
    longest * Rounds(ChargeFor(e.task.cost), HomeState(w, t).deficits.At(p), quantum)
  }

  // ---------------------------------------------------------------- pending ids

  lemma StepPending(cfg: Config, clock: Clock, w: World, m: Move, id: Id)
    requires Inv(cfg, w) && id <= w.books.nextId && id in Step(cfg, clock, w, m).books.pending
    ensures id in w.books.pending && w.books.nextId <= Step(cfg, clock, w, m).books.nextId
  {
    hide BooksOk, TenantInvAt, Homed, RingsKnown, VisitRing;
    match m
    case EnqueueMove(t, task) =>
      var d := Draft(HomeState(w, t), w.books, w.samples);
      HomeDraftOk(cfg, w, t);
      AdmitKeeps(cfg, clock, d, t, task);
    case VisitMove(i, p) =>
      if CanVisit(w, i, p) {
        VisitPending(clock, w, i, p);
        VisitIsStep(cfg, clock, w, i, p);
      }
    case _ =>
  }

  lemma VisitPending(clock: Clock, w: World, i: nat, p: Priority)
    requires CanVisit(w, i, p)
    ensures VisitRing(clock, w, i, p).world.books.pending <= w.books.pending
    ensures VisitRing(clock, w, i, p).world.books.nextId == w.books.nextId
  {
    hide TakeTurn;
    var s := w.shards[i];
    var t := s.rings.At(p)[0];
    if t in s.tenants {
      TurnPending(clock, s.tenants[t], w.books, w.samples, t, p);
    }
  }

  lemma TurnPending(clock: Clock, ts: TenantState, b: Books, samples: nat, t: Tenant, p: Priority)
    ensures var b' := TakeTurn(clock, ts, b, samples, t, p).books;
            b'.pending <= b.pending && b'.nextId == b.nextId
  {
    hide ChargeFor, QueueTime, DeadPrefix, Ids;
  }

  lemma {:induction false} RunPending(cfg: Config, clock: Clock, w: World, moves: seq<Move>, id: Id)
    requires Inv(cfg, w) && id <= w.books.nextId && id in Run(cfg, clock, w, moves).books.pending
    ensures id in w.books.pending
    decreases |moves|
  {
    hide BooksOk, TenantInvAt, Homed, RingsKnown, Step;
    if moves != [] {
      StepKeeps(cfg, clock, w, moves[0]);
      StepNextId(cfg, clock, w, moves[0]);
      RunPending(cfg, clock, Step(cfg, clock, w, moves[0]), moves[1..], id);
      StepPending(cfg, clock, w, moves[0], id);
    }
  }

  lemma StepNextId(cfg: Config, clock: Clock, w: World, m: Move)
    requires Inv(cfg, w)
    ensures w.books.nextId <= Step(cfg, clock, w, m).books.nextId
  {
    hide BooksOk, TenantInvAt, Homed, RingsKnown, VisitRing;
    match m
    case EnqueueMove(t, task) =>
      var d := Draft(HomeState(w, t), w.books, w.samples);
      HomeDraftOk(cfg, w, t);
      AdmitKeeps(cfg, clock, d, t, task);
    case VisitMove(i, p) =>
      if CanVisit(w, i, p) {
        VisitPending(clock, w, i, p);
        VisitIsStep(cfg, clock, w, i, p);
      }
    case _ =>
  }

  // ---------------------------------------------------------------- one step

  /** A head that is still pending after a step is still the head. */
  lemma HeadStays(cfg: Config, q: seq<Entry>, q': seq<Entry>, t: Tenant, p: Priority, b: Books, b': Books, e: Entry)
    requires LaneOk(q, t, p, b) && LaneOk(q', t, p, b') && OneFate(b)
    requires q != [] && q[0] == e && e.id in b'.pending
    requires forall id :: id in b.history.accepted ==> id in b'.history.accepted && b'.history.accepted[id] == b.history.accepted[id]
    requires forall x :: x in q' ==> x in q || x.id == b.nextId + 1
    ensures q' != [] && q'[0] == e
  {
    assert EntryOk(e, t, p, b);
    assert OfLane(b'.history, e.id, t, p);
    assert e.id in Ids(q');
    var x :| x in q' && x.id == e.id;
    assert EntryOk(x, t, p, b');
    assert x == e;
    assert e.id <= b.nextId;
    assert q'[0] in q';
    if q'[0] in q {
      var i :| 0 <= i < |q| && q[i] == q'[0];
      var j :| 0 <= j < |q'| && q'[j] == e;
    }
  }

  lemma EnqueueKeepsWaiting(cfg: Config, clock: Clock, w: World, x: Tenant, task: Task, t: Tenant, p: Priority, e: Entry)
    requires Inv(cfg, w) && Waiting(w, t, p, e)
    requires e.id in Enqueue(cfg, clock, w, x, task).books.pending
    ensures var w' := Enqueue(cfg, clock, w, x, task);
            && Waiting(w', t, p, e)
            && HomeState(w', t).deficits.At(p) == HomeState(w, t).deficits.At(p)
            && (RingOf(w', t, p) == RingOf(w, t, p) || RingOf(w', t, p) == RingOf(w, t, p) + [x])
  {
    hide BooksOk, TenantInvAt, Homed, RingsKnown, Admit, LaneOk, RecordReject, AsI64, QuantumFor;
    var w' := Enqueue(cfg, clock, w, x, task);
    var d := Draft(HomeState(w, x), w.books, w.samples);
    var a := AdmissionOf(cfg, clock, w, x, task);
    HomeDraftOk(cfg, w, x);
    AdmitKeeps(cfg, clock, d, x, task);
    EnqueueKeeps(cfg, clock, w, x, task);
    EnqueueKeepsLog(cfg, clock, w, x, task);
    if x == t {
      InvAtLane(cfg, w, t, p);
      InvAtLane(cfg, w', t, p);
      var q, q' := HomeState(w, t).queues.At(p), HomeState(w', t).queues.At(p);
      assert OneFate(w.books) by { InvFates(cfg, w); }
      forall y | y in q' ensures y in q || y.id == w.books.nextId + 1 {
      }
      assert e.id in w.books.history.accepted by { LaneHeadAccepted(q, t, p, w.books); }
      HeadStays(cfg, q, q', t, p, w.books, w'.books, e);
    }
  }

  lemma InvFates(cfg: Config, w: World)
    requires Inv(cfg, w)
    ensures OneFate(w.books)
  {
    hide TenantInvAt, Homed, RingsKnown, OneFate;
  }

  lemma LaneHeadAccepted(q: seq<Entry>, t: Tenant, p: Priority, b: Books)
    requires LaneOk(q, t, p, b) && q != []
    ensures q[0].id in b.history.accepted
  {
    assert EntryOk(q[0], t, p, b);
  }

  /** A turn that neither serves nor reaps the live head `e` refills its lane. */
  lemma TurnOfWaiting(cfg: Config, clock: Clock, ts: TenantState, b: Books, samples: nat, t: Tenant, p: Priority, e: Entry)
    requires TurnPre(cfg, ts, b, t, p) && ts.queues.At(p) != [] && ts.queues.At(p)[0] == e && e.id in b.pending
    requires e.id in TakeTurn(clock, ts, b, samples, t, p).books.pending
    ensures var turn := TakeTurn(clock, ts, b, samples, t, p);
            && turn.requeue
            && turn.state.queues.At(p) == ts.queues.At(p)
            && ts.deficits.At(p) < ChargeFor(e.task.cost)
            && turn.state.deficits.At(p) == WrapI64(ts.deficits.At(p) + ts.quantum)
  {
    hide LaneOk, DeficitOk, CountersOk, Reap, ServeHead;
    var q := ts.queues.At(p);
    assert e.id !in b.cancelled;
    var k := DeadPrefix(q, b.cancelled, clock.now(samples));
    var (ts1, b1) := DropDead(ts, b, p, clock.now(samples));
    if k > 0 {
      assert q[0] in q[..k];
      assert e.id in Ids(q[..k]);
      ReapedNotPending(b, Ids(q[..k]), e.id);
      HeadTurnPending(clock, ts1, b1, samples, t, p);
      assert false;
    }
    assert q[k..] == q;
    if ts.deficits.At(p) >= ChargeFor(e.task.cost) {
      ReapShrinks(b, Ids(q[..k]));
      ServedNotPending(clock, ts1, b1, samples, t, p);
      assert false;
    }
  }

  lemma ReapedNotPending(b: Books, removed: set<Id>, id: Id)
    requires id in removed
    ensures id !in Reap(b, removed).pending
  {
  }

  lemma ReapShrinks(b: Books, removed: set<Id>)
    ensures Reap(b, removed).cancelled <= b.cancelled
  {
  }

  lemma HeadTurnPending(clock: Clock, ts: TenantState, b: Books, samples: nat, t: Tenant, p: Priority)
    ensures HeadTurn(clock, ts, b, samples, t, p).books.pending <= b.pending
  {
    hide ChargeFor, QueueTime;
  }

  lemma ServedNotPending(clock: Clock, ts: TenantState, b: Books, samples: nat, t: Tenant, p: Priority)
    requires ts.queues.At(p) != [] && ts.deficits.At(p) >= ChargeFor(ts.queues.At(p)[0].task.cost)
    requires ts.queues.At(p)[0].id !in b.cancelled
    ensures ts.queues.At(p)[0].id !in HeadTurn(clock, ts, b, samples, t, p).books.pending
  {
    hide ChargeFor, QueueTime;
  }

  /** A visit elsewhere leaves lane (t, p) as it is. */
  lemma VisitElsewhere(cfg: Config, clock: Clock, w: World, i: nat, p2: Priority, t: Tenant, p: Priority, e: Entry)
    requires Inv(cfg, w) && CanVisit(w, i, p2) && Waiting(w, t, p, e)
    requires e.id in VisitRing(clock, w, i, p2).world.books.pending
    requires w.shards[i].rings.At(p2)[0] != t || p2 != p
    ensures var w' := VisitRing(clock, w, i, p2).world;
            && Waiting(w', t, p, e)
            && HomeState(w', t).deficits.At(p) == HomeState(w, t).deficits.At(p)
            && (i != ShardIndex(|w.shards|, t) || p2 != p ==> RingOf(w', t, p) == RingOf(w, t, p))
  {
    hide BooksOk, TenantInvAt, TakeTurn, TurnPre, TurnOk, AsI64, QuantumFor;
    var x := w.shards[i].rings.At(p2)[0];
    RingHead(cfg, w, i, p2);
    HomeTurnPre(cfg, w, x, p2);
    TurnElsewhere(clock, w.shards[i].tenants[x], w.books, w.samples, x, p2, p);
  }

  lemma TurnElsewhere(clock: Clock, ts: TenantState, b: Books, samples: nat, t: Tenant, p2: Priority, p: Priority)
    ensures p != p2 ==>
              var ts' := TakeTurn(clock, ts, b, samples, t, p2).state;
              ts'.queues.At(p) == ts.queues.At(p) && ts'.deficits.At(p) == ts.deficits.At(p)
  {
    hide ChargeFor, QueueTime, DeadPrefix, Reap, Dispatch;
  }

  ghost predicate Paced(w: World, t: Tenant, p: Priority, longest: nat, quantum: int)
    requires w.shards != []
  {
    HomeState(w, t).quantum == quantum && |RingOf(w, t, p)| <= longest
  }

  /** A visit of the waiting lane itself refills it and sends its tenant to the end of the ring. */
  lemma OwnVisit(cfg: Config, clock: Clock, w: World, t: Tenant, p: Priority, e: Entry)
    requires Inv(cfg, w) && Waiting(w, t, p, e) && CanVisit(w, ShardIndex(|w.shards|, t), p) && RingOf(w, t, p)[0] == t
    requires e.id in VisitRing(clock, w, ShardIndex(|w.shards|, t), p).world.books.pending
    ensures var w' := VisitRing(clock, w, ShardIndex(|w.shards|, t), p).world;
            && |w'.shards| == |w.shards| && Waiting(w', t, p, e)
            && RingOf(w', t, p) == RingOf(w, t, p)[1..] + [t]
            && HomeState(w, t).deficits.At(p) < ChargeFor(e.task.cost)
            && HomeState(w', t).deficits.At(p) == WrapI64(HomeState(w, t).deficits.At(p) + HomeState(w, t).quantum)
  {
    hide BooksOk, TenantInvAt, TakeTurn, TurnPre, TurnOk, Homed, RingsKnown, LaneOk, AsI64, QuantumFor, WrapI64, ChargeFor;
    var i := ShardIndex(|w.shards|, t);
    RingHead(cfg, w, i, p);
    HomeTurnPre(cfg, w, t, p);
    TurnOfWaiting(cfg, clock, w.shards[i].tenants[t], w.books, w.samples, t, p, e);
  }

  /** A visit of another tenant of the ring brings the waiting one forward. */
  lemma VisitAhead(cfg: Config, clock: Clock, w: World, t: Tenant, p: Priority, e: Entry)
    requires Inv(cfg, w) && Waiting(w, t, p, e) && CanVisit(w, ShardIndex(|w.shards|, t), p) && RingOf(w, t, p)[0] != t
    requires e.id in VisitRing(clock, w, ShardIndex(|w.shards|, t), p).world.books.pending
    ensures var w' := VisitRing(clock, w, ShardIndex(|w.shards|, t), p).world;
            && |w'.shards| == |w.shards| && Waiting(w', t, p, e)
            && Position(RingOf(w, t, p), t) == 1 + Position(RingOf(w', t, p), t)
            && HomeState(w', t).deficits.At(p) == HomeState(w, t).deficits.At(p)
  {
    hide BooksOk, TenantInvAt, TakeTurn, Homed, RingsKnown, LaneOk, Position, HomeState, VisitRing, Waiting;
    var i := ShardIndex(|w.shards|, t);
    var ring := w.shards[i].rings.At(p);
    assert t in ring by { WaitingIsListed(cfg, w, t, p, e); }
    RingAfter(clock, w, i, p);
    VisitElsewhere(cfg, clock, w, i, p, t, p, e);
    PositionAfterPop(ring, t);
    PositionAfterPush(ring[1..], ring[0], t);
  }

  lemma WaitingIsListed(cfg: Config, w: World, t: Tenant, p: Priority, e: Entry)
    requires Inv(cfg, w) && Waiting(w, t, p, e)
    ensures t in RingOf(w, t, p)
  {
    hide BooksOk, TenantInvAt, Homed, RingsKnown, LaneOk, HomeState;
    InvAtLane(cfg, w, t, p);
  }

  lemma VisitHere(cfg: Config, clock: Clock, w: World, t: Tenant, p: Priority, e: Entry, longest: nat, quantum: int)
    requires Inv(cfg, w) && Waiting(w, t, p, e) && InReach(w, t, p, e, quantum) && Paced(w, t, p, longest, quantum)
    requires CanVisit(w, ShardIndex(|w.shards|, t), p)
    requires e.id in VisitRing(clock, w, ShardIndex(|w.shards|, t), p).world.books.pending
    ensures var w' := VisitRing(clock, w, ShardIndex(|w.shards|, t), p).world;
            && |w'.shards| == |w.shards| && Waiting(w', t, p, e) && InReach(w', t, p, e, quantum)
            && Budget(w', t, p, e, longest, quantum) + 1 <= Budget(w, t, p, e, longest, quantum)
  {
    hide BooksOk, TenantInvAt, Homed, RingsKnown, LaneOk, Rounds, Position, HomeState, VisitRing, Waiting, Payable, WrapI64, ChargeFor;
    var ring, w' := RingOf(w, t, p), VisitRing(clock, w, ShardIndex(|w.shards|, t), p).world;
    if ring[0] != t {
      VisitAhead(cfg, clock, w, t, p, e);
    } else {
      var cost, d := ChargeFor(e.task.cost), HomeState(w, t).deficits.At(p);
      OwnVisit(cfg, clock, w, t, p, e);
      PositionOfPushed(ring[1..], t);
      DeficitFits(cfg, w, t, p);
      ChargeFits(e.task.cost);
      RoundsStep(cost, d, quantum);
      var r := Rounds(cost, HomeState(w', t).deficits.At(p), quantum);
      assert longest * (1 + r) == longest + longest * r;
    }
  }

  lemma PositionAfterPop(ring: seq<Tenant>, t: Tenant)
    requires ring != [] && ring[0] != t && t in ring
    ensures t in ring[1..] && Position(ring, t) == 1 + Position(ring[1..], t)
  {
    assert ring == [ring[0]] + ring[1..];
  }

  lemma VisitUsesBudget(cfg: Config, clock: Clock, w: World, i: nat, p2: Priority, t: Tenant, p: Priority, e: Entry,
                        longest: nat, quantum: int)
    requires Inv(cfg, w) && Waiting(w, t, p, e) && InReach(w, t, p, e, quantum) && Paced(w, t, p, longest, quantum) && CanVisit(w, i, p2)
    requires e.id in VisitRing(clock, w, i, p2).world.books.pending
    ensures var w' := VisitRing(clock, w, i, p2).world;
            && Waiting(w', t, p, e) && InReach(w', t, p, e, quantum)
            && Pops(w'.books.history.log, |w.shards|, t, p) - Pops(w.books.history.log, |w.shards|, t, p)
               + Budget(w', t, p, e, longest, quantum) <= Budget(w, t, p, e, longest, quantum)
  {
    hide BooksOk, TenantInvAt, Homed, RingsKnown, LaneOk, VisitRing, Rounds, Position, VisitOk, ChargeFor, HomeState, Waiting, Paced;
    VisitLogs(cfg, clock, w, i, p2);
    RingHead(cfg, w, i, p2);
    if i == ShardIndex(|w.shards|, t) && p2 == p {
      VisitHere(cfg, clock, w, t, p, e, longest, quantum);
    } else {
      VisitElsewhere(cfg, clock, w, i, p2, t, p, e);
    }
  }

  lemma EnqueueUsesBudget(cfg: Config, clock: Clock, w: World, x: Tenant, task: Task, t: Tenant, p: Priority, e: Entry,
                          longest: nat, quantum: int)
    requires Inv(cfg, w) && Waiting(w, t, p, e) && InReach(w, t, p, e, quantum)
    requires e.id in Enqueue(cfg, clock, w, x, task).books.pending
    ensures var w' := Enqueue(cfg, clock, w, x, task);
            && Waiting(w', t, p, e) && InReach(w', t, p, e, quantum)
            && w'.books.history.log == w.books.history.log
            && Budget(w', t, p, e, longest, quantum) == Budget(w, t, p, e, longest, quantum)
  {
    hide BooksOk, TenantInvAt, Homed, RingsKnown, LaneOk, Enqueue, Rounds, Position, ChargeFor, HomeState;
    InvAtLane(cfg, w, t, p);
    EnqueueKeepsWaiting(cfg, clock, w, x, task, t, p, e);
    EnqueueKeepsLog(cfg, clock, w, x, task);
    PositionAfterPush(RingOf(w, t, p), x, t);
  }

  /** While the head stays pending, each pop of its ring uses up one unit of its budget. */
  lemma StepUsesBudget(cfg: Config, clock: Clock, w: World, m: Move, t: Tenant, p: Priority, e: Entry, longest: nat, quantum: int)
    requires Inv(cfg, w) && Waiting(w, t, p, e) && InReach(w, t, p, e, quantum) && Paced(w, t, p, longest, quantum)
    requires e.id in Step(cfg, clock, w, m).books.pending
    ensures var w' := Step(cfg, clock, w, m);
            var n := |w.shards|;
            && Waiting(w', t, p, e) && InReach(w', t, p, e, quantum)
            && Pops(w'.books.history.log, n, t, p) - Pops(w.books.history.log, n, t, p)
               + Budget(w', t, p, e, longest, quantum) <= Budget(w, t, p, e, longest, quantum)
  {
    hide BooksOk, TenantInvAt, Homed, RingsKnown, Enqueue, VisitRing, Rounds, Position, ChargeFor, QuantumFor, AsI64, RecordReject, Payable, WrapI64, HomeState;
    match m
    case EnqueueMove(x, task) => EnqueueUsesBudget(cfg, clock, w, x, task, t, p, e, longest, quantum);
    case VisitMove(i, p2) =>
      if CanVisit(w, i, p2) {
        VisitUsesBudget(cfg, clock, w, i, p2, t, p, e, longest, quantum);
      }
    case _ => OtherMoves(cfg, clock, w, m, t, p);
  }

  /** Cancels, give-ups and quantum changes leave the lane, its deficit, its ring and the log alone. */
  lemma OtherMoves(cfg: Config, clock: Clock, w: World, m: Move, t: Tenant, p: Priority)
    requires w.shards != [] && !m.EnqueueMove? && !m.VisitMove?
    ensures var w' := Step(cfg, clock, w, m);
            && HomeState(w', t).queues == HomeState(w, t).queues && HomeState(w', t).deficits == HomeState(w, t).deficits
            && RingOf(w', t, p) == RingOf(w, t, p)
            && w'.books.history.log == w.books.history.log
  {
    hide QuantumFor, AsI64, RecordReject;
    RejectIsStatsOnly(w.books, TimedOut);
  }

  /** Along the run the lane's quantum is `quantum` and its ring never exceeds `longest` entries. */
  ghost predicate PacedRun(cfg: Config, clock: Clock, w: World, moves: seq<Move>, t: Tenant, p: Priority, longest: nat, quantum: int)
    requires w.shards != []
    decreases |moves|
  {
    && Paced(w, t, p, longest, quantum)
    && (moves != [] ==> PacedRun(cfg, clock, Step(cfg, clock, w, moves[0]), moves[1..], t, p, longest, quantum))
  }

  lemma {:induction false} RunUsesBudget(cfg: Config, clock: Clock, w: World, moves: seq<Move>, t: Tenant, p: Priority, e: Entry,
                                         longest: nat, quantum: int)
    requires Inv(cfg, w) && Waiting(w, t, p, e) && InReach(w, t, p, e, quantum)
    requires PacedRun(cfg, clock, w, moves, t, p, longest, quantum)
    requires e.id in Run(cfg, clock, w, moves).books.pending
    ensures var w' := Run(cfg, clock, w, moves);
            && Waiting(w', t, p, e) && InReach(w', t, p, e, quantum)
            && Pops(w'.books.history.log, |w.shards|, t, p) - Pops(w.books.history.log, |w.shards|, t, p)
               + Budget(w', t, p, e, longest, quantum) <= Budget(w, t, p, e, longest, quantum)
    decreases |moves|
  {
    hide BooksOk, TenantInvAt, Homed, RingsKnown, Step, HomeState, Rounds, Position, ChargeFor, Waiting, Paced;
    if moves != [] {
      var w1 := Step(cfg, clock, w, moves[0]);
      StepKeeps(cfg, clock, w, moves[0]);
      StepNextId(cfg, clock, w, moves[0]);
      WaitingId(cfg, w, t, p, e);
      RunPending(cfg, clock, w1, moves[1..], e.id);
      StepUsesBudget(cfg, clock, w, moves[0], t, p, e, longest, quantum);
      RunUsesBudget(cfg, clock, w1, moves[1..], t, p, e, longest, quantum);
    }
  }

  lemma WaitingId(cfg: Config, w: World, t: Tenant, p: Priority, e: Entry)
    requires Inv(cfg, w) && Waiting(w, t, p, e)
    ensures e.id <= w.books.nextId && e.id in w.books.history.accepted && e.id in w.books.pending
  {
    hide TenantInvAt, Homed, RingsKnown, CountersOk, HomeState;
    assert e.id in w.books.history.accepted.Keys;
  }

  /** Bounded wait: whatever else happens, a head that r refills make affordable, at position k of its
      ring, is no longer waiting after k + 1 + N * r pops of that ring, N being the longest the ring gets;
      and if it was not expired, evicted or cancelled meanwhile, it was dispatched. */
  lemma HeadWaitsBoundedly(cfg: Config, clock: Clock, w: World, moves: seq<Move>, t: Tenant, p: Priority, e: Entry,
                           longest: nat, quantum: int)
    requires Inv(cfg, w) && Waiting(w, t, p, e) && InReach(w, t, p, e, quantum)
    requires PacedRun(cfg, clock, w, moves, t, p, longest, quantum)
    requires var w' := Run(cfg, clock, w, moves);
             Pops(w'.books.history.log, |w.shards|, t, p) - Pops(w.books.history.log, |w.shards|, t, p)
             >= Position(RingOf(w, t, p), t) + 1 + longest * Rounds(ChargeFor(e.task.cost), HomeState(w, t).deficits.At(p), quantum)
    ensures var h := Run(cfg, clock, w, moves).books.history;
            && e.id !in Run(cfg, clock, w, moves).books.pending
            && (e.id in h.dispatched || e.id in h.expired || e.id in h.evicted || e.id in h.withdrawn)
  {
    hide Inv, Step, Run, Rounds, Position, ChargeFor, HomeState, Waiting, PacedRun, Pops, Payable;
    InvShards(cfg, w);
    var w' := Run(cfg, clock, w, moves);
    if e.id in w'.books.pending {
      RunUsesBudget(cfg, clock, w, moves, t, p, e, longest, quantum);
    }
    RunKeeps(cfg, clock, w, moves);
    WaitingId(cfg, w, t, p, e);
    RunAccepted(cfg, clock, w, moves, e.id);
    GoneHasFate(cfg, w', e.id);
  }

  lemma GoneHasFate(cfg: Config, w: World, id: Id)
    requires Inv(cfg, w) && id in w.books.history.accepted && id !in w.books.pending
    ensures var h := w.books.history;
            id in h.dispatched || id in h.expired || id in h.evicted || id in h.withdrawn
  {
    hide TenantInvAt, Homed, RingsKnown, CountersOk;
    assert id in w.books.history.accepted.Keys;
  }

  lemma {:induction false} RunAccepted(cfg: Config, clock: Clock, w: World, moves: seq<Move>, id: Id)
    requires Inv(cfg, w) && id in w.books.history.accepted
    ensures var h, h' := w.books.history, Run(cfg, clock, w, moves).books.history;
            id in h'.accepted && h'.accepted[id] == h.accepted[id]
    decreases |moves|
  {
    hide BooksOk, TenantInvAt, Homed, RingsKnown, Step, VisitRing, VisitOk;
    if moves != [] {
      var m := moves[0];
      StepKeeps(cfg, clock, w, m);
      if m.VisitMove? && CanVisit(w, m.shard, m.priority) {
        VisitLogs(cfg, clock, w, m.shard, m.priority);
        VisitIsStep(cfg, clock, w, m.shard, m.priority);
      } else {
        OthersKeepLog(cfg, clock, w, m);
      }
      RunAccepted(cfg, clock, Step(cfg, clock, w, m), moves[1..], id);
    }
  }

  // ---------------------------------------------------------------- heads that are out of reach

  /** Along the run the lane's quantum is `quantum`. */
  ghost predicate SteadyRun(cfg: Config, clock: Clock, w: World, moves: seq<Move>, t: Tenant, quantum: int)
    requires w.shards != []
    decreases |moves|
  {
    && HomeState(w, t).quantum == quantum
    && (moves != [] ==> SteadyRun(cfg, clock, Step(cfg, clock, w, moves[0]), moves[1..], t, quantum))
  }

  lemma {:induction false} PacedIsSteady(cfg: Config, clock: Clock, w: World, moves: seq<Move>, t: Tenant, p: Priority, longest: nat, quantum: int)
    requires w.shards != [] && PacedRun(cfg, clock, w, moves, t, p, longest, quantum)
    ensures SteadyRun(cfg, clock, w, moves, t, quantum)
    decreases |moves|
  {
    hide Step, HomeState;
    if moves != [] {
      PacedIsSteady(cfg, clock, Step(cfg, clock, w, moves[0]), moves[1..], t, p, longest, quantum);
    }
  }

  /** A head still pending after a visit is still the head, and at most one refill richer. */
  lemma VisitKeepsHead(cfg: Config, clock: Clock, w: World, i: nat, p2: Priority, t: Tenant, p: Priority, e: Entry)
    requires Inv(cfg, w) && CanVisit(w, i, p2) && Waiting(w, t, p, e)
    requires e.id in VisitRing(clock, w, i, p2).world.books.pending
    ensures var w' := VisitRing(clock, w, i, p2).world;
            var ts, d' := HomeState(w, t), HomeState(w', t).deficits.At(p);
            && Waiting(w', t, p, e)
            && (d' == ts.deficits.At(p) ||
                (ts.deficits.At(p) < ChargeFor(e.task.cost) && d' == WrapI64(ts.deficits.At(p) + ts.quantum)))
  {
    hide BooksOk, TenantInvAt, TakeTurn, TurnPre, TurnOk, Homed, RingsKnown, LaneOk, AsI64, QuantumFor, WrapI64, ChargeFor;
    RingHead(cfg, w, i, p2);
    if w.shards[i].rings.At(p2)[0] == t && p2 == p {
      HomeTurnPre(cfg, w, t, p);
      TurnOfWaiting(cfg, clock, w.shards[i].tenants[t], w.books, w.samples, t, p, e);
    } else {
      VisitElsewhere(cfg, clock, w, i, p2, t, p, e);
    }
  }

  lemma StepKeepsHead(cfg: Config, clock: Clock, w: World, m: Move, t: Tenant, p: Priority, e: Entry)
    requires Inv(cfg, w) && Waiting(w, t, p, e) && e.id in Step(cfg, clock, w, m).books.pending
    ensures var w' := Step(cfg, clock, w, m);
            var ts, d' := HomeState(w, t), HomeState(w', t).deficits.At(p);
            && Waiting(w', t, p, e)
            && (d' == ts.deficits.At(p) ||
                (ts.deficits.At(p) < ChargeFor(e.task.cost) && d' == WrapI64(ts.deficits.At(p) + ts.quantum)))
  {
    hide BooksOk, TenantInvAt, Homed, RingsKnown, Enqueue, VisitRing, ChargeFor, QuantumFor, AsI64, RecordReject, WrapI64;
    match m
    case EnqueueMove(x, task) => EnqueueKeepsWaiting(cfg, clock, w, x, task, t, p, e);
    case VisitMove(i, p2) =>
      if CanVisit(w, i, p2) {
        VisitKeepsHead(cfg, clock, w, i, p2, t, p, e);
      }
    case GiveUpMove => RejectIsStatsOnly(w.books, TimedOut);
    case _ =>
  }

  lemma DeficitFits(cfg: Config, w: World, t: Tenant, p: Priority)
    requires Inv(cfg, w)
    ensures w.shards != [] && I64_MIN <= HomeState(w, t).deficits.At(p) <= I64_MAX
  {
    hide Inv, HomeState, WrapI64;
    InvAtLane(cfg, w, t, p);
  }

  /** A step dispatches only pending ids, and a waiting head only if its deficit covers it. */
  lemma StepDispatches(cfg: Config, clock: Clock, w: World, m: Move, id: Id)
    requires Inv(cfg, w) && id !in w.books.history.dispatched && id in Step(cfg, clock, w, m).books.history.dispatched
    ensures id in w.books.pending
    ensures forall t, p: Priority, e :: Waiting(w, t, p, e) && e.id == id ==> HomeState(w, t).deficits.At(p) >= ChargeFor(e.task.cost)
  {
    hide BooksOk, TenantInvAt, Homed, RingsKnown, Step, VisitRing, ChargeFor, WrapI64, HomeState, VisitOk, LaneOk, Listed;
    if m.VisitMove? && CanVisit(w, m.shard, m.priority) {
      VisitIsStep(cfg, clock, w, m.shard, m.priority);
      VisitLogs(cfg, clock, w, m.shard, m.priority);
      VisitDispatches(clock, w, m.shard, m.priority);
      var log := VisitRing(clock, w, m.shard, m.priority).world.books.history.log;
      ServedPays(w.books.history, w.books.history.log, log.visit);
      forall t, p: Priority, e | Waiting(w, t, p, e) && e.id == id ensures HomeState(w, t).deficits.At(p) >= ChargeFor(e.task.cost) {
        InvAtLane(cfg, w, t, p);
        HeadAccepted(HomeState(w, t).queues.At(p), t, p, w.books);
      }
    } else {
      OthersKeepLog(cfg, clock, w, m);
    }
  }

  /** A served visit is of the id's own lane, whose balance covers what the task is charged. */
  lemma ServedPays(h: History, before: Log, v: Visit)
    requires VisitOk(h, before, v)
    ensures v.outcome.Served? ==>
              && OfLane(h, v.outcome.id, v.tenant, v.priority)
              && ChargeFor(h.accepted[v.outcome.id].task.cost) <= Balance(before, v.tenant, v.priority)
  {
    hide WrapI64;
  }

  lemma HeadAccepted(q: seq<Entry>, t: Tenant, p: Priority, b: Books)
    requires LaneOk(q, t, p, b) && q != []
    ensures OfLane(b.history, q[0].id, t, p) && b.history.accepted[q[0].id].task == q[0].task
  {
    assert EntryOk(q[0], t, p, b);
  }

  lemma VisitDispatches(clock: Clock, w: World, i: nat, p: Priority)
    requires CanVisit(w, i, p)
    ensures VisitRing(clock, w, i, p).world.books.history.dispatched <= w.books.history.dispatched + w.books.pending
  {
    hide TakeTurn;
    var s := w.shards[i];
    var t := s.rings.At(p)[0];
    if t in s.tenants {
      TurnDispatches(clock, s.tenants[t], w.books, w.samples, t, p);
    }
  }

  lemma TurnDispatches(clock: Clock, ts: TenantState, b: Books, samples: nat, t: Tenant, p: Priority)
    ensures TakeTurn(clock, ts, b, samples, t, p).books.history.dispatched <= b.history.dispatched + b.pending
  {
    hide ChargeFor, QueueTime, DeadPrefix, Ids, WrapI64;
  }

  lemma {:induction false} NeverDispatchedAgain(cfg: Config, clock: Clock, w: World, moves: seq<Move>, id: Id)
    requires Inv(cfg, w) && id <= w.books.nextId && id !in w.books.pending && id !in w.books.history.dispatched
    ensures id !in Run(cfg, clock, w, moves).books.history.dispatched
    decreases |moves|
  {
    hide BooksOk, TenantInvAt, Homed, RingsKnown, Step, HomeState;
    if moves != [] {
      var w1 := Step(cfg, clock, w, moves[0]);
      StepKeeps(cfg, clock, w, moves[0]);
      StepNextId(cfg, clock, w, moves[0]);
      if id in w1.books.pending {
        StepPending(cfg, clock, w, moves[0], id);
      }
      if id in w1.books.history.dispatched {
        StepDispatches(cfg, clock, w, moves[0], id);
      }
      NeverDispatchedAgain(cfg, clock, w1, moves[1..], id);
    }
  }

  /** A head out of reach is never dispatched while its tenant's quantum stays. */
  lemma {:induction false} OutOfReachNeverDispatched(cfg: Config, clock: Clock, w: World, moves: seq<Move>, t: Tenant, p: Priority, e: Entry, quantum: int)
    requires Inv(cfg, w) && Waiting(w, t, p, e) && !InReach(w, t, p, e, quantum)
    requires SteadyRun(cfg, clock, w, moves, t, quantum)
    ensures e.id !in Run(cfg, clock, w, moves).books.history.dispatched
    decreases |moves|
  {
    hide BooksOk, TenantInvAt, Homed, RingsKnown, Step, ChargeFor, Waiting, HomeState, WrapI64, Payable;
    PendingNotDispatched(cfg, w, t, p, e);
    if moves != [] {
      var w1 := Step(cfg, clock, w, moves[0]);
      StepKeeps(cfg, clock, w, moves[0]);
      StepNextId(cfg, clock, w, moves[0]);
      DeficitFits(cfg, w, t, p);
      var cost, deficit := ChargeFor(e.task.cost), HomeState(w, t).deficits.At(p);
      assert cost <= I64_MAX by { ChargeFits(e.task.cost); }
      if e.id in w1.books.history.dispatched {
        StepDispatches(cfg, clock, w, moves[0], e.id);
        PaidNow(cost, deficit, quantum);
      }
      if e.id in w1.books.pending {
        StepKeepsHead(cfg, clock, w, moves[0], t, p, e);
        if deficit < cost {
          RoundsStep(cost, deficit, quantum);
        }
        OutOfReachNeverDispatched(cfg, clock, w1, moves[1..], t, p, e, quantum);
      } else {
        NeverDispatchedAgain(cfg, clock, w1, moves[1..], e.id);
      }
    }
  }

  lemma PendingNotDispatched(cfg: Config, w: World, t: Tenant, p: Priority, e: Entry)
    requires Inv(cfg, w) && Waiting(w, t, p, e)
    ensures e.id !in w.books.history.dispatched && e.id <= w.books.nextId
  {
    hide TenantInvAt, Homed, RingsKnown, CountersOk, HomeState;
    WaitingId(cfg, w, t, p, e);
    FatesOf(w.books);
  }

  /** Exactly which heads are dispatched by waiting: given enough pops, a head that is not expired, evicted
      or cancelled is dispatched if and only if its charge is within the peak of its lane, the highest
      deficit `i64` refills of the configured quantum ever reach. */
  lemma HeadDispatchedExactly(cfg: Config, clock: Clock, w: World, moves: seq<Move>, t: Tenant, p: Priority, e: Entry,
                              longest: nat, quantum: nat)
    requires Inv(cfg, w) && Waiting(w, t, p, e) && 0 < quantum <= U64_MAX
    requires PacedRun(cfg, clock, w, moves, t, p, longest, AsI64(quantum))
    requires var w' := Run(cfg, clock, w, moves);
             && e.id !in w'.books.history.expired + w'.books.history.evicted + w'.books.history.withdrawn
             && (InReach(w, t, p, e, AsI64(quantum)) ==>
                   Pops(w'.books.history.log, |w.shards|, t, p) - Pops(w.books.history.log, |w.shards|, t, p)
                   >= Budget(w, t, p, e, longest, AsI64(quantum)))
    ensures e.id in Run(cfg, clock, w, moves).books.history.dispatched <==>
            ChargeFor(e.task.cost) <= Peak(HomeState(w, t).deficits.At(p), quantum)
  {
    hide Inv, Step, Run, ChargeFor, Waiting, HomeState, WrapI64, Payable, Peak, PacedRun, SteadyRun, Pops, Rounds, Position;
    DeficitFits(cfg, w, t, p);
    CastBack(quantum);
    PayableExactly(ChargeFor(e.task.cost), HomeState(w, t).deficits.At(p), AsI64(quantum));
    if InReach(w, t, p, e, AsI64(quantum)) {
      HeadWaitsBoundedly(cfg, clock, w, moves, t, p, e, longest, AsI64(quantum));
    } else {
      PacedIsSteady(cfg, clock, w, moves, t, p, longest, AsI64(quantum));
      OutOfReachNeverDispatched(cfg, clock, w, moves, t, p, e, AsI64(quantum));
    }
  }
}
