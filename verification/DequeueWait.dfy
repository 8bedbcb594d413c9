/** How long the head of a lane waits, in dequeues of its shard and in calls of `try_dequeue`. */
module DequeueWait {
  import opened Types
  import opened Sums
  import opened World
  import opened Invariant
  import opened EnqueueProofs
  import opened Preservation
  import opened Delivery
  import opened Throughput
  import opened Refills
  import opened BoundedWait
  import opened Service
  import opened Affordability
  import opened Selection

  /** What moves the world: one shard's turn in `try_dequeue`, or any other lock section. */
  datatype Act = DequeueAct(shard: nat) | MoveAct(move: Move)

  function Acted(cfg: Config, clock: Clock, w: World, a: Act): (w': World)
    requires w.shards != []
    ensures |w'.shards| == |w.shards|
  {
    match a
    case DequeueAct(i) => if i < |w.shards| then DequeueShard(clock, w, i).world else w
    case MoveAct(m) => Step(cfg, clock, w, m)
  }

  function RunActs(cfg: Config, clock: Clock, w: World, acts: seq<Act>): (w': World)
    requires w.shards != []
    ensures |w'.shards| == |w.shards|
    decreases |acts|
  {
    if acts == [] then w else RunActs(cfg, clock, Acted(cfg, clock, w, acts[0]), acts[1..])
  }

  /** Ring visits happen inside dequeues only. */
  predicate ActOk(a: Act) {
    a.MoveAct? ==> !a.move.VisitMove?
  }

  lemma ActIsRun(cfg: Config, clock: Clock, w: World, a: Act) returns (moves: seq<Move>)
    requires w.shards != []
    ensures Acted(cfg, clock, w, a) == Run(cfg, clock, w, moves)
    ensures a.DequeueAct? ==> forall k :: 0 <= k < |moves| ==> moves[k].VisitMove?
    ensures a.MoveAct? ==> moves == [a.move]
  {
    hide DequeueShard, Step;
    match a
    case DequeueAct(i) =>
      moves := [];
      if i < |w.shards| {
        moves := DequeueShardIsRun(cfg, clock, w, i);
      }
    case MoveAct(m) =>
      moves := [m];
      assert moves[1..] == [];
  }

  lemma ActKeeps(cfg: Config, clock: Clock, w: World, a: Act)
    requires Inv(cfg, w)
    ensures w.shards != [] && Inv(cfg, Acted(cfg, clock, w, a))
    ensures LogInv(w) ==> LogInv(Acted(cfg, clock, w, a))
    ensures Extends(w.books.history.log, Acted(cfg, clock, w, a).books.history.log)
    ensures w.books.nextId <= Acted(cfg, clock, w, a).books.nextId
  {
    hide Inv, Acted, Run, LogInv, Extends;
    InvShards(cfg, w);
    var moves := ActIsRun(cfg, clock, w, a);
    RunKeeps(cfg, clock, w, moves);
    RunExtendsLog(cfg, clock, w, moves);
    RunNextId(cfg, clock, w, moves);
    if LogInv(w) {
      RunKeepsLog(cfg, clock, w, moves);
    }
  }

  lemma {:induction false} RunNextId(cfg: Config, clock: Clock, w: World, moves: seq<Move>)
    requires Inv(cfg, w)
    ensures w.shards != [] && w.books.nextId <= Run(cfg, clock, w, moves).books.nextId
    decreases |moves|
  {
    hide BooksOk, TenantInvAt, Homed, RingsKnown, Step;
    if moves != [] {
      StepKeeps(cfg, clock, w, moves[0]);
      StepNextId(cfg, clock, w, moves[0]);
      RunNextId(cfg, clock, Step(cfg, clock, w, moves[0]), moves[1..]);
    }
  }

  lemma {:induction false} ActsAreRun(cfg: Config, clock: Clock, w: World, acts: seq<Act>) returns (moves: seq<Move>)
    requires w.shards != []
    ensures RunActs(cfg, clock, w, acts) == Run(cfg, clock, w, moves)
    decreases |acts|
  {
    hide Acted, Step;
    moves := [];
    if acts != [] {
      moves := ActIsRun(cfg, clock, w, acts[0]);
      var more := ActsAreRun(cfg, clock, Acted(cfg, clock, w, acts[0]), acts[1..]);
      RunConcat(cfg, clock, w, moves, more);
      moves := moves + more;
    }
  }

  // ---------------------------------------------------------------- a dequeue no higher ring takes pops the ring

  /** A ring of higher priority pays, so that a dequeue of shard `i` does not come to ring `p`. */
  ghost predicate HigherPays(clock: Clock, w: World, i: nat, p: Priority)
    requires i < |w.shards|
  {
    exists p2: Priority :: p2.Index() < p.Index() && RingPays(clock, w, i, p2)
  }

  lemma {:induction false} PopsGrow(past: Log, log: Log, n: nat, t: Tenant, p: Priority)
    requires Extends(past, log) && n > 0
    ensures Pops(past, n, t, p) <= Pops(log, n, t, p)
  {
    if log != past {
      PopsGrow(past, log.before, n, t, p);
    }
  }

  lemma {:induction false} PopSince(past: Log, log: Log, n: nat, t: Tenant, p: Priority, k: nat)
    requires Extends(past, log) && n > 0 && k < |Since(past, log)|
    requires Since(past, log)[k].priority == p && ShardIndex(n, Since(past, log)[k].tenant) == ShardIndex(n, t)
    ensures Pops(past, n, t, p) < Pops(log, n, t, p)
  {
    PopsGrow(past, log.before, n, t, p);
    if k < |Since(past, log)| - 1 {
      PopSince(past, log.before, n, t, p, k);
    }
  }

  lemma RouteHas(s: Shard, t: Tenant, p: Priority) returns (k: nat)
    requires t in s.rings.At(p)
    ensures k < |Route(s)| && Route(s)[k] == Stop(t, p)
  {
    var j :| 0 <= j < |s.rings.At(p)| && s.rings.At(p)[j] == t;
    k := j + match p case High => 0 case Normal => |s.rings.high| case Low => |s.rings.high| + |s.rings.normal|;
  }

  lemma RouteInRings(s: Shard, k: nat)
    requires k < |Route(s)|
    ensures Route(s)[k].tenant in s.rings.At(Route(s)[k].priority)
  {
  }

  lemma StopIsHome(cfg: Config, w: World, i: nat, k: nat)
    requires Inv(cfg, w) && i < |w.shards| && k < |Route(w.shards[i])|
    ensures ShardIndex(|w.shards|, Route(w.shards[i])[k].tenant) == i
  {
    hide BooksOk, TenantInvAt, Route;
    RouteInRings(w.shards[i], k);
  }

  /** Which visit of a walk is at ring `p`: that of a given entry, or the last one, which serves. */
  lemma WalkReaches(vs: seq<Visit>, s: Shard, served: Option<(Tenant, Entry)>, t: Tenant, p: Priority) returns (k: nat)
    requires Walked(vs, Route(s), served) && t in s.rings.At(p)
    requires served.Some? ==> served.value.1.task.priority.Index() >= p.Index()
    ensures k < |vs| <= |Route(s)| && vs[k].priority == p && vs[k].tenant == Route(s)[k].tenant
  {
    hide Route;
    k := RouteHas(s, t, p);
    if served.Some? {
      var last := |vs| - 1;
      if served.value.1.task.priority == p {
        k := last;
      } else {
        IndexDecides(served.value.1.task.priority, p);
        RouteDescends(s, k, last);
        assert vs[..last][k] == vs[k];
      }
    }
  }

  lemma IndexDecides(p: Priority, p2: Priority)
    ensures p.Index() == p2.Index() ==> p == p2
  {
  }

  lemma ServedNotHigher(cfg: Config, clock: Clock, w: World, i: nat, p: Priority)
    requires Inv(cfg, w) && i < |w.shards| && NonDecreasing(clock) && !HigherPays(clock, w, i, p)
    ensures var served := DequeueShard(clock, w, i).served;
            served.Some? ==> served.value.1.task.priority.Index() >= p.Index()
  {
    hide Inv, DequeueShard, NonDecreasing, RingPays;
    var served := DequeueShard(clock, w, i).served;
    if served.Some? {
      PriorityServedExactly(cfg, clock, w, i, served.value.1.task.priority);
    }
  }

  /** A dequeue of the tenant's shard pops its ring if no higher ring pays. */
  lemma DequeuePops(cfg: Config, clock: Clock, w: World, t: Tenant, p: Priority)
    requires Inv(cfg, w) && NonDecreasing(clock) && w.shards != [] && t in RingOf(w, t, p)
    requires !HigherPays(clock, w, ShardIndex(|w.shards|, t), p)
    ensures var n, w' := |w.shards|, DequeueShard(clock, w, ShardIndex(|w.shards|, t)).world;
            Pops(w.books.history.log, n, t, p) < Pops(w'.books.history.log, n, t, p)
  {
    hide Inv, DequeueShard, NonDecreasing, HigherPays, Walked, Route, Pops;
    var i := ShardIndex(|w.shards|, t);
    var v, past := DequeueShard(clock, w, i), w.books.history.log;
    ServedNotHigher(cfg, clock, w, i, p);
    DequeueFollowsRoute(cfg, clock, w, i);
    var k := WalkReaches(Since(past, v.world.books.history.log), w.shards[i], v.served, t, p);
    StopIsHome(cfg, w, i, k);
    PopSince(past, v.world.books.history.log, |w.shards|, t, p, k);
  }

  // ---------------------------------------------------------------- a head's budget, in dequeues

  /** Visits lengthen no ring and change no quantum. */
  lemma {:induction false} VisitsArePaced(cfg: Config, clock: Clock, w: World, moves: seq<Move>, t: Tenant, p: Priority,
                                          longest: nat, quantum: int)
    requires Inv(cfg, w) && w.shards != [] && Paced(w, t, p, longest, quantum) && forall k :: 0 <= k < |moves| ==> moves[k].VisitMove?
    ensures PacedRun(cfg, clock, w, moves, t, p, longest, quantum)
    decreases |moves|
  {
    hide BooksOk, TenantInvAt, Homed, RingsKnown, VisitRing, HomeState;
    if moves != [] {
      var m := moves[0];
      if CanVisit(w, m.shard, m.priority) {
        VisitKeeps(cfg, clock, w, m.shard, m.priority);
        VisitTold(cfg, clock, w, m.shard, m.priority);
        RingAfter(clock, w, m.shard, m.priority);
      }
      VisitsArePaced(cfg, clock, Step(cfg, clock, w, m), moves[1..], t, p, longest, quantum);
    }
  }

  /** A chance of lane (t, p): a dequeue of its shard at whose start no ring above it pays. */
  ghost predicate Chance(clock: Clock, w: World, a: Act, t: Tenant, p: Priority)
    requires w.shards != []
  {
    a == DequeueAct(ShardIndex(|w.shards|, t)) && !HigherPays(clock, w, a.shard, p)
  }

  /** A dequeue of its shard that a higher ring takes. */
  ghost predicate Blocked(clock: Clock, w: World, a: Act, t: Tenant, p: Priority)
    requires w.shards != []
  {
    a == DequeueAct(ShardIndex(|w.shards|, t)) && HigherPays(clock, w, a.shard, p)
  }

  ghost function Chances(cfg: Config, clock: Clock, w: World, acts: seq<Act>, t: Tenant, p: Priority): nat
    requires w.shards != []
    decreases |acts|
  {
    if acts == [] then 0
    else (if Chance(clock, w, acts[0], t, p) then 1 else 0) + Chances(cfg, clock, Acted(cfg, clock, w, acts[0]), acts[1..], t, p)
  }

  ghost function Blocks(cfg: Config, clock: Clock, w: World, acts: seq<Act>, t: Tenant, p: Priority): nat
    requires w.shards != []
    decreases |acts|
  {
    if acts == [] then 0
    else (if Blocked(clock, w, acts[0], t, p) then 1 else 0) + Blocks(cfg, clock, Acted(cfg, clock, w, acts[0]), acts[1..], t, p)
  }

  /** A dequeue is blocked if and only if it hands out a task of higher priority. */
  lemma BlockedExactly(cfg: Config, clock: Clock, w: World, t: Tenant, p: Priority)
    requires Inv(cfg, w) && NonDecreasing(clock) && w.shards != []
    ensures var i := ShardIndex(|w.shards|, t);
            var served := DequeueShard(clock, w, i).served;
            Blocked(clock, w, DequeueAct(i), t, p) <==> served.Some? && served.value.1.task.priority.Index() < p.Index()
  {
    hide Inv, DequeueShard, NonDecreasing, RingPays;
    var i := ShardIndex(|w.shards|, t);
    PriorityServedExactly(cfg, clock, w, i, High);
    PriorityServedExactly(cfg, clock, w, i, Normal);
    PriorityServedExactly(cfg, clock, w, i, Low);
  }

  /** Along the run, between acts, the lane's quantum is `quantum` and its ring has at most `longest` entries. */
  ghost predicate PacedActs(cfg: Config, clock: Clock, w: World, acts: seq<Act>, t: Tenant, p: Priority, longest: nat, quantum: int)
    requires w.shards != []
    decreases |acts|
  {
    && Paced(w, t, p, longest, quantum)
    && (acts != [] ==> PacedActs(cfg, clock, Acted(cfg, clock, w, acts[0]), acts[1..], t, p, longest, quantum))
  }

  /** While the head stays pending, each chance uses up one unit of its budget. */
  lemma ActUsesBudget(cfg: Config, clock: Clock, w: World, a: Act, t: Tenant, p: Priority, e: Entry, longest: nat, quantum: int)
    requires Inv(cfg, w) && NonDecreasing(clock) && w.shards != []
    requires Waiting(w, t, p, e) && InReach(w, t, p, e, quantum) && Paced(w, t, p, longest, quantum)
    requires Paced(Acted(cfg, clock, w, a), t, p, longest, quantum)
    requires e.id in Acted(cfg, clock, w, a).books.pending
    ensures var w' := Acted(cfg, clock, w, a);
            && Waiting(w', t, p, e) && InReach(w', t, p, e, quantum)
            && (if Chance(clock, w, a, t, p) then 1 else 0) + Budget(w', t, p, e, longest, quantum) <= Budget(w, t, p, e, longest, quantum)
  {
    hide Inv, NonDecreasing, Waiting, InReach, Budget, Run, DequeueShard, Step, Pops, HigherPays, Extends, Paced;
    var moves := ActIsSteady(cfg, clock, w, a, t, p, longest, quantum);
    var w' := Acted(cfg, clock, w, a);
    ActKeeps(cfg, clock, w, a);
    PopsGrow(w.books.history.log, w'.books.history.log, |w.shards|, t, p);
    RunUsesBudget(cfg, clock, w, moves, t, p, e, longest, quantum);
    if Chance(clock, w, a, t, p) {
      WaitingIsListed(cfg, w, t, p, e);
      DequeuePops(cfg, clock, w, t, p);
    }
  }

  lemma OneMovePaced(cfg: Config, clock: Clock, w: World, m: Move, t: Tenant, p: Priority, longest: nat, quantum: int)
    requires w.shards != [] && Paced(w, t, p, longest, quantum) && Paced(Step(cfg, clock, w, m), t, p, longest, quantum)
    ensures PacedRun(cfg, clock, w, [m], t, p, longest, quantum)
  {
    hide Step, Paced;
    assert [m][1..] == [];
    assert PacedRun(cfg, clock, Step(cfg, clock, w, m), [], t, p, longest, quantum);
  }

  lemma ActsPending(cfg: Config, clock: Clock, w: World, acts: seq<Act>, id: Id)
    requires Inv(cfg, w) && w.shards != [] && id <= w.books.nextId && id in RunActs(cfg, clock, w, acts).books.pending
    ensures id in w.books.pending
  {
    hide Inv, RunActs, Run;
    var moves := ActsAreRun(cfg, clock, w, acts);
    RunPending(cfg, clock, w, moves, id);
  }

  lemma {:induction false} ActsUseBudget(cfg: Config, clock: Clock, w: World, acts: seq<Act>, t: Tenant, p: Priority, e: Entry,
                                         longest: nat, quantum: int)
    requires Inv(cfg, w) && NonDecreasing(clock) && w.shards != []
    requires Waiting(w, t, p, e) && InReach(w, t, p, e, quantum)
    requires PacedActs(cfg, clock, w, acts, t, p, longest, quantum)
    requires e.id in RunActs(cfg, clock, w, acts).books.pending
    ensures Chances(cfg, clock, w, acts, t, p) < Budget(w, t, p, e, longest, quantum)
    decreases |acts|
  {
    hide Inv, NonDecreasing, Waiting, InReach, Acted, Paced, Position, Rounds, Chance, ChargeFor, HomeState;
    if acts != [] {
      var w1 := Acted(cfg, clock, w, acts[0]);
      WaitingId(cfg, w, t, p, e);
      ActKeeps(cfg, clock, w, acts[0]);
      ActsPending(cfg, clock, w1, acts[1..], e.id);
      assert Paced(w1, t, p, longest, quantum);
      ActUsesBudget(cfg, clock, w, acts[0], t, p, e, longest, quantum);
      ActsUseBudget(cfg, clock, w1, acts[1..], t, p, e, longest, quantum);
    }
  }

  /** Bounded wait in dequeues: whatever else happens, a head that r refills make affordable, at position k of
      its ring, is no longer waiting after k + 1 + N * r dequeues of its shard at whose start no higher ring
      pays, N being the longest its ring gets; and it met one of the four fates. */
  lemma HeadWaitsInDequeues(cfg: Config, clock: Clock, w: World, acts: seq<Act>, t: Tenant, p: Priority, e: Entry,
                            longest: nat, quantum: int)
    requires Inv(cfg, w) && NonDecreasing(clock) && w.shards != []
    requires Waiting(w, t, p, e) && InReach(w, t, p, e, quantum)
    requires PacedActs(cfg, clock, w, acts, t, p, longest, quantum)
    requires Chances(cfg, clock, w, acts, t, p)
             >= Position(RingOf(w, t, p), t) + 1 + longest * Rounds(ChargeFor(e.task.cost), HomeState(w, t).deficits.At(p), quantum)
    ensures var b := RunActs(cfg, clock, w, acts).books;
            && e.id !in b.pending
            && (e.id in b.history.dispatched || e.id in b.history.expired || e.id in b.history.evicted || e.id in b.history.withdrawn)
  {
    hide Inv, NonDecreasing, RunActs, Run, Waiting, Position, Rounds, ChargeFor, HomeState, PacedActs, Chances;
    var w' := RunActs(cfg, clock, w, acts);
    if e.id in w'.books.pending {
      ActsUseBudget(cfg, clock, w, acts, t, p, e, longest, quantum);
    }
    var moves := ActsAreRun(cfg, clock, w, acts);
    RunKeeps(cfg, clock, w, moves);
    WaitingId(cfg, w, t, p, e);
    RunAccepted(cfg, clock, w, moves, e.id);
    GoneHasFate(cfg, w', e.id);
  }

  // ---------------------------------------------------------------- and nothing but a chance serves the lane

  lemma {:induction false} NewlyServed(h: History, past: Log, log: Log, id: Id) returns (k: nat)
    requires Extends(past, log) && LogOk(h, log) && id in ServedIds(log) && id !in ServedIds(past)
    ensures k < |Since(past, log)|
    ensures var v := Since(past, log)[k];
            v.outcome.Served? && v.outcome.id == id && OfLane(h, id, v.tenant, v.priority)
  {
    if id in ServedIds(log.before) {
      k := NewlyServed(h, past, log.before, id);
    } else {
      k := |Since(past, log)| - 1;
    }
  }

  /** Of a walk only the last visit serves. */
  lemma LastServes(vs: seq<Visit>, route: seq<Stop>, served: Option<(Tenant, Entry)>, k: nat)
    requires Walked(vs, route, served) && k < |vs| && vs[k].outcome.Served?
    ensures served.Some? && k < |route| && vs[k].tenant == route[k].tenant && vs[k].priority == served.value.1.task.priority
  {
    if served.Some? {
      forall j | 0 <= j < |vs| - 1 ensures !vs[j].outcome.Served? {
        assert vs[..|vs| - 1][j] == vs[j];
      }
    }
  }

  /** A task is handed out only at a chance of its lane. */
  lemma ActDispatches(cfg: Config, clock: Clock, w: World, a: Act, id: Id, t: Tenant, p: Priority)
    requires Inv(cfg, w) && LogInv(w) && NonDecreasing(clock) && w.shards != [] && ActOk(a)
    requires OfLane(w.books.history, id, t, p) && id !in w.books.history.dispatched
    requires id in Acted(cfg, clock, w, a).books.history.dispatched
    ensures Chance(clock, w, a, t, p)
  {
    hide Inv, NonDecreasing, DequeueShard, Step, Run, Extends, LogOk, ServedIds, Walked, Route, RingPays;
    ActKeeps(cfg, clock, w, a);
    match a
    case DequeueAct(i) =>
      if i < |w.shards| {
        var v, h := DequeueShard(clock, w, i), w.books.history;
        var h' := v.world.books.history;
        var k := NewlyServed(h', h.log, h'.log, id);
        DequeueFollowsRoute(cfg, clock, w, i);
        LastServes(Since(h.log, h'.log), Route(w.shards[i]), v.served, k);
        StopIsHome(cfg, w, i, k);
        var moves := DequeueShardIsRun(cfg, clock, w, i);
        RunAccepted(cfg, clock, w, moves, id);
        PriorityServedExactly(cfg, clock, w, i, p);
      }
    case MoveAct(m) =>
      OthersKeepLog(cfg, clock, w, m);
  }

  ghost predicate ActsOk(acts: seq<Act>) {
    forall k :: 0 <= k < |acts| ==> ActOk(acts[k])
  }

  /** While every dequeue of its shard is taken by a higher ring, no task of the lane is handed out. */
  lemma {:induction false} NoChanceNeverDispatched(cfg: Config, clock: Clock, w: World, acts: seq<Act>, id: Id, t: Tenant, p: Priority)
    requires Inv(cfg, w) && LogInv(w) && NonDecreasing(clock) && w.shards != [] && ActsOk(acts)
    requires OfLane(w.books.history, id, t, p) && id !in w.books.history.dispatched
    requires Chances(cfg, clock, w, acts, t, p) == 0
    ensures id !in RunActs(cfg, clock, w, acts).books.history.dispatched
    decreases |acts|
  {
    hide Inv, LogInv, NonDecreasing, Acted, Chance;
    if acts != [] {
      var w1 := Acted(cfg, clock, w, acts[0]);
      ActKeeps(cfg, clock, w, acts[0]);
      ActKeepsLane(cfg, clock, w, acts[0], id, t, p);
      if id in w1.books.history.dispatched {
        ActDispatches(cfg, clock, w, acts[0], id, t, p);
      }
      NoChanceNeverDispatched(cfg, clock, w1, acts[1..], id, t, p);
    }
  }

  lemma ActKeepsLane(cfg: Config, clock: Clock, w: World, a: Act, id: Id, t: Tenant, p: Priority)
    requires Inv(cfg, w) && w.shards != [] && OfLane(w.books.history, id, t, p)
    ensures OfLane(Acted(cfg, clock, w, a).books.history, id, t, p)
  {
    hide Inv, Acted, Run;
    var moves := ActIsRun(cfg, clock, w, a);
    RunAccepted(cfg, clock, w, moves, id);
  }

  lemma {:induction false} SteadyConcat(cfg: Config, clock: Clock, w: World, a: seq<Move>, b: seq<Move>, t: Tenant, quantum: int)
    requires w.shards != [] && SteadyRun(cfg, clock, w, a, t, quantum) && SteadyRun(cfg, clock, Run(cfg, clock, w, a), b, t, quantum)
    ensures SteadyRun(cfg, clock, w, a + b, t, quantum)
    decreases |a|
  {
    hide Step, HomeState;
    if a == [] {
      assert a + b == b;
    } else {
      assert (a + b)[0] == a[0] && (a + b)[1..] == a[1..] + b;
      SteadyConcat(cfg, clock, Step(cfg, clock, w, a[0]), a[1..], b, t, quantum);
    }
  }

  lemma ActIsSteady(cfg: Config, clock: Clock, w: World, a: Act, t: Tenant, p: Priority, longest: nat, quantum: int) returns (moves: seq<Move>)
    requires Inv(cfg, w) && w.shards != [] && Paced(w, t, p, longest, quantum) && Paced(Acted(cfg, clock, w, a), t, p, longest, quantum)
    ensures Acted(cfg, clock, w, a) == Run(cfg, clock, w, moves) && PacedRun(cfg, clock, w, moves, t, p, longest, quantum)
    ensures SteadyRun(cfg, clock, w, moves, t, quantum)
  {
    hide Inv, Paced, PacedRun, SteadyRun, Run, DequeueShard, Step;
    moves := ActIsRun(cfg, clock, w, a);
    if a.DequeueAct? {
      VisitsArePaced(cfg, clock, w, moves, t, p, longest, quantum);
    } else {
      OneMovePaced(cfg, clock, w, a.move, t, p, longest, quantum);
    }
    PacedIsSteady(cfg, clock, w, moves, t, p, longest, quantum);
  }

  lemma {:induction false} ActsAreSteady(cfg: Config, clock: Clock, w: World, acts: seq<Act>, t: Tenant, p: Priority,
                                         longest: nat, quantum: int) returns (moves: seq<Move>)
    requires Inv(cfg, w) && w.shards != [] && PacedActs(cfg, clock, w, acts, t, p, longest, quantum)
    ensures RunActs(cfg, clock, w, acts) == Run(cfg, clock, w, moves) && SteadyRun(cfg, clock, w, moves, t, quantum)
    decreases |acts|
  {
    hide Inv, Acted, Step, HomeState, PacedRun;
    moves := [];
    if acts != [] {
      var w1 := Acted(cfg, clock, w, acts[0]);
      ActKeeps(cfg, clock, w, acts[0]);
      moves := ActIsSteady(cfg, clock, w, acts[0], t, p, longest, quantum);
      var more := ActsAreSteady(cfg, clock, w1, acts[1..], t, p, longest, quantum);
      RunConcat(cfg, clock, w, moves, more);
      SteadyConcat(cfg, clock, w, moves, more, t, quantum);
      moves := moves + more;
    }
  }

  /** Exactly which heads are handed out by waiting. Let the head of a lane be neither expired, evicted nor
      cancelled, and let the run hold either no dequeue of its shard that comes to its ring, or at least as many
      as the head's budget if refills can reach its charge. Then it is handed out if and only if there was such
      a dequeue and its charge is within the peak of its lane, the highest deficit `i64` refills ever reach. */
  lemma HandedOutExactly(cfg: Config, clock: Clock, w: World, acts: seq<Act>, t: Tenant, p: Priority, e: Entry,
                         longest: nat, quantum: nat)
    requires Inv(cfg, w) && LogInv(w) && NonDecreasing(clock) && w.shards != [] && ActsOk(acts)
    requires Waiting(w, t, p, e) && 0 < quantum <= U64_MAX
    requires PacedActs(cfg, clock, w, acts, t, p, longest, AsI64(quantum))
    requires var h := RunActs(cfg, clock, w, acts).books.history;
             e.id !in h.expired + h.evicted + h.withdrawn
    requires var chances := Chances(cfg, clock, w, acts, t, p);
             chances == 0 || (InReach(w, t, p, e, AsI64(quantum)) ==> chances >= Budget(w, t, p, e, longest, AsI64(quantum)))
    ensures e.id in RunActs(cfg, clock, w, acts).books.history.dispatched <==>
            Chances(cfg, clock, w, acts, t, p) > 0 && ChargeFor(e.task.cost) <= Peak(HomeState(w, t).deficits.At(p), quantum)
  {
    hide Inv, LogInv, NonDecreasing, RunActs, Run, ChargeFor, Waiting, HomeState, WrapI64, Payable, Peak, PacedActs, SteadyRun,
      Chances, Rounds, Position, ActsOk;
    DeficitFits(cfg, w, t, p);
    CastBack(quantum);
    PayableExactly(ChargeFor(e.task.cost), HomeState(w, t).deficits.At(p), AsI64(quantum));
    if Chances(cfg, clock, w, acts, t, p) == 0 {
      PendingNotDispatched(cfg, w, t, p, e);
      WaitingLane(cfg, w, t, p, e);
      NoChanceNeverDispatched(cfg, clock, w, acts, e.id, t, p);
    } else if InReach(w, t, p, e, AsI64(quantum)) {
      HeadWaitsInDequeues(cfg, clock, w, acts, t, p, e, longest, AsI64(quantum));
    } else {
      var moves := ActsAreSteady(cfg, clock, w, acts, t, p, longest, AsI64(quantum));
      OutOfReachNeverDispatched(cfg, clock, w, moves, t, p, e, AsI64(quantum));
    }
  }

  lemma WaitingLane(cfg: Config, w: World, t: Tenant, p: Priority, e: Entry)
    requires Inv(cfg, w) && w.shards != [] && Waiting(w, t, p, e)
    ensures OfLane(w.books.history, e.id, t, p)
  {
    hide Inv, HomeState, LaneOk;
    InvAtLane(cfg, w, t, p);
    HeadAccepted(HomeState(w, t).queues.At(p), t, p, w.books);
  }

  // ---------------------------------------------------------------- in calls of the public operations

  /** The shards one call of `try_dequeue` dequeues from. */
  function LoopActs(clock: Clock, s: State, remaining: nat): seq<Act>
    requires s.Shaped()
    decreases remaining
  {
    if remaining == 0 || s.activeShards == [] then []
    else
      var i := s.activeShards[0];
      assert i in s.activeShards;
      var v := DequeueShard(clock, s.world, i);
      [DequeueAct(i)] + if v.served.Some? then [] else LoopActs(clock, Settled(s, i, v.world), remaining - 1)
  }

  function ActsOf(clock: Clock, s: State, op: Op): seq<Act>
    requires s.Shaped()
  {
    match op
    case SubmitOp(t, task) => if s.shutdown == Open then [MoveAct(EnqueueMove(t, task))] else []
    case DequeueOp => if s.shutdown == Immediate then [] else LoopActs(clock, s, |s.activeShards|)
    case CloseOp(_) => []
    case WorldOp(m) => [MoveAct(m)]
  }

  function ActsOfAll(cfg: Config, clock: Clock, s: State, ops: seq<Op>): seq<Act>
    requires s.Shaped()
    decreases |ops|
  {
    if ops == [] then [] else ActsOf(clock, s, ops[0]) + ActsOfAll(cfg, clock, Perform(cfg, clock, s, ops[0]), ops[1..])
  }

  lemma {:induction false} RunActsConcat(cfg: Config, clock: Clock, w: World, a: seq<Act>, b: seq<Act>)
    requires w.shards != []
    ensures RunActs(cfg, clock, w, a + b) == RunActs(cfg, clock, RunActs(cfg, clock, w, a), b)
    decreases |a|
  {
    hide Acted;
    if a == [] {
      assert a + b == b;
    } else {
      assert (a + b)[0] == a[0] && (a + b)[1..] == a[1..] + b;
      RunActsConcat(cfg, clock, Acted(cfg, clock, w, a[0]), a[1..], b);
    }
  }

  lemma OneAct(cfg: Config, clock: Clock, w: World, a: Act)
    requires w.shards != []
    ensures RunActs(cfg, clock, w, [a]) == Acted(cfg, clock, w, a)
  {
    hide Acted;
    assert [a][1..] == [];
  }

  lemma {:induction false} LoopIsActs(cfg: Config, clock: Clock, s: State, remaining: nat)
    requires s.Shaped()
    ensures RunActs(cfg, clock, s.world, LoopActs(clock, s, remaining)) == DequeueLoop(clock, s, remaining).0.world
    ensures ActsOk(LoopActs(clock, s, remaining))
    decreases remaining
  {
    hide DequeueShard, RunActs, Settled;
    NoActs(cfg, clock, s.world);
    if remaining > 0 && s.activeShards != [] {
      var i := s.activeShards[0];
      assert i in s.activeShards;
      var v := DequeueShard(clock, s.world, i);
      var s1 := Settled(s, i, v.world);
      SettledShape(s, i, v.world);
      OneAct(cfg, clock, s.world, DequeueAct(i));
      assert Acted(cfg, clock, s.world, DequeueAct(i)) == v.world;
      assert [DequeueAct(i)] + [] == [DequeueAct(i)];
      if v.served.None? {
        LoopIsActs(cfg, clock, s1, remaining - 1);
        RunActsConcat(cfg, clock, s.world, [DequeueAct(i)], LoopActs(clock, s1, remaining - 1));
      }
    }
  }

  lemma OpIsActs(cfg: Config, clock: Clock, s: State, op: Op)
    requires s.Shaped()
    ensures RunActs(cfg, clock, s.world, ActsOf(clock, s, op)) == Perform(cfg, clock, s, op).world
    ensures OpOk(op) ==> ActsOk(ActsOf(clock, s, op))
  {
    hide DequeueLoop, LoopActs, RunActs, Step, Submit;
    match op
    case SubmitOp(t, task) =>
      if s.shutdown == Open {
        SubmitIsMove(cfg, clock, s, t, task);
        OneAct(cfg, clock, s.world, MoveAct(EnqueueMove(t, task)));
      } else {
        NothingSubmitted(cfg, clock, s, t, task);
      }
    case DequeueOp =>
      if s.shutdown == Immediate {
        NoActs(cfg, clock, s.world);
      } else {
        LoopIsActs(cfg, clock, s, |s.activeShards|);
      }
    case CloseOp(_) => NoActs(cfg, clock, s.world);
    case WorldOp(m) => OneAct(cfg, clock, s.world, MoveAct(m));
  }

  lemma NoActs(cfg: Config, clock: Clock, w: World)
    requires w.shards != []
    ensures RunActs(cfg, clock, w, []) == w
  {
  }

  lemma NothingSubmitted(cfg: Config, clock: Clock, s: State, t: Tenant, task: Task)
    requires s.Shaped() && s.shutdown != Open
    ensures Submit(cfg, clock, s, t, task).0 == s && RunActs(cfg, clock, s.world, []) == s.world
  {
  }

  /** Operations, told act by act. */
  lemma {:induction false} PerformAllIsActs(cfg: Config, clock: Clock, s: State, ops: seq<Op>)
    requires s.Shaped()
    ensures RunActs(cfg, clock, s.world, ActsOfAll(cfg, clock, s, ops)) == PerformAll(cfg, clock, s, ops).world
    ensures (forall k :: 0 <= k < |ops| ==> OpOk(ops[k])) ==> ActsOk(ActsOfAll(cfg, clock, s, ops))
    decreases |ops|
  {
    hide Perform, ActsOf, OpOk;
    if ops != [] {
      var s1 := Perform(cfg, clock, s, ops[0]);
      OpIsActs(cfg, clock, s, ops[0]);
      PerformAllIsActs(cfg, clock, s1, ops[1..]);
      RunActsConcat(cfg, clock, s.world, ActsOf(clock, s, ops[0]), ActsOfAll(cfg, clock, s1, ops[1..]));
    }
  }

  // ---------------------------------------------------------------- how many calls reach a shard

  /** Calls of `try_dequeue`. */
  function Calls(ops: seq<Op>): nat {
    if ops == [] then 0 else (if ops[0].DequeueOp? then 1 else 0) + Calls(ops[1..])
  }

  /** Dequeues of shard `i`. */
  function DequeuesOf(acts: seq<Act>, i: nat): nat {
    if acts == [] then 0 else (if acts[0].DequeueAct? && acts[0].shard == i then 1 else 0) + DequeuesOf(acts[1..], i)
  }

  lemma {:induction false} DequeuesConcat(a: seq<Act>, b: seq<Act>, i: nat)
    ensures DequeuesOf(a + b, i) == DequeuesOf(a, i) + DequeuesOf(b, i)
  {
    if a == [] {
      assert a + b == b;
    } else {
      assert (a + b)[0] == a[0] && (a + b)[1..] == a[1..] + b;
      DequeuesConcat(a[1..], b, i);
    }
  }

  lemma {:induction false} ChanceOrBlocked(cfg: Config, clock: Clock, w: World, acts: seq<Act>, t: Tenant, p: Priority)
    requires w.shards != []
    ensures Chances(cfg, clock, w, acts, t, p) + Blocks(cfg, clock, w, acts, t, p) == DequeuesOf(acts, ShardIndex(|w.shards|, t))
    decreases |acts|
  {
    hide Acted, HigherPays;
    if acts != [] {
      ChanceOrBlocked(cfg, clock, Acted(cfg, clock, w, acts[0]), acts[1..], t, p);
    }
  }

  lemma {:induction false} RunKeepsWaiting(cfg: Config, clock: Clock, w: World, moves: seq<Move>, t: Tenant, p: Priority, e: Entry)
    requires Inv(cfg, w) && Waiting(w, t, p, e) && e.id in Run(cfg, clock, w, moves).books.pending
    ensures Waiting(Run(cfg, clock, w, moves), t, p, e)
    decreases |moves|
  {
    hide BooksOk, TenantInvAt, Homed, RingsKnown, Step, HomeState, Waiting, ChargeFor, WrapI64;
    if moves != [] {
      var w1 := Step(cfg, clock, w, moves[0]);
      StepKeeps(cfg, clock, w, moves[0]);
      StepNextId(cfg, clock, w, moves[0]);
      WaitingId(cfg, w, t, p, e);
      RunPending(cfg, clock, w1, moves[1..], e.id);
      StepKeepsHead(cfg, clock, w, moves[0], t, p, e);
      RunKeepsWaiting(cfg, clock, w1, moves[1..], t, p, e);
    }
  }

  /** The shard of a waiting head is in the list. */
  lemma HomeIsListed(cfg: Config, s: State, t: Tenant, p: Priority, e: Entry)
    requires StateInv(cfg, s) && Waiting(s.world, t, p, e)
    ensures ShardIndex(|s.world.shards|, t) in s.activeShards
    ensures Position(s.activeShards, ShardIndex(|s.world.shards|, t)) < |s.activeShards| <= |s.world.shards|
  {
    hide Inv, Waiting;
    WaitingIsListed(cfg, s.world, t, p, e);
    RingNotEmpty(s.world, t, p);
    assert forall k :: 0 <= k < |s.activeShards| ==> s.activeShards[k] in s.activeShards;
    DistinctBelow(s.activeShards, |s.world.shards|);
  }

  lemma RingNotEmpty(w: World, t: Tenant, p: Priority)
    requires w.shards != [] && t in RingOf(w, t, p)
    ensures !RingsEmpty(w.shards[ShardIndex(|w.shards|, t)])
  {
  }

  /** A shard popped and settled: every other listed shard comes one place forward. */
  lemma SettledPosition(s: State, i: nat, w: World, j: nat)
    requires s.Shaped() && s.activeShards != [] && s.activeShards[0] == i && i < |w.shards| == |s.world.shards|
    requires j in s.activeShards && j != i
    ensures Position(s.activeShards, j) == 1 + Position(Settled(s, i, w).activeShards, j)
  {
    PositionAfterPop(s.activeShards, j);
    PositionAfterPush(s.activeShards[1..], i, j);
    assert s.activeShards[1..] + [] == s.activeShards[1..];
  }

  /** One shard's turn in the loop, with the head still pending after it. */
  lemma SettledKeepsWaiting(cfg: Config, clock: Clock, s: State, t: Tenant, p: Priority, e: Entry)
    requires StateInv(cfg, s) && s.activeShards != [] && Waiting(s.world, t, p, e)
    requires s.activeShards[0] in s.activeShards && e.id in DequeueShard(clock, s.world, s.activeShards[0]).world.books.pending
    ensures var s' := Settled(s, s.activeShards[0], DequeueShard(clock, s.world, s.activeShards[0]).world);
            && StateInv(cfg, s') && |s'.world.shards| == |s.world.shards|
            && Waiting(s'.world, t, p, e)
  {
    hide Inv, Waiting, DequeueShard, Run, ListOk;
    var i := s.activeShards[0];
    var moves := DequeueShardIsRun(cfg, clock, s.world, i);
    RunKeeps(cfg, clock, s.world, moves);
    RunKeepsWaiting(cfg, clock, s.world, moves, t, p, e);
    DequeueStaysInShard(clock, s.world, i);
    SettledKeepsList(s, i, DequeueShard(clock, s.world, i).world);
  }

  /** One call of `try_dequeue` dequeues from the head's shard, or brings it forward in the list. */
  lemma {:induction false} LoopReachesHome(cfg: Config, clock: Clock, s: State, remaining: nat, t: Tenant, p: Priority, e: Entry)
    requires StateInv(cfg, s) && Waiting(s.world, t, p, e)
    requires e.id in DequeueLoop(clock, s, remaining).0.world.books.pending
    ensures var n, i := |s.world.shards|, ShardIndex(|s.world.shards|, t);
            Position(DequeueLoop(clock, s, remaining).0.activeShards, i) + (if remaining > 0 then 1 else 0)
            <= n * DequeuesOf(LoopActs(clock, s, remaining), i) + Position(s.activeShards, i)
    decreases remaining
  {
    hide Inv, ListOk, Waiting, DequeueShard, Settled, Position;
    HomeIsListed(cfg, s, t, p, e);
    if remaining > 0 {
      var n, home, i := |s.world.shards|, ShardIndex(|s.world.shards|, t), s.activeShards[0];
      assert i in s.activeShards;
      var v := DequeueShard(clock, s.world, i);
      var s1 := Settled(s, i, v.world);
      PendingMidLoop(cfg, clock, s, remaining, t, p, e);
      SettledKeepsWaiting(cfg, clock, s, t, p, e);
      HomeIsListed(cfg, s1, t, p, e);
      if i != home {
        SettledPosition(s, i, v.world, home);
      }
      var rest := if v.served.Some? then [] else LoopActs(clock, s1, remaining - 1);
      assert LoopActs(clock, s, remaining) == [DequeueAct(i)] + rest;
      assert ([DequeueAct(i)] + rest)[1..] == rest;
      TimesSum(n, 1, DequeuesOf(rest, home));
      if v.served.None? {
        LoopReachesHome(cfg, clock, s1, remaining - 1, t, p, e);
      }
    }
  }

  lemma PendingMidLoop(cfg: Config, clock: Clock, s: State, remaining: nat, t: Tenant, p: Priority, e: Entry)
    requires StateInv(cfg, s) && Waiting(s.world, t, p, e) && remaining > 0 && s.activeShards != []
    requires e.id in DequeueLoop(clock, s, remaining).0.world.books.pending
    ensures s.activeShards[0] in s.activeShards
    ensures var v := DequeueShard(clock, s.world, s.activeShards[0]);
            && e.id in v.world.books.pending
            && (v.served.None? ==> e.id in DequeueLoop(clock, Settled(s, s.activeShards[0], v.world), remaining - 1).0.world.books.pending)
  {
    hide Inv, ListOk, Waiting, DequeueShard, Run;
    var i := s.activeShards[0];
    assert i in s.activeShards;
    var v := DequeueShard(clock, s.world, i);
    if v.served.None? {
      WaitingId(cfg, s.world, t, p, e);
      var moves := DequeueShardIsRun(cfg, clock, s.world, i);
      RunKeeps(cfg, clock, s.world, moves);
      RunNextId(cfg, clock, s.world, moves);
      var more := DequeueLoopIsRun(cfg, clock, Settled(s, i, v.world), remaining - 1);
      RunPending(cfg, clock, v.world, more, e.id);
    }
  }

  lemma OpReachesHome(cfg: Config, clock: Clock, s: State, op: Op, t: Tenant, p: Priority, e: Entry)
    requires StateInv(cfg, s) && OpOk(op) && Waiting(s.world, t, p, e) && s.shutdown != Immediate
    requires e.id in Perform(cfg, clock, s, op).world.books.pending
    ensures var n, i := |s.world.shards|, ShardIndex(|s.world.shards|, t);
            var s' := Perform(cfg, clock, s, op);
            && |s'.world.shards| == n
            && StateInv(cfg, s') && Waiting(s'.world, t, p, e)
            && Position(s'.activeShards, i) + (if op.DequeueOp? then 1 else 0)
               <= n * DequeuesOf(ActsOf(clock, s, op), i) + Position(s.activeShards, i)
  {
    hide Inv, ListOk, Waiting, Position, Run, DequeueLoop, LoopActs, Step, Submit;
    var moves := PerformIsRun(cfg, clock, s, op);
    RunKeepsWaiting(cfg, clock, s.world, moves, t, p, e);
    PerformKeeps(cfg, clock, s, op);
    HomeIsListed(cfg, s, t, p, e);
    match op
    case SubmitOp(x, task) => SubmitKeepsPosition(cfg, clock, s, x, task, ShardIndex(|s.world.shards|, t));
    case DequeueOp =>
      LoopReachesHome(cfg, clock, s, |s.activeShards|, t, p, e);
    case _ =>
  }

  lemma SubmitKeepsPosition(cfg: Config, clock: Clock, s: State, t: Tenant, task: Task, i: nat)
    requires s.Shaped() && i in s.activeShards
    ensures Position(Submit(cfg, clock, s, t, task).0.activeShards, i) == Position(s.activeShards, i)
  {
    hide Enqueue, AdmissionOf, Position;
    PositionAfterPush(s.activeShards, ShardIndex(|s.world.shards|, t), i);
  }

  /** Calls, while the head stays pending: each shard is dequeued from at least once in as many calls as there
      are shards. */
  lemma {:induction false} CallsReachHome(cfg: Config, clock: Clock, s: State, ops: seq<Op>, t: Tenant, p: Priority, e: Entry)
    requires StateInv(cfg, s) && Waiting(s.world, t, p, e) && forall k :: 0 <= k < |ops| ==> OpOk(ops[k])
    requires PerformAll(cfg, clock, s, ops).shutdown != Immediate
    requires e.id in PerformAll(cfg, clock, s, ops).world.books.pending
    ensures var n, i := |s.world.shards|, ShardIndex(|s.world.shards|, t);
            Calls(ops) <= n * DequeuesOf(ActsOfAll(cfg, clock, s, ops), i) + Position(s.activeShards, i)
    decreases |ops|
  {
    hide Inv, ListOk, Waiting, Position, Perform, ActsOf, OpOk, DequeuesOf;
    if ops != [] {
      var s1, n, i := Perform(cfg, clock, s, ops[0]), |s.world.shards|, ShardIndex(|s.world.shards|, t);
      ShutdownOnlyTightens(cfg, clock, s, ops);
      OpPending(cfg, clock, s, ops, t, p, e);
      OpReachesHome(cfg, clock, s, ops[0], t, p, e);
      CallsReachHome(cfg, clock, s1, ops[1..], t, p, e);
      var a, b := ActsOf(clock, s, ops[0]), ActsOfAll(cfg, clock, s1, ops[1..]);
      DequeuesConcat(a, b, i);
      TimesSum(n, DequeuesOf(a, i), DequeuesOf(b, i));
    }
  }

  lemma OpPending(cfg: Config, clock: Clock, s: State, ops: seq<Op>, t: Tenant, p: Priority, e: Entry)
    requires StateInv(cfg, s) && Waiting(s.world, t, p, e) && ops != [] && OpOk(ops[0])
    requires e.id in PerformAll(cfg, clock, s, ops).world.books.pending
    ensures e.id in Perform(cfg, clock, s, ops[0]).world.books.pending
  {
    hide Inv, ListOk, Waiting, Perform, Run;
    var s1 := Perform(cfg, clock, s, ops[0]);
    WaitingId(cfg, s.world, t, p, e);
    var moves := PerformIsRun(cfg, clock, s, ops[0]);
    RunKeeps(cfg, clock, s.world, moves);
    RunNextId(cfg, clock, s.world, moves);
    var more := PerformAllIsRun(cfg, clock, s1, ops[1..]);
    RunPending(cfg, clock, s1.world, more, e.id);
  }

  /** While the head stays pending, the calls of `try_dequeue` are fewer than the shards times what is left of
      its budget and the dequeues taken by higher rings. */
  lemma PendingMeansFewCalls(cfg: Config, clock: Clock, s: State, ops: seq<Op>, t: Tenant, p: Priority, e: Entry,
                             longest: nat, quantum: int)
    requires StateInv(cfg, s) && NonDecreasing(clock) && forall k :: 0 <= k < |ops| ==> OpOk(ops[k])
    requires Waiting(s.world, t, p, e) && InReach(s.world, t, p, e, quantum)
    requires PacedActs(cfg, clock, s.world, ActsOfAll(cfg, clock, s, ops), t, p, longest, quantum)
    requires PerformAll(cfg, clock, s, ops).shutdown != Immediate
    requires e.id in PerformAll(cfg, clock, s, ops).world.books.pending
    ensures Calls(ops) < |s.world.shards| *
            (Budget(s.world, t, p, e, longest, quantum) + Blocks(cfg, clock, s.world, ActsOfAll(cfg, clock, s, ops), t, p))
  {
    hide Inv, ListOk, NonDecreasing, Waiting, InReach, Budget, PacedActs, ActsOfAll, PerformAll, Position, Chances, Blocks, Calls, OpOk,
      DequeuesOf, RunActs;
    var w, acts := s.world, ActsOfAll(cfg, clock, s, ops);
    PerformAllIsActs(cfg, clock, s, ops);
    ActsUseBudget(cfg, clock, w, acts, t, p, e, longest, quantum);
    ChanceOrBlocked(cfg, clock, w, acts, t, p);
    CallsReachHome(cfg, clock, s, ops, t, p, e);
    HomeIsListed(cfg, s, t, p, e);
    TimesMore(|w.shards|, DequeuesOf(acts, ShardIndex(|w.shards|, t)),
              Budget(w, t, p, e, longest, quantum) + Blocks(cfg, clock, w, acts, t, p));
  }

  lemma TimesSum(n: nat, a: nat, b: nat)
    ensures n * (a + b) == n * a + n * b
  {
  }

  lemma TimesMore(n: nat, a: nat, b: nat)
    requires a < b
    ensures n * a + n <= n * b
  {
    TimesMonotone(a + 1, b, n);
    assert (a + 1) * n == n * a + n;
  }

  /** Bounded wait in calls: with n shards and b dequeues of its shard taken by higher priorities meanwhile, a
      head with budget k + 1 + N * r is no longer waiting after n * (k + 1 + N * r + b) calls of `try_dequeue`,
      whatever is called between them short of an immediate shutdown. */
  lemma HeadWaitsInCalls(cfg: Config, clock: Clock, s: State, ops: seq<Op>, t: Tenant, p: Priority, e: Entry,
                         longest: nat, quantum: int)
    requires StateInv(cfg, s) && NonDecreasing(clock) && forall k :: 0 <= k < |ops| ==> OpOk(ops[k])
    requires Waiting(s.world, t, p, e) && InReach(s.world, t, p, e, quantum)
    requires PacedActs(cfg, clock, s.world, ActsOfAll(cfg, clock, s, ops), t, p, longest, quantum)
    requires PerformAll(cfg, clock, s, ops).shutdown != Immediate
    requires Calls(ops) >= |s.world.shards| *
             (Budget(s.world, t, p, e, longest, quantum) + Blocks(cfg, clock, s.world, ActsOfAll(cfg, clock, s, ops), t, p))
    ensures var b := PerformAll(cfg, clock, s, ops).world.books;
            && e.id !in b.pending
            && (e.id in b.history.dispatched || e.id in b.history.expired || e.id in b.history.evicted || e.id in b.history.withdrawn)
  {
    hide Inv, ListOk, NonDecreasing, Waiting, InReach, Budget, PacedActs, ActsOfAll, PerformAll, Blocks, Calls, Run, OpOk;
    if e.id in PerformAll(cfg, clock, s, ops).world.books.pending {
      PendingMeansFewCalls(cfg, clock, s, ops, t, p, e, longest, quantum);
    }
    var moves := PerformAllIsRun(cfg, clock, s, ops);
    RunKeeps(cfg, clock, s.world, moves);
    WaitingId(cfg, s.world, t, p, e);
    RunAccepted(cfg, clock, s.world, moves, e.id);
    GoneHasFate(cfg, PerformAll(cfg, clock, s, ops).world, e.id);
  }

  /** The same exact condition in calls. */
  lemma HandedOutInCalls(cfg: Config, clock: Clock, s: State, ops: seq<Op>, t: Tenant, p: Priority, e: Entry,
                         longest: nat, quantum: nat)
    requires StateInv(cfg, s) && LogInv(s.world) && NonDecreasing(clock) && forall k :: 0 <= k < |ops| ==> OpOk(ops[k])
    requires Waiting(s.world, t, p, e) && 0 < quantum <= U64_MAX
    requires PacedActs(cfg, clock, s.world, ActsOfAll(cfg, clock, s, ops), t, p, longest, AsI64(quantum))
    requires PerformAll(cfg, clock, s, ops).shutdown != Immediate
    requires var h := PerformAll(cfg, clock, s, ops).world.books.history;
             e.id !in h.expired + h.evicted + h.withdrawn
    requires var acts := ActsOfAll(cfg, clock, s, ops);
             || Chances(cfg, clock, s.world, acts, t, p) == 0
             || (InReach(s.world, t, p, e, AsI64(quantum)) ==>
                   Calls(ops) >= |s.world.shards| * (Budget(s.world, t, p, e, longest, AsI64(quantum)) + Blocks(cfg, clock, s.world, acts, t, p)))
    ensures e.id in PerformAll(cfg, clock, s, ops).world.books.history.dispatched <==>
            && Chances(cfg, clock, s.world, ActsOfAll(cfg, clock, s, ops), t, p) > 0
            && ChargeFor(e.task.cost) <= Peak(HomeState(s.world, t).deficits.At(p), quantum)
  {
    hide Inv, ListOk, LogInv, NonDecreasing, PerformAll, ActsOfAll, RunActs, ChargeFor, Waiting, HomeState, WrapI64, Payable, Peak,
      PacedActs, Chances, Blocks, Calls, Budget, ActsOk, OpOk;
    PerformAllIsActs(cfg, clock, s, ops);
    if Chances(cfg, clock, s.world, ActsOfAll(cfg, clock, s, ops), t, p) > 0 && InReach(s.world, t, p, e, AsI64(quantum)) {
      HeadWaitsInCalls(cfg, clock, s, ops, t, p, e, longest, AsI64(quantum));
      DeficitFits(cfg, s.world, t, p);
      CastBack(quantum);
      PayableExactly(ChargeFor(e.task.cost), HomeState(s.world, t).deficits.At(p), AsI64(quantum));
    } else {
      HandedOutExactly(cfg, clock, s.world, ActsOfAll(cfg, clock, s, ops), t, p, e, longest, quantum);
    }
  }
}
