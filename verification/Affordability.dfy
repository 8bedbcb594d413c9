/** What a shard dequeue visits on its way to the task it serves: priority is strict only up to affordability. */
module Affordability {
  import opened Types
  import opened World
  import opened Invariant
  import opened EnqueueProofs
  import opened Preservation
  import opened Delivery
  import opened Throughput
  import opened Service

  // ---------------------------------------------------------------- what one dequeue visits

  /** The visits logged after `past`, oldest first. */
  ghost function Since(past: Log, log: Log): seq<Visit>
    requires Extends(past, log)
  {
    if log == past then [] else Since(past, log.before) + [log.visit]
  }

  lemma {:induction false} SinceConcat(a: Log, b: Log, c: Log)
    requires Extends(a, b) && Extends(b, c)
    ensures Extends(a, c) && Since(a, c) == Since(a, b) + Since(b, c)
  {
    LongerIsLater(a, b);
    LongerIsLater(b, c);
    if c != b {
      SinceConcat(a, b, c.before);
      LongerIsLater(b, c.before);
    }
  }

  ghost function Length(log: Log): nat {
    if log.Start? then 0 else 1 + Length(log.before)
  }

  lemma {:induction false} LongerIsLater(a: Log, b: Log)
    requires Extends(a, b)
    ensures Length(a) <= Length(b) && (a != b ==> Length(a) < Length(b))
  {
    if a != b {
      LongerIsLater(a, b.before);
    }
  }

  datatype Stop = Stop(tenant: Tenant, priority: Priority)

  function Stops(ring: seq<Tenant>, p: Priority): seq<Stop> {
    seq(|ring|, k requires 0 <= k < |ring| => Stop(ring[k], p))
  }

  /** The ring entries present when the dequeue starts, in the order it goes through them. */
  function Route(s: Shard): seq<Stop> {
    Stops(s.rings.high, High) + Stops(s.rings.normal, Normal) + Stops(s.rings.low, Low)
  }

  /** The visits follow the route from its start, and none of them served anything. */
  ghost predicate AllPassedOver(vs: seq<Visit>, route: seq<Stop>) {
    && |vs| <= |route|
    && forall k :: 0 <= k < |vs| ==>
         At(vs[k], route[k].tenant, route[k].priority) && (vs[k].outcome.Idle? || vs[k].outcome.Refilled?)
  }

  /** The visits follow the route and stop at the first that serves. */
  ghost predicate StopsAtServed(vs: seq<Visit>, route: seq<Stop>, t: Tenant, e: Entry) {
    && 0 < |vs| <= |route|
    && AllPassedOver(vs[..|vs| - 1], route)
    && var last := vs[|vs| - 1];
       && At(last, route[|vs| - 1].tenant, route[|vs| - 1].priority)
       && last.outcome.Served? && last.outcome.id == e.id && At(last, t, e.task.priority)
  }

  ghost predicate Walked(vs: seq<Visit>, route: seq<Stop>, served: Option<(Tenant, Entry)>) {
    match served
    case Some(pair) => StopsAtServed(vs, route, pair.0, pair.1)
    case None => AllPassedOver(vs, route) && |vs| == |route|
  }

  lemma WalkOn(a: seq<Visit>, first: seq<Stop>, b: seq<Visit>, route: seq<Stop>, served: Option<(Tenant, Entry)>)
    requires AllPassedOver(a, first) && |a| == |first| && Walked(b, route, served)
    ensures Walked(a + b, first + route, served)
  {
    if served.Some? {
      var front := b[..|b| - 1];
      assert (a + b)[..|a + b| - 1] == a + front;
      PassedOverConcat(a, first, front, route);
      assert (a + b)[|a + b| - 1] == b[|b| - 1];
      assert (first + route)[|a + b| - 1] == route[|b| - 1];
    } else {
      PassedOverConcat(a, first, b, route);
    }
  }

  lemma PassedOverConcat(a: seq<Visit>, first: seq<Stop>, b: seq<Visit>, route: seq<Stop>)
    requires AllPassedOver(a, first) && |a| == |first| && AllPassedOver(b, route)
    ensures AllPassedOver(a + b, first + route)
  {
  }

  lemma WalkedPrefix(vs: seq<Visit>, route: seq<Stop>, more: seq<Stop>, served: Option<(Tenant, Entry)>)
    requires Walked(vs, route, served) && served.Some?
    ensures Walked(vs, route + more, served)
  {
  }

  ghost predicate Follows(past: Log, v: Visited, route: seq<Stop>) {
    var log := v.world.books.history.log;
    Extends(past, log) && Walked(Since(past, log), route, v.served)
  }

  lemma ThenFollow(past: Log, mid: Log, v: Visited, first: seq<Stop>, route: seq<Stop>)
    requires Extends(past, mid) && AllPassedOver(Since(past, mid), first) && |Since(past, mid)| == |first|
    requires Follows(mid, v, route)
    ensures Follows(past, v, first + route)
  {
    hide Walked, AllPassedOver;
    SinceConcat(past, mid, v.world.books.history.log);
    WalkOn(Since(past, mid), first, Since(mid, v.world.books.history.log), route, v.served);
  }

  lemma FollowsPrefix(past: Log, v: Visited, route: seq<Stop>, more: seq<Stop>)
    requires Follows(past, v, route) && v.served.Some?
    ensures Follows(past, v, route + more)
  {
    hide Walked;
    WalkedPrefix(Since(past, v.world.books.history.log), route, more, v.served);
  }

  lemma VisitOutcome(cfg: Config, clock: Clock, w: World, i: nat, p: Priority)
    requires Inv(cfg, w) && CanVisit(w, i, p)
    ensures var v := VisitRing(clock, w, i, p);
            var past, log := w.books.history.log, v.world.books.history.log;
            && log.Then? && log.before == past && At(log.visit, w.shards[i].rings.At(p)[0], p)
            && match v.served
               case Some(pair) =>
                 log.visit.outcome.Served? && log.visit.outcome.id == pair.1.id && At(log.visit, pair.0, pair.1.task.priority)
               case None => log.visit.outcome.Idle? || log.visit.outcome.Refilled?
  {
    hide TakeTurn, TurnPre, TurnOk, BooksOk, TenantInvAt, Homed, RingsKnown, HomeState;
    var t := w.shards[i].rings.At(p)[0];
    RingHead(cfg, w, i, p);
    HomeTurnPre(cfg, w, t, p);
    var ts := w.shards[i].tenants[t];
    TurnKeeps(cfg, clock, ts, w.books, w.samples, t, p);
    ServedIdLogged(cfg, clock, ts, w.books, w.samples, t, p);
  }

  lemma ServedIdLogged(cfg: Config, clock: Clock, ts: TenantState, b: Books, samples: nat, t: Tenant, p: Priority)
    requires TurnPre(cfg, ts, b, t, p)
    ensures var turn := TakeTurn(clock, ts, b, samples, t, p);
            turn.served.Some? ==>
              && turn.books.history.log.Then? && turn.books.history.log.visit.outcome.Served?
              && turn.books.history.log.visit.outcome.id == turn.served.value.id
              && turn.served.value.task.priority == p
  {
    hide Reap, ChargeFor, QueueTime, DeadPrefix, BooksOk, LaneOk, DeficitOk;
    assert LaneOk(ts.queues.At(p), t, p, b);
    LanePriorities(ts.queues.At(p), t, p, b);
  }

  lemma OneVisit(past: Log, log: Log)
    requires log.Then? && log.before == past
    ensures Extends(past, log) && Since(past, log) == [log.visit]
  {
    assert Since(past, past) == [];
    LongerIsLater(past, log);
  }

  lemma {:induction false} PassFollows(cfg: Config, clock: Clock, w: World, i: nat, p: Priority, n: nat)
    requires Inv(cfg, w) && i < |w.shards| && n <= |w.shards[i].rings.At(p)|
    ensures var v := Pass(clock, w, i, p, n);
            && Inv(cfg, v.world)
            && Follows(w.books.history.log, v, Stops(w.shards[i].rings.At(p)[..n], p))
            && forall p2: Priority :: p2 != p ==> v.world.shards[i].rings.At(p2) == w.shards[i].rings.At(p2)
    decreases n
  {
    hide BooksOk, TenantInvAt, Homed, RingsKnown, VisitRing;
    hide Follows;
    var ring, past := w.shards[i].rings.At(p), w.books.history.log;
    if n == 0 {
      assert Stops(ring[..0], p) == [];
      NoVisits(past, w);
    } else {
      var v := VisitRing(clock, w, i, p);
      var mid := v.world.books.history.log;
      var first, rest := Stops(ring[..1], p), Stops(ring[1..n], p);
      VisitKeeps(cfg, clock, w, i, p);
      VisitOutcome(cfg, clock, w, i, p);
      RingAfter(clock, w, i, p);
      OneVisit(past, mid);
      assert Stops(ring[..n], p) == first + rest;
      if v.served.None? {
        PassFollows(cfg, clock, v.world, i, p, n - 1);
        assert v.world.shards[i].rings.At(p)[..n - 1] == ring[1..n];
        ThenFollow(past, mid, Pass(clock, v.world, i, p, n - 1), first, rest);
      } else {
        ServedFirst(past, v, first);
        FollowsPrefix(past, v, first, rest);
      }
    }
  }

  lemma NoVisits(past: Log, w: World)
    requires past == w.books.history.log
    ensures Follows(past, Visited(w, None), [])
  {
  }

  lemma ServedFirst(past: Log, v: Visited, first: seq<Stop>)
    requires v.served.Some? && |first| == 1
    requires var log := v.world.books.history.log;
             && Extends(past, log) && log.Then? && Since(past, log) == [log.visit]
             && At(log.visit, first[0].tenant, first[0].priority)
             && log.visit.outcome.Served? && log.visit.outcome.id == v.served.value.1.id
             && At(log.visit, v.served.value.0, v.served.value.1.task.priority)
    ensures Follows(past, v, first)
  {
  }

  lemma FullPassFollows(cfg: Config, clock: Clock, w: World, i: nat, p: Priority)
    requires Inv(cfg, w) && i < |w.shards|
    ensures var v := FullPass(clock, w, i, p);
            && Inv(cfg, v.world)
            && Follows(w.books.history.log, v, Stops(w.shards[i].rings.At(p), p))
            && forall p2: Priority :: p2 != p ==> v.world.shards[i].rings.At(p2) == w.shards[i].rings.At(p2)
  {
    hide Pass, Inv, Follows;
    var ring := w.shards[i].rings.At(p);
    PassFollows(cfg, clock, w, i, p, |ring|);
    assert ring[..|ring|] == ring;
  }

  /** Priority up to affordability: a shard dequeue visits the ring entries present at its start, High
      before Normal before Low, each once and in ring order, until one is served. Every visit before
      that found no live head, or a head it could not afford and refilled. */
  lemma DequeueFollowsRoute(cfg: Config, clock: Clock, w: World, i: nat)
    requires Inv(cfg, w) && i < |w.shards|
    ensures Follows(w.books.history.log, DequeueShard(clock, w, i), Route(w.shards[i]))
  {
    hide FullPass, Inv, Follows;
    var past, s := w.books.history.log, w.shards[i];
    var high, normal, low := Stops(s.rings.high, High), Stops(s.rings.normal, Normal), Stops(s.rings.low, Low);
    var h := FullPass(clock, w, i, High);
    FullPassFollows(cfg, clock, w, i, High);
    if h.served.Some? {
      FollowsPrefix(past, h, high, normal + low);
      assert high + (normal + low) == Route(s);
    } else {
      NothingServed(past, h, high);
      var n := FullPass(clock, h.world, i, Normal);
      FullPassFollows(cfg, clock, h.world, i, Normal);
      assert h.world.shards[i].rings.At(Normal) == s.rings.At(Normal) && h.world.shards[i].rings.At(Low) == s.rings.At(Low);
      ThenFollow(past, h.world.books.history.log, n, high, normal);
      if n.served.Some? {
        FollowsPrefix(past, n, high + normal, low);
      } else {
        NothingServed(past, n, high + normal);
        FullPassFollows(cfg, clock, n.world, i, Low);
        assert n.world.shards[i].rings.At(Low) == s.rings.At(Low);
        ThenFollow(past, n.world.books.history.log, FullPass(clock, n.world, i, Low), high + normal, low);
      }
    }
  }

  lemma NothingServed(past: Log, v: Visited, route: seq<Stop>)
    requires Follows(past, v, route) && v.served.None?
    ensures var mid := v.world.books.history.log;
            Extends(past, mid) && AllPassedOver(Since(past, mid), route) && |Since(past, mid)| == |route|
  {
  }

  lemma RouteDescends(s: Shard, k: nat, m: nat)
    requires k < |Route(s)| && m < |Route(s)| && Route(s)[k].priority.Index() < Route(s)[m].priority.Index()
    ensures k < m
  {
  }

  /** From `w` to `w'` quanta stay, and flags are only cleared. */
  ghost predicate OnlyClears(w: World, w': World)
    requires w.shards != [] && w'.shards != []
  {
    forall t ::
      && HomeState(w', t).quantum == HomeState(w, t).quantum
      && forall p: Priority :: HomeState(w', t).active.At(p) ==> HomeState(w, t).active.At(p)
  }

  /** What a visit between `w` and `w'` that served nothing did: it cleared the flag of a lane without a live
      head, or added the tenant's quantum. */
  ghost predicate Told(w: World, v: Visit, w': World)
    requires w.shards != [] && w'.shards != []
  {
    && (v.outcome.Idle? ==> !HomeState(w', v.tenant).active.At(v.priority))
    && (v.outcome.Refilled? ==> v.outcome.quantum == HomeState(w, v.tenant).quantum)
  }

  lemma TurnTold(clock: Clock, ts: TenantState, b: Books, samples: nat, t: Tenant, p: Priority)
    ensures var turn := TakeTurn(clock, ts, b, samples, t, p);
            var log := turn.books.history.log;
            && turn.state.quantum == ts.quantum
            && (forall p2: Priority :: turn.state.active.At(p2) ==> ts.active.At(p2))
            && (log.Then? && log.visit.outcome.Idle? ==> !turn.state.active.At(p))
            && (log.Then? && log.visit.outcome.Refilled? ==> log.visit.outcome.quantum == ts.quantum)
  {
    hide ChargeFor, QueueTime, DeadPrefix, Ids, WrapI64, Reap;
  }

  lemma VisitTold(cfg: Config, clock: Clock, w: World, i: nat, p: Priority)
    requires Inv(cfg, w) && CanVisit(w, i, p)
    ensures var w' := VisitRing(clock, w, i, p).world;
            var log := w'.books.history.log;
            && |w'.shards| == |w.shards| > 0 && log.Then? && log.before == w.books.history.log
            && OnlyClears(w, w') && Told(w, log.visit, w')
  {
    hide BooksOk, TenantInvAt, Homed, RingsKnown, VisitRing, TakeTurn, HomeState, TurnPre;
    var t := w.shards[i].rings.At(p)[0];
    VisitSummary(cfg, clock, w, i, p);
    VisitOutcome(cfg, clock, w, i, p);
    RingAfter(clock, w, i, p);
    TurnTold(clock, HomeState(w, t), w.books, w.samples, t, p);
  }

  /** Every visit of a run of visits did what it tells, and nothing later undid it. */
  lemma {:induction false} VisitsTold(cfg: Config, clock: Clock, w: World, moves: seq<Move>)
    requires Inv(cfg, w) && forall k :: 0 <= k < |moves| ==> moves[k].VisitMove?
    ensures var w' := Run(cfg, clock, w, moves);
            var past, log := w.books.history.log, w'.books.history.log;
            && w.shards != [] && Inv(cfg, w') && w'.shards != [] && OnlyClears(w, w') && Extends(past, log)
            && forall k :: 0 <= k < |Since(past, log)| ==> Told(w, Since(past, log)[k], w')
    decreases |moves|
  {
    hide BooksOk, TenantInvAt, Homed, RingsKnown, VisitRing, HomeState;
    if moves != [] {
      var m := moves[0];
      if CanVisit(w, m.shard, m.priority) {
        VisitKeeps(cfg, clock, w, m.shard, m.priority);
        VisitTold(cfg, clock, w, m.shard, m.priority);
      }
      var w1 := Step(cfg, clock, w, m);
      VisitsTold(cfg, clock, w1, moves[1..]);
      if CanVisit(w, m.shard, m.priority) {
        FirstTold(w, w1, Run(cfg, clock, w, moves));
      }
    }
  }

  lemma FirstTold(w: World, w1: World, w': World)
    requires w.shards != [] && w1.shards != [] && w'.shards != []
    requires OnlyClears(w, w1) && OnlyClears(w1, w')
    requires var past, mid, log := w.books.history.log, w1.books.history.log, w'.books.history.log;
             && mid.Then? && mid.before == past && Told(w, mid.visit, w1) && Extends(mid, log)
             && forall k :: 0 <= k < |Since(mid, log)| ==> Told(w1, Since(mid, log)[k], w')
    ensures var past, log := w.books.history.log, w'.books.history.log;
            && OnlyClears(w, w') && Extends(past, log)
            && forall k :: 0 <= k < |Since(past, log)| ==> Told(w, Since(past, log)[k], w')
  {
    hide HomeState;
    var past, mid, log := w.books.history.log, w1.books.history.log, w'.books.history.log;
    OneVisit(past, mid);
    SinceConcat(past, mid, log);
    assert Told(w, mid.visit, w');
    forall k | 0 <= k < |Since(past, log)| ensures Told(w, Since(past, log)[k], w') {
      if k > 0 {
        assert Since(past, log)[k] == Since(mid, log)[k - 1];
      }
    }
  }

  /** A task is delivered from its ring only after every entry of every higher ring was visited in this
      very call, and found without a live head, which cleared its flag, or short of its head's cost, which
      added its tenant's quantum. */
  lemma HigherRingsPassedOver(cfg: Config, clock: Clock, w: World, i: nat)
    requires Inv(cfg, w) && LogInv(w) && i < |w.shards| && DequeueShard(clock, w, i).served.Some?
    ensures var v, route := DequeueShard(clock, w, i), Route(w.shards[i]);
            var past, log := w.books.history.log, v.world.books.history.log;
            && Extends(past, log)
            && var vs := Since(past, log);
               && 0 < |vs| <= |route|
               && (forall k :: 0 <= k < |route| && route[k].priority.Index() < v.served.value.1.task.priority.Index() ==> k < |vs| - 1)
               && (forall k :: 0 <= k < |vs| - 1 ==>
                     var t, p, outcome := route[k].tenant, route[k].priority, vs[k].outcome;
                     && At(vs[k], t, p)
                     && (|| (outcome.Idle? && !HomeState(v.world, t).active.At(p))
                         || (outcome.Refilled? && outcome.deficit < outcome.cost && outcome.quantum == HomeState(w, t).quantum)))
  {
    hide DequeueShard, Inv, Route, HomeState;
    DequeueFollowsRoute(cfg, clock, w, i);
    var v, route := DequeueShard(clock, w, i), Route(w.shards[i]);
    var past, log := w.books.history.log, v.world.books.history.log;
    var vs := Since(past, log);
    var moves := DequeueShardIsRun(cfg, clock, w, i);
    RunKeepsLog(cfg, clock, w, moves);
    VisitsTold(cfg, clock, w, moves);
    forall k | 0 <= k < |route| && route[k].priority.Index() < v.served.value.1.task.priority.Index() ensures k < |vs| - 1 {
      RouteDescends(w.shards[i], k, |vs| - 1);
    }
    forall k | 0 <= k < |vs| - 1
      ensures var t, p, outcome := route[k].tenant, route[k].priority, vs[k].outcome;
              && At(vs[k], t, p)
              && (|| (outcome.Idle? && !HomeState(v.world, t).active.At(p))
                  || (outcome.Refilled? && outcome.deficit < outcome.cost && outcome.quantum == HomeState(w, t).quantum))
    {
      assert vs[..|vs| - 1][k] == vs[k];
      assert Told(w, vs[k], v.world);
      VisitsAreOk(v.world.books.history, past, log, k);
    }
  }

  lemma {:induction false} VisitsAreOk(h: History, past: Log, log: Log, k: nat)
    requires Extends(past, log) && LogOk(h, log) && k < |Since(past, log)|
    ensures Since(past, log)[k].outcome.Refilled? ==> Since(past, log)[k].outcome.deficit < Since(past, log)[k].outcome.cost
  {
    if k < |Since(past, log)| - 1 {
      VisitsAreOk(h, past, log.before, k);
    }
  }
}
