/** Which task a dequeue hands out, exactly: the live head of the first place that can pay for it. */
module Selection {
  import opened Types
  import opened Sums
  import opened World
  import opened Invariant
  import opened EnqueueProofs
  import opened Preservation
  import opened Service
  import opened Refills
  import opened BoundedWait

  // ---------------------------------------------------------------- when a ring is served

  /** The entry that would head lane `q` once its dead prefix at `now` is gone. */
  function LiveHead(q: seq<Entry>, cancelled: set<Id>, now: Time): Option<Entry> {
    var k := DeadPrefix(q, cancelled, now);
    if k < |q| then Some(q[k]) else None
  }

  /** A place in a ring: where a dequeue can find a tenant to serve. */
  datatype Place = Place(shard: nat, priority: Priority, index: nat)

  predicate IsPlace(w: World, x: Place) {
    x.shard < |w.shards| && x.index < |w.shards[x.shard].rings.At(x.priority)|
  }

  /** Whom a visit at a place finds, and whether the deficit, with one refill for each earlier place of the
      same tenant in the ring, covers the live head's charge. */
  datatype Quote = Quote(tenant: Tenant, priority: Priority, head: Option<Entry>, pays: bool)

  function QuoteAt(clock: Clock, w: World, x: Place, at: nat): Quote
    requires IsPlace(w, x)
  {
    var ring := w.shards[x.shard].rings.At(x.priority);
    var t := ring[x.index];
    var ts := HomeState(w, t);
    var head := LiveHead(ts.queues.At(x.priority), w.books.cancelled, clock.now(at));
    Quote(t, x.priority, head,
          head.Some? && After(ts.deficits.At(x.priority), ts.quantum, Count(ring[..x.index], t)) >= ChargeFor(head.value.task.cost))
  }

  ghost predicate NonDecreasing(clock: Clock) {
    forall a: nat, b: nat :: a <= b ==> clock.now(a) <= clock.now(b)
  }

  lemma {:induction false} SameDead(q: seq<Entry>, c: set<Id>, c': set<Id>, now: Time)
    requires forall e :: e in q ==> (e.id in c <==> e.id in c')
    ensures DeadPrefix(q, c, now) == DeadPrefix(q, c', now)
  {
    if q != [] {
      assert q == [q[0]] + q[1..];
      SameDead(q[1..], c, c', now);
    }
  }

  lemma {:induction false} DropThenDrop(q: seq<Entry>, c: set<Id>, now: Time, later: Time)
    requires now <= later
    ensures var k := DeadPrefix(q, c, now);
            DeadPrefix(q, c, later) == k + DeadPrefix(q[k..], c, later)
  {
    if q != [] && Dead(q[0], c, now) {
      DropThenDrop(q[1..], c, now, later);
      var k := DeadPrefix(q, c, now);
      assert q[1..][k - 1..] == q[k..];
    } else {
      assert q[0..] == q;
    }
  }

  /** Dropping the dead prefix early does not change a later live head. */
  lemma HeadAfterDrop(q: seq<Entry>, c: set<Id>, now: Time, later: Time)
    requires now <= later && Increasing(q)
    ensures var k := DeadPrefix(q, c, now);
            LiveHead(q[k..], c - Ids(q[..k]), later) == LiveHead(q, c, later)
  {
    hide Increasing, DeadPrefix;
    var k := DeadPrefix(q, c, now);
    DropThenDrop(q, c, now, later);
    RestUnmarked(q, c, k);
    SameDead(q[k..], c, c - Ids(q[..k]), later);
  }

  lemma CountSplit(ring: seq<Tenant>, ring': seq<Tenant>, j: nat)
    requires 0 < j < |ring| && j - 1 < |ring'| && forall k :: 0 <= k < j ==> ring'[k] == ring[k + 1]
    ensures forall t :: Count(ring[..j], t) == Count(ring'[..j - 1], t) + if ring[0] == t then 1 else 0
  {
    assert ring[..j][1..] == ring'[..j - 1];
  }

  lemma SameHead(q: seq<Entry>, c: set<Id>, c': set<Id>, now: Time)
    requires forall e :: e in q ==> (e.id in c <==> e.id in c')
    ensures LiveHead(q, c, now) == LiveHead(q, c', now)
  {
    SameDead(q, c, c', now);
  }

  lemma HeadPersists(q: seq<Entry>, c: set<Id>, now: Time, later: Time)
    requires now <= later
    ensures LiveHead(q, c, later).Some? ==> LiveHead(q, c, now).Some?
  {
    DropThenDrop(q, c, now, later);
  }

  // ---------------------------------------------------------------- the first place that pays is served

  ghost predicate ArePlaces(w: World, xs: seq<Place>) {
    forall k :: 0 <= k < |xs| ==> IsPlace(w, xs[k])
  }

  /** What visits of places `xs`, one clock reading each from reading `at` on, find. */
  ghost function Quotes(clock: Clock, w: World, xs: seq<Place>, at: nat): seq<Quote>
    requires ArePlaces(w, xs)
  {
    seq(|xs|, k requires 0 <= k < |xs| => QuoteAt(clock, w, xs[k], at + k))
  }

  /** The first that pays. */
  function Winner(quotes: seq<Quote>): Option<Quote> {
    if quotes == [] then None else if quotes[0].pays then Some(quotes[0]) else Winner(quotes[1..])
  }

  lemma {:induction false} WinnerIsFirst(quotes: seq<Quote>, m: nat)
    requires m < |quotes| && quotes[m].pays && forall k :: 0 <= k < m ==> !quotes[k].pays
    ensures Winner(quotes) == Some(quotes[m])
  {
    if m > 0 {
      WinnerIsFirst(quotes[1..], m - 1);
    }
  }

  lemma {:induction false} NobodyWins(quotes: seq<Quote>)
    ensures Winner(quotes) == None <==> forall k :: 0 <= k < |quotes| ==> !quotes[k].pays
  {
    if quotes != [] {
      NobodyWins(quotes[1..]);
      assert quotes == [quotes[0]] + quotes[1..];
    }
  }

  lemma {:induction false} WinnerOfTwo(a: seq<Quote>, b: seq<Quote>)
    ensures Winner(a + b) == if Winner(a).Some? then Winner(a) else Winner(b)
  {
    if a == [] {
      assert a + b == b;
    } else {
      assert (a + b)[1..] == a[1..] + b;
      WinnerOfTwo(a[1..], b);
    }
  }

  /** What is served is the live head of the winner's lane. */
  predicate ServesWinner(winner: Option<Quote>, served: Option<(Tenant, Entry)>) {
    match winner
    case None => served == None
    case Some(quote) =>
      quote.head.Some? && served == Some((quote.tenant, quote.head.value)) && quote.head.value.task.priority == quote.priority
  }

  ghost predicate ServesFirst(clock: Clock, w: World, xs: seq<Place>, served: Option<(Tenant, Entry)>) {
    ArePlaces(w, xs) && ServesWinner(Winner(Quotes(clock, w, xs, w.samples)), served)
  }

  /** After the visits in between, places `ys` of `w'` quote what places `xs` of `w` do. */
  ghost predicate Carries(clock: Clock, w: World, xs: seq<Place>, w': World, ys: seq<Place>) {
    && ArePlaces(w, xs) && ArePlaces(w', ys) && |xs| == |ys|
    && forall k, at: nat :: 0 <= k < |xs| && at >= w'.samples ==> QuoteAt(clock, w', ys[k], at) == QuoteAt(clock, w, xs[k], at)
  }

  lemma QuotesConcat(clock: Clock, w: World, a: seq<Place>, b: seq<Place>, at: nat)
    requires ArePlaces(w, a) && ArePlaces(w, b)
    ensures ArePlaces(w, a + b)
    ensures Quotes(clock, w, a + b, at) == Quotes(clock, w, a, at) + Quotes(clock, w, b, at + |a|)
  {
    hide QuoteAt, IsPlace;
  }

  lemma ServeOn(clock: Clock, w: World, first: seq<Place>, w': World, xs: seq<Place>, ys: seq<Place>, served: Option<(Tenant, Entry)>)
    requires ServesFirst(clock, w, first, None) && w'.samples == w.samples + |first|
    requires Carries(clock, w, xs, w', ys) && ServesFirst(clock, w', ys, served)
    ensures ServesFirst(clock, w, first + xs, served)
  {
    hide QuoteAt, IsPlace, Winner;
    QuotesConcat(clock, w, first, xs, w.samples);
    assert Quotes(clock, w', ys, w'.samples) == Quotes(clock, w, xs, w'.samples);
    WinnerOfTwo(Quotes(clock, w, first, w.samples), Quotes(clock, w, xs, w'.samples));
  }

  lemma ServedEarly(clock: Clock, w: World, first: seq<Place>, xs: seq<Place>, served: Option<(Tenant, Entry)>)
    requires ServesFirst(clock, w, first, served) && served.Some? && ArePlaces(w, xs)
    ensures ServesFirst(clock, w, first + xs, served)
  {
    hide QuoteAt, IsPlace, Winner;
    QuotesConcat(clock, w, first, xs, w.samples);
    WinnerOfTwo(Quotes(clock, w, first, w.samples), Quotes(clock, w, xs, w.samples + |first|));
  }

  // ---------------------------------------------------------------- one visit

  lemma VisitServes(cfg: Config, clock: Clock, w: World, i: nat, p: Priority)
    requires Inv(cfg, w) && CanVisit(w, i, p)
    ensures ServesFirst(clock, w, [Place(i, p, 0)], VisitRing(clock, w, i, p).served)
    ensures VisitRing(clock, w, i, p).served.None? ==> VisitRing(clock, w, i, p).world.samples == w.samples + 1
  {
    hide BooksOk, TenantInvAt, Homed, RingsKnown, TakeTurn, TurnPre, ChargeFor, AsI64, QuantumFor, HomeState, DeadPrefix, LaneOk;
    var x := w.shards[i].rings.At(p)[0];
    RingHead(cfg, w, i, p);
    HomeTurnPre(cfg, w, x, p);
    TurnSummary(cfg, clock, HomeState(w, x), w.books, w.samples, x, p);
    DeficitFits(cfg, w, x, p);
    InvAtLane(cfg, w, x, p);
    LanePriorities(HomeState(w, x).queues.At(p), x, p, w.books);
    assert w.shards[i].rings.At(p)[..0] == [];
    AfterNone(HomeState(w, x).deficits.At(p), HomeState(w, x).quantum);
    OneQuote(clock, w, Place(i, p, 0), w.samples);
  }

  lemma OneQuote(clock: Clock, w: World, x: Place, at: nat)
    requires IsPlace(w, x)
    ensures ArePlaces(w, [x]) && Winner(Quotes(clock, w, [x], at)) == if QuoteAt(clock, w, x, at).pays then Some(QuoteAt(clock, w, x, at)) else None
  {
    hide QuoteAt;
    assert Quotes(clock, w, [x], at) == [QuoteAt(clock, w, x, at + 0)];
    assert [QuoteAt(clock, w, x, at + 0)][1..] == [];
  }

  /** Where a place is found after the head of ring `p` of shard `i` was popped. */
  function Moved(x: Place, i: nat, p: Priority): Place {
    if x.shard == i && x.priority == p && x.index > 0 then x.(index := x.index - 1) else x
  }

  /** An unserved visit changes no quote but its own. */
  lemma VisitCarries(cfg: Config, clock: Clock, w: World, i: nat, p: Priority, x: Place, at: nat)
    requires Inv(cfg, w) && CanVisit(w, i, p) && NonDecreasing(clock) && VisitRing(clock, w, i, p).served.None?
    requires IsPlace(w, x) && x != Place(i, p, 0) && at >= w.samples
    ensures IsPlace(VisitRing(clock, w, i, p).world, Moved(x, i, p))
    ensures QuoteAt(clock, VisitRing(clock, w, i, p).world, Moved(x, i, p), at) == QuoteAt(clock, w, x, at)
  {
    hide BooksOk, TenantInvAt, Homed, RingsKnown, TakeTurn, TurnPre, LiveHead, Count, ChargeFor, DeadPrefix, AsI64, QuantumFor, HomeState, After, VisitRing, WrapI64;
    var t, y := w.shards[i].rings.At(p)[0], w.shards[x.shard].rings.At(x.priority)[x.index];
    var w1 := VisitRing(clock, w, i, p).world;
    RingAfter(clock, w, i, p);
    VisitSummary(cfg, clock, w, i, p);
    assert !VisitedServed(clock, w, i, p) by { VisitedServedIs(cfg, clock, w, i, p); }
    if y == t && x.priority == p {
      SameRing(cfg, w, i, x, t);
      TurnCarries(cfg, clock, w, t, p, at);
      CountSplit(w.shards[i].rings.At(p), w1.shards[i].rings.At(p), x.index);
      AfterOneMore(HomeState(w, t).deficits.At(p), HomeState(w, t).quantum, Count(w1.shards[i].rings.At(p)[..x.index - 1], t));
    } else {
      if y == t {
        TurnSummary(cfg, clock, HomeState(w, t), w.books, w.samples, t, p);
      }
      SameHead(HomeState(w, y).queues.At(x.priority), w1.books.cancelled, w.books.cancelled, clock.now(at));
      if x.shard == i && x.priority == p {
        CountSplit(w.shards[i].rings.At(p), w1.shards[i].rings.At(p), x.index);
      }
    }
  }

  predicate VisitedServed(clock: Clock, w: World, i: nat, p: Priority)
    requires CanVisit(w, i, p)
  {
    TakeTurn(clock, HomeState(w, w.shards[i].rings.At(p)[0]), w.books, w.samples, w.shards[i].rings.At(p)[0], p).served.Some?
  }

  lemma VisitedServedIs(cfg: Config, clock: Clock, w: World, i: nat, p: Priority)
    requires Inv(cfg, w) && CanVisit(w, i, p)
    ensures VisitedServed(clock, w, i, p) <==> VisitRing(clock, w, i, p).served.Some?
  {
    hide BooksOk, TenantInvAt, TakeTurn, HomeState;
    RingHead(cfg, w, i, p);
  }

  /** A tenant stands in the rings of its own shard only. */
  lemma SameRing(cfg: Config, w: World, i: nat, x: Place, t: Tenant)
    requires Inv(cfg, w) && IsPlace(w, x) && i < |w.shards|
    requires w.shards[x.shard].rings.At(x.priority)[x.index] == t && t in w.shards[i].rings.At(x.priority)
    ensures x.shard == i
  {
    hide BooksOk, TenantInvAt;
    assert t in w.shards[x.shard].rings.At(x.priority);
    assert t in w.shards[x.shard].tenants && t in w.shards[i].tenants;
    assert ShardIndex(|w.shards|, t) == x.shard && ShardIndex(|w.shards|, t) == i;
  }

  /** A refilled lane quotes the same later head, with the refill instead of one earlier place. */
  lemma TurnCarries(cfg: Config, clock: Clock, w: World, t: Tenant, p: Priority, at: nat)
    requires Inv(cfg, w) && TurnPre(cfg, HomeState(w, t), w.books, t, p) && NonDecreasing(clock) && at >= w.samples
    requires TakeTurn(clock, HomeState(w, t), w.books, w.samples, t, p).served.None?
    ensures var turn, ts := TakeTurn(clock, HomeState(w, t), w.books, w.samples, t, p), HomeState(w, t);
            && LiveHead(turn.state.queues.At(p), turn.books.cancelled, clock.now(at)) == LiveHead(ts.queues.At(p), w.books.cancelled, clock.now(at))
            && turn.state.quantum == ts.quantum
            && (LiveHead(ts.queues.At(p), w.books.cancelled, clock.now(at)).Some? ==>
                  turn.state.deficits.At(p) == WrapI64(ts.deficits.At(p) + ts.quantum))
  {
    hide BooksOk, TenantInvAt, Homed, RingsKnown, TakeTurn, TurnPre, HomeState, ChargeFor, DeadPrefix, LaneOk, Increasing, WrapI64;
    var q, c := HomeState(w, t).queues.At(p), w.books.cancelled;
    TurnSummary(cfg, clock, HomeState(w, t), w.books, w.samples, t, p);
    InvAtLane(cfg, w, t, p);
    LaneIncreases(q, t, p, w.books);
    HeadAfterDrop(q, c, clock.now(w.samples), clock.now(at));
    HeadPersists(q, c, clock.now(w.samples), clock.now(at));
    assert q[DeadPrefix(q, c, clock.now(w.samples))..] == [] || DeadPrefix(q, c, clock.now(w.samples)) < |q|;
  }

  // ---------------------------------------------------------------- passes, shards, the whole list

  /** Places `from` up to `to` of ring `p`. */
  function Stretch(i: nat, p: Priority, from: nat, to: nat): seq<Place>
    requires from <= to
  {
    seq(to - from, k requires 0 <= k < to - from => Place(i, p, from + k))
  }

  ghost predicate OtherRings(w: World, w': World, i: nat, p: Priority) {
    && |w'.shards| == |w.shards| && w'.samples >= w.samples
    && forall i2, p2: Priority :: 0 <= i2 < |w.shards| && (i2 != i || p2 != p) ==> w'.shards[i2].rings.At(p2) == w.shards[i2].rings.At(p2)
  }

  ghost predicate SameQuote(clock: Clock, w: World, w': World, x: Place, at: nat) {
    IsPlace(w, x) && IsPlace(w', x) && QuoteAt(clock, w', x, at) == QuoteAt(clock, w, x, at)
  }

  /** No quote of another ring changed. */
  ghost predicate OthersKeep(clock: Clock, w: World, w': World, i: nat, p: Priority) {
    && OtherRings(w, w', i, p)
    && forall x, at: nat :: IsPlace(w, x) && (x.shard != i || x.priority != p) && at >= w'.samples ==> SameQuote(clock, w, w', x, at)
  }

  lemma VisitKeepsOthers(cfg: Config, clock: Clock, w: World, i: nat, p: Priority)
    requires Inv(cfg, w) && CanVisit(w, i, p) && NonDecreasing(clock) && VisitRing(clock, w, i, p).served.None?
    ensures OthersKeep(clock, w, VisitRing(clock, w, i, p).world, i, p)
  {
    hide Inv, VisitRing, QuoteAt, IsPlace, NonDecreasing;
    RingAfter(clock, w, i, p);
    VisitServes(cfg, clock, w, i, p);
    var w1 := VisitRing(clock, w, i, p).world;
    assert OtherRings(w, w1, i, p);
    forall x, at: nat | IsPlace(w, x) && (x.shard != i || x.priority != p) && at >= w1.samples ensures SameQuote(clock, w, w1, x, at) {
      VisitCarries(cfg, clock, w, i, p, x, at);
    }
  }

  lemma OthersKeepTrans(clock: Clock, a: World, b: World, c: World, i: nat, p: Priority)
    requires OthersKeep(clock, a, b, i, p) && OthersKeep(clock, b, c, i, p)
    ensures OthersKeep(clock, a, c, i, p)
  {
    hide QuoteAt, IsPlace;
    forall x, at: nat | IsPlace(a, x) && (x.shard != i || x.priority != p) && at >= c.samples ensures SameQuote(clock, a, c, x, at) {
      assert SameQuote(clock, a, b, x, at) && SameQuote(clock, b, c, x, at);
    }
  }

  /** A pass serves the first of its places that pays; an unserved one takes one clock reading each and
      changes no quote of another ring. */
  lemma {:induction false} PassServes(cfg: Config, clock: Clock, w: World, i: nat, p: Priority, n: nat)
    requires Inv(cfg, w) && i < |w.shards| && NonDecreasing(clock) && n <= |w.shards[i].rings.At(p)|
    ensures var v := Pass(clock, w, i, p, n);
            && Inv(cfg, v.world)
            && ServesFirst(clock, w, Stretch(i, p, 0, n), v.served)
            && (v.served.None? ==> v.world.samples == w.samples + n && OthersKeep(clock, w, v.world, i, p))
    decreases n
  {
    hide BooksOk, TenantInvAt, Homed, RingsKnown, VisitRing, QuoteAt, NonDecreasing, ServesFirst, Carries, OthersKeep;
    if n == 0 {
      NoPlaces(clock, w, i, p);
    } else {
      var v := VisitRing(clock, w, i, p);
      VisitKeeps(cfg, clock, w, i, p);
      VisitServes(cfg, clock, w, i, p);
      RingAfter(clock, w, i, p);
      var first, rest := [Place(i, p, 0)], Stretch(i, p, 1, n);
      assert first + rest == Stretch(i, p, 0, n);
      if v.served.Some? {
        StretchIsPlaces(w, i, p, 1, n);
        ServedEarly(clock, w, first, rest, v.served);
      } else {
        PassServes(cfg, clock, v.world, i, p, n - 1);
        StretchCarries(cfg, clock, w, i, p, n);
        ServeOn(clock, w, first, v.world, rest, Stretch(i, p, 0, n - 1), Pass(clock, v.world, i, p, n - 1).served);
        VisitKeepsOthers(cfg, clock, w, i, p);
        if Pass(clock, v.world, i, p, n - 1).served.None? {
          OthersKeepTrans(clock, w, v.world, Pass(clock, v.world, i, p, n - 1).world, i, p);
        }
      }
    }
  }

  lemma NoPlaces(clock: Clock, w: World, i: nat, p: Priority)
    requires i < |w.shards|
    ensures ServesFirst(clock, w, Stretch(i, p, 0, 0), None) && OthersKeep(clock, w, w, i, p)
  {
    assert Quotes(clock, w, Stretch(i, p, 0, 0), w.samples) == [];
  }

  lemma StretchIsPlaces(w: World, i: nat, p: Priority, from: nat, to: nat)
    requires i < |w.shards| && from <= to <= |w.shards[i].rings.At(p)|
    ensures ArePlaces(w, Stretch(i, p, from, to))
  {
  }

  lemma StretchCarries(cfg: Config, clock: Clock, w: World, i: nat, p: Priority, n: nat)
    requires Inv(cfg, w) && CanVisit(w, i, p) && NonDecreasing(clock) && VisitRing(clock, w, i, p).served.None?
    requires 0 < n <= |w.shards[i].rings.At(p)|
    ensures Carries(clock, w, Stretch(i, p, 1, n), VisitRing(clock, w, i, p).world, Stretch(i, p, 0, n - 1))
  {
    hide Inv, VisitRing, QuoteAt, NonDecreasing;
    var w1, xs, ys := VisitRing(clock, w, i, p).world, Stretch(i, p, 1, n), Stretch(i, p, 0, n - 1);
    VisitServes(cfg, clock, w, i, p);
    RingAfter(clock, w, i, p);
    forall k, at: nat | 0 <= k < |xs| && at >= w1.samples
      ensures IsPlace(w1, ys[k]) && QuoteAt(clock, w1, ys[k], at) == QuoteAt(clock, w, xs[k], at)
    {
      assert Moved(xs[k], i, p) == ys[k];
      VisitCarries(cfg, clock, w, i, p, xs[k], at);
    }
  }

  function RingPlaces(w: World, i: nat, p: Priority): seq<Place>
    requires i < |w.shards|
  {
    Stretch(i, p, 0, |w.shards[i].rings.At(p)|)
  }

  /** The places of a shard in the order a dequeue goes through them. */
  function ShardPlaces(w: World, i: nat): seq<Place>
    requires i < |w.shards|
  {
    RingPlaces(w, i, High) + RingPlaces(w, i, Normal) + RingPlaces(w, i, Low)
  }

  lemma FullPassServes(cfg: Config, clock: Clock, w: World, i: nat, p: Priority)
    requires Inv(cfg, w) && i < |w.shards| && NonDecreasing(clock)
    ensures var v := FullPass(clock, w, i, p);
            && Inv(cfg, v.world)
            && ServesFirst(clock, w, RingPlaces(w, i, p), v.served)
            && (v.served.None? ==> v.world.samples == w.samples + |RingPlaces(w, i, p)| && OthersKeep(clock, w, v.world, i, p))
  {
    hide Inv, Pass, ServesFirst, OthersKeep, NonDecreasing;
    PassServes(cfg, clock, w, i, p, |w.shards[i].rings.At(p)|);
  }

  /** An unserved pass over one ring carries the places of another over unchanged. */
  lemma OtherRingCarries(clock: Clock, w: World, w': World, i: nat, p: Priority, i2: nat, p2: Priority)
    requires OthersKeep(clock, w, w', i, p) && i2 < |w.shards| && (i2 != i || p2 != p)
    ensures RingPlaces(w', i2, p2) == RingPlaces(w, i2, p2)
    ensures Carries(clock, w, RingPlaces(w, i2, p2), w', RingPlaces(w, i2, p2))
  {
    hide QuoteAt;
    var xs := RingPlaces(w, i2, p2);
    StretchIsPlaces(w, i2, p2, 0, |w.shards[i2].rings.At(p2)|);
    StretchIsPlaces(w', i2, p2, 0, |w.shards[i2].rings.At(p2)|);
    forall k, at: nat | 0 <= k < |xs| && at >= w'.samples ensures QuoteAt(clock, w', xs[k], at) == QuoteAt(clock, w, xs[k], at) {
      assert SameQuote(clock, w, w', xs[k], at);
    }
  }

  lemma CarriesTrans(clock: Clock, w: World, xs: seq<Place>, w1: World, ys: seq<Place>, w2: World, zs: seq<Place>)
    requires Carries(clock, w, xs, w1, ys) && Carries(clock, w1, ys, w2, zs) && w1.samples <= w2.samples
    ensures Carries(clock, w, xs, w2, zs)
  {
    hide QuoteAt, IsPlace;
    forall k, at: nat | 0 <= k < |xs| && at >= w2.samples ensures QuoteAt(clock, w2, zs[k], at) == QuoteAt(clock, w, xs[k], at) {
      assert QuoteAt(clock, w1, ys[k], at) == QuoteAt(clock, w, xs[k], at);
    }
  }

  /** No quote of another shard changed. */
  ghost predicate ShardsKeep(clock: Clock, w: World, w': World, i: nat) {
    && |w'.shards| == |w.shards| && w'.samples >= w.samples
    && (forall i2 :: 0 <= i2 < |w.shards| && i2 != i ==> w'.shards[i2].rings == w.shards[i2].rings)
    && forall x, at: nat :: IsPlace(w, x) && x.shard != i && at >= w'.samples ==> SameQuote(clock, w, w', x, at)
  }

  lemma OneShardKeeps(clock: Clock, w: World, w': World, i: nat, p: Priority)
    requires OthersKeep(clock, w, w', i, p)
    ensures ShardsKeep(clock, w, w', i)
  {
    hide SameQuote, IsPlace;
    forall i2 | 0 <= i2 < |w.shards| && i2 != i ensures w'.shards[i2].rings == w.shards[i2].rings {
      var a, b := w'.shards[i2].rings, w.shards[i2].rings;
      assert a.At(High) == b.At(High) && a.At(Normal) == b.At(Normal) && a.At(Low) == b.At(Low);
    }
  }

  lemma ShardsKeepTrans(clock: Clock, a: World, b: World, c: World, i: nat)
    requires ShardsKeep(clock, a, b, i) && ShardsKeep(clock, b, c, i)
    ensures ShardsKeep(clock, a, c, i)
  {
    hide QuoteAt, IsPlace;
    forall x, at: nat | IsPlace(a, x) && x.shard != i && at >= c.samples ensures SameQuote(clock, a, c, x, at) {
      assert SameQuote(clock, a, b, x, at) && SameQuote(clock, b, c, x, at);
    }
  }

  /** A shard dequeue serves the first of its places that pays, High before Normal before Low. */
  lemma ShardServes(cfg: Config, clock: Clock, w: World, i: nat)
    requires Inv(cfg, w) && i < |w.shards| && NonDecreasing(clock)
    ensures var v := DequeueShard(clock, w, i);
            && Inv(cfg, v.world)
            && ServesFirst(clock, w, ShardPlaces(w, i), v.served)
            && (v.served.None? ==> v.world.samples == w.samples + |ShardPlaces(w, i)| && ShardsKeep(clock, w, v.world, i))
  {
    hide Inv, FullPass, ServesFirst, NonDecreasing, OthersKeep, Carries, RingPlaces, ShardsKeep;
    var high, normal, low := RingPlaces(w, i, High), RingPlaces(w, i, Normal), RingPlaces(w, i, Low);
    PlacesOfShard(w, i);
    var h := FullPass(clock, w, i, High);
    FullPassServes(cfg, clock, w, i, High);
    if h.served.Some? {
      ServedEarly(clock, w, high, normal, h.served);
      ServedEarly(clock, w, high + normal, low, h.served);
    } else {
      var n := FullPass(clock, h.world, i, Normal);
      OtherRingCarries(clock, w, h.world, i, High, i, Normal);
      OtherRingCarries(clock, w, h.world, i, High, i, Low);
      FullPassServes(cfg, clock, h.world, i, Normal);
      ServeOn(clock, w, high, h.world, normal, normal, n.served);
      OneShardKeeps(clock, w, h.world, i, High);
      if n.served.Some? {
        ServedEarly(clock, w, high + normal, low, n.served);
      } else {
        var l := FullPass(clock, n.world, i, Low);
        OtherRingCarries(clock, h.world, n.world, i, Normal, i, Low);
        CarriesTrans(clock, w, low, h.world, low, n.world, low);
        FullPassServes(cfg, clock, n.world, i, Low);
        ServeOn(clock, w, high + normal, n.world, low, low, l.served);
        OneShardKeeps(clock, h.world, n.world, i, Normal);
        ShardsKeepTrans(clock, w, h.world, n.world, i);
        if l.served.None? {
          OneShardKeeps(clock, n.world, l.world, i, Low);
          ShardsKeepTrans(clock, w, n.world, l.world, i);
        }
      }
    }
  }

  lemma PlacesOfShard(w: World, i: nat)
    requires i < |w.shards|
    ensures ArePlaces(w, RingPlaces(w, i, High)) && ArePlaces(w, RingPlaces(w, i, Normal)) && ArePlaces(w, RingPlaces(w, i, Low))
    ensures ArePlaces(w, ShardPlaces(w, i))
  {
    StretchIsPlaces(w, i, High, 0, |w.shards[i].rings.high|);
    StretchIsPlaces(w, i, Normal, 0, |w.shards[i].rings.normal|);
    StretchIsPlaces(w, i, Low, 0, |w.shards[i].rings.low|);
  }

  /** The places of the listed shards, in list order. */
  function ListPlaces(w: World, list: seq<nat>): seq<Place>
    requires forall i :: i in list ==> i < |w.shards|
  {
    if list == [] then []
    else
      assert list[0] in list && forall i :: i in list[1..] ==> i in list;
      ShardPlaces(w, list[0]) + ListPlaces(w, list[1..])
  }

  lemma {:induction false} ListIsPlaces(w: World, list: seq<nat>)
    requires forall i :: i in list ==> i < |w.shards|
    ensures ArePlaces(w, ListPlaces(w, list))
  {
    hide IsPlace, ShardPlaces;
    if list != [] {
      assert list[0] in list && forall i :: i in list[1..] ==> i in list;
      PlacesOfShard(w, list[0]);
      ListIsPlaces(w, list[1..]);
    }
  }

  /** Dequeuing from shard `i` carries over what the other listed shards quote. */
  lemma {:induction false} ListCarries(clock: Clock, w: World, w': World, i: nat, list: seq<nat>)
    requires ShardsKeep(clock, w, w', i) && forall j :: j in list ==> j < |w.shards| && j != i
    ensures ListPlaces(w', list) == ListPlaces(w, list)
    ensures Carries(clock, w, ListPlaces(w, list), w', ListPlaces(w', list))
  {
    hide QuoteAt, IsPlace;
    ListIsPlaces(w, list);
    ListIsPlaces(w', list);
    if list != [] {
      assert list[0] in list && forall j :: j in list[1..] ==> j in list;
      ListCarries(clock, w, w', i, list[1..]);
      var xs := ListPlaces(w, list);
      assert w'.shards[list[0]].rings == w.shards[list[0]].rings;
      forall k, at: nat | 0 <= k < |xs| && at >= w'.samples ensures QuoteAt(clock, w', xs[k], at) == QuoteAt(clock, w, xs[k], at) {
        PlacesElsewhere(w, i, list, k);
        assert SameQuote(clock, w, w', xs[k], at);
      }
    }
  }

  lemma {:induction false} PlacesElsewhere(w: World, i: nat, list: seq<nat>, k: nat)
    requires forall j :: j in list ==> j < |w.shards| && j != i
    requires k < |ListPlaces(w, list)|
    ensures ListPlaces(w, list)[k].shard != i
  {
    assert list[0] in list && forall j :: j in list[1..] ==> j in list;
    if k >= |ShardPlaces(w, list[0])| {
      PlacesElsewhere(w, i, list[1..], k - |ShardPlaces(w, list[0])|);
    }
  }

  lemma {:induction false} LoopServes(cfg: Config, clock: Clock, s: State, remaining: nat)
    requires StateInv(cfg, s) && NonDecreasing(clock) && remaining <= |s.activeShards|
    ensures forall i :: i in s.activeShards[..remaining] ==> i < |s.world.shards|
    ensures ServesFirst(clock, s.world, ListPlaces(s.world, s.activeShards[..remaining]), DequeueLoop(clock, s, remaining).1)
    decreases remaining
  {
    hide Inv, ListOk, DequeueShard, NonDecreasing, Settled, ServesFirst, ShardsKeep, ShardPlaces, Carries;
    var w, list := s.world, s.activeShards[..remaining];
    assert forall i :: i in list ==> i in s.activeShards;
    if remaining == 0 {
      EmptyList(clock, w, list);
    } else {
      var i := s.activeShards[0];
      assert i in s.activeShards;
      var rest := s.activeShards[1..remaining];
      assert list[0] == i && list[1..] == rest && forall j :: j in rest ==> j in s.activeShards;
      var v := DequeueShard(clock, w, i);
      ShardServes(cfg, clock, w, i);
      ListIsPlaces(w, rest);
      if v.served.Some? {
        ServedEarly(clock, w, ShardPlaces(w, i), ListPlaces(w, rest), v.served);
      } else {
        var s1 := Settled(s, i, v.world);
        DequeueStaysInShard(clock, w, i);
        SettledKeepsList(s, i, v.world);
        SettledShape(s, i, v.world);
        LoopServes(cfg, clock, s1, remaining - 1);
        assert s1.activeShards[..remaining - 1] == rest;
        ListedOnce(s, rest, remaining);
        ListCarries(clock, w, v.world, i, rest);
        ServeOn(clock, w, ShardPlaces(w, i), v.world, ListPlaces(w, rest), ListPlaces(v.world, rest), DequeueLoop(clock, s1, remaining - 1).1);
      }
    }
  }

  lemma ListedOnce(s: State, rest: seq<nat>, remaining: nat)
    requires s.Shaped() && ListOk(s) && 0 < remaining <= |s.activeShards| && rest == s.activeShards[1..remaining]
    ensures forall j :: j in rest ==> j != s.activeShards[0]
  {
  }

  lemma EmptyList(clock: Clock, w: World, list: seq<nat>)
    requires list == []
    ensures ServesFirst(clock, w, ListPlaces(w, list), None)
  {
    assert Quotes(clock, w, ListPlaces(w, list), w.samples) == [];
  }

  /** Which task `try_dequeue` hands out, exactly: going through the listed shards in list order and through
      each shard's rings High, Normal, Low, one clock reading per place, it delivers the live head of the
      first place that pays, and delivers nothing if and only if no place pays. */
  lemma FirstPayingIsDelivered(cfg: Config, clock: Clock, s: State)
    requires StateInv(cfg, s) && NonDecreasing(clock) && s.shutdown != Immediate
    ensures var w, xs := s.world, ListPlaces(s.world, s.activeShards);
            ArePlaces(w, xs) &&
            var winner, r := Winner(Quotes(clock, w, xs, w.samples)), TryDequeue(clock, s).1;
            && (r.Delivered? <==> winner.Some?)
            && (r.Delivered? ==> winner.value == Quote(r.tenant, r.entry.task.priority, Some(r.entry), true))
  {
    hide Inv, ListOk, DequeueLoop, NonDecreasing, Quotes, ListPlaces, IsPlace;
    LoopServes(cfg, clock, s, |s.activeShards|);
    assert s.activeShards[..|s.activeShards|] == s.activeShards;
    var quotes := Quotes(clock, s.world, ListPlaces(s.world, s.activeShards), s.world.samples);
    WinnerPays(quotes);
  }

  lemma {:induction false} WinnerPays(quotes: seq<Quote>)
    ensures Winner(quotes).Some? ==> Winner(quotes).value.pays
  {
    if quotes != [] {
      WinnerPays(quotes[1..]);
    }
  }

  /** Some place of ring `p` of shard `i` pays when a dequeue that served nobody before reaches it. */
  ghost predicate RingPays(clock: Clock, w: World, i: nat, p: Priority)
    requires i < |w.shards|
  {
    var before := match p
                  case High => 0
                  case Normal => |w.shards[i].rings.high|
                  case Low => |w.shards[i].rings.high| + |w.shards[i].rings.normal|;
    exists k :: 0 <= k < |w.shards[i].rings.At(p)| && QuoteAt(clock, w, Place(i, p, k), w.samples + before + k).pays
  }

  lemma RingWinner(clock: Clock, w: World, i: nat, p: Priority, before: nat)
    requires i < |w.shards|
    ensures ArePlaces(w, RingPlaces(w, i, p))
    ensures var winner := Winner(Quotes(clock, w, RingPlaces(w, i, p), w.samples + before));
            && (winner.Some? ==> winner.value.priority == p)
            && (winner.Some? <==> exists k :: 0 <= k < |w.shards[i].rings.At(p)| && QuoteAt(clock, w, Place(i, p, k), w.samples + before + k).pays)
  {
    hide QuoteAt;
    var xs := RingPlaces(w, i, p);
    StretchIsPlaces(w, i, p, 0, |w.shards[i].rings.At(p)|);
    var quotes := Quotes(clock, w, xs, w.samples + before);
    forall k | 0 <= k < |xs| ensures quotes[k] == QuoteAt(clock, w, Place(i, p, k), w.samples + before + k) && quotes[k].priority == p {
      QuotePriority(clock, w, xs[k], w.samples + before + k);
    }
    NobodyWins(quotes);
    WinnerIsOne(quotes);
  }

  lemma QuotePriority(clock: Clock, w: World, x: Place, at: nat)
    requires IsPlace(w, x)
    ensures QuoteAt(clock, w, x, at).priority == x.priority
  {
  }

  lemma {:induction false} WinnerIsOne(quotes: seq<Quote>)
    ensures Winner(quotes).Some? ==> Winner(quotes).value in quotes
  {
    if quotes != [] {
      WinnerIsOne(quotes[1..]);
    }
  }

  /** When a shard honours a priority: its dequeue delivers a task of priority `p` if and only if some place
      of ring `p` pays and none of a higher ring does. A live task that cannot be paid does not hold lower
      priorities back. */
  lemma PriorityServedExactly(cfg: Config, clock: Clock, w: World, i: nat, p: Priority)
    requires Inv(cfg, w) && i < |w.shards| && NonDecreasing(clock)
    ensures var served := DequeueShard(clock, w, i).served;
            (served.Some? && served.value.1.task.priority == p) <==>
            RingPays(clock, w, i, p) && forall p2: Priority :: p2.Index() < p.Index() ==> !RingPays(clock, w, i, p2)
  {
    hide Inv, DequeueShard, NonDecreasing, QuoteAt, Winner, RingPlaces;
    ShardServes(cfg, clock, w, i);
    var high, normal, low := RingPlaces(w, i, High), RingPlaces(w, i, Normal), RingPlaces(w, i, Low);
    RingLengths(w, i);
    PlacesOfShard(w, i);
    RingWinner(clock, w, i, High, 0);
    RingWinner(clock, w, i, Normal, |high|);
    RingWinner(clock, w, i, Low, |high| + |normal|);
    QuotesConcat(clock, w, high, normal, w.samples);
    QuotesConcat(clock, w, high + normal, low, w.samples);
    var a, b, c := Quotes(clock, w, high, w.samples), Quotes(clock, w, normal, w.samples + |high|), Quotes(clock, w, low, w.samples + (|high| + |normal|));
    WinnerOfTwo(a, b);
    WinnerOfTwo(a + b, c);
    assert Winner(a).Some? <==> RingPays(clock, w, i, High);
    assert Winner(b).Some? <==> RingPays(clock, w, i, Normal);
    assert Winner(c).Some? <==> RingPays(clock, w, i, Low);
    assert High.Index() == 0 && Normal.Index() == 1 && Low.Index() == 2;
  }

  lemma RingLengths(w: World, i: nat)
    requires i < |w.shards|
    ensures forall p: Priority :: |RingPlaces(w, i, p)| == |w.shards[i].rings.At(p)|
  {
  }
}
