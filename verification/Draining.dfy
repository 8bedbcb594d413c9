/** Repeated `try_dequeue` empties the scheduler, and drain mode closes only when nothing is pending. */
module Draining {
  import opened Types
  import opened World
  import opened Invariant
  import opened EnqueueProofs
  import opened Preservation
  import opened Delivery
  import opened Guarantees
  import opened Service
  import opened Sums
  import opened Refills
  import opened BoundedWait

  // ---------------------------------------------------------------- the measure

  /** Two ways to measure how far the heads are from being affordable. */
  datatype Measure = ByShortage | ByRounds

  /** A head's missing deficit, or the refills it still needs. */
  ghost function LaneDue(m: Measure, q: seq<Entry>, deficit: int, quantum: int): nat {
    if q == [] then 0
    else
      var cost := ChargeFor(q[0].task.cost);
      match m
      case ByShortage => Max(0, cost - deficit)
      case ByRounds => if Payable(cost, deficit, quantum) then Rounds(cost, deficit, quantum) else 0
  }

  ghost function TenantDue(m: Measure, ts: TenantState): nat {
    LaneDue(m, ts.queues.high, ts.deficits.high, ts.quantum) + LaneDue(m, ts.queues.normal, ts.deficits.normal, ts.quantum) +
    LaneDue(m, ts.queues.low, ts.deficits.low, ts.quantum)
  }

  ghost function ShardEntries(s: Shard): nat {
    SumMap(map t | t in s.tenants :: s.tenants[t].TotalLen())
  }

  ghost function ShardDue(m: Measure, s: Shard): nat {
    SumMap(map t | t in s.tenants :: TenantDue(m, s.tenants[t]))
  }

  /** Entries physically queued, dead ones included. */
  ghost function Entries(w: World): nat {
    SumSeq(seq(|w.shards|, i requires 0 <= i < |w.shards| => ShardEntries(w.shards[i])))
  }

  /** What all heads together are short of, or the refills they all need. */
  ghost function Due(m: Measure, w: World): nat {
    SumSeq(seq(|w.shards|, i requires 0 <= i < |w.shards| => ShardDue(m, w.shards[i])))
  }

  ghost predicate NotAbove(m: Measure, w: World, w': World) {
    Entries(w') < Entries(w) || (Entries(w') == Entries(w) && Due(m, w') <= Due(m, w))
  }

  ghost predicate Below(m: Measure, w: World, w': World) {
    Entries(w') < Entries(w) || (Entries(w') == Entries(w) && Due(m, w') < Due(m, w))
  }

  /** Rewriting one tenant of one shard changes both sums by that tenant's share. */
  lemma SumsOfWrite(m: Measure, w: World, w': World, i: nat, t: Tenant, ts': TenantState)
    requires i < |w.shards| && t in w.shards[i].tenants
    requires |w'.shards| == |w.shards| && w'.shards[i].tenants == w.shards[i].tenants[t := ts']
    requires forall j :: 0 <= j < |w.shards| && j != i ==> w'.shards[j] == w.shards[j]
    ensures Entries(w') == Entries(w) + ts'.TotalLen() - w.shards[i].tenants[t].TotalLen()
    ensures Due(m, w') == Due(m, w) + TenantDue(m, ts') - TenantDue(m, w.shards[i].tenants[t])
  {
    EntriesOfWrite(w, w', i, t, ts');
    DueOfWrite(m, w, w', i, t, ts');
  }

  lemma EntriesOfWrite(w: World, w': World, i: nat, t: Tenant, ts': TenantState)
    requires i < |w.shards| && t in w.shards[i].tenants
    requires |w'.shards| == |w.shards| && w'.shards[i].tenants == w.shards[i].tenants[t := ts']
    requires forall j :: 0 <= j < |w.shards| && j != i ==> w'.shards[j] == w.shards[j]
    ensures Entries(w') == Entries(w) + ts'.TotalLen() - w.shards[i].tenants[t].TotalLen()
  {
    hide TenantState.TotalLen, SumMap, SumSeq;
    var s, s' := w.shards[i], w'.shards[i];
    var m := map x | x in s.tenants :: s.tenants[x].TotalLen();
    SumWrite(m, t, ts'.TotalLen());
    assert (map x | x in s'.tenants :: s'.tenants[x].TotalLen()) == m[t := ts'.TotalLen()];
    var a := seq(|w.shards|, j requires 0 <= j < |w.shards| => ShardEntries(w.shards[j]));
    SumSeqWrite(a, i, ShardEntries(s'));
    assert seq(|w'.shards|, j requires 0 <= j < |w'.shards| => ShardEntries(w'.shards[j])) == a[i := ShardEntries(s')];
  }

  lemma DueOfWrite(m: Measure, w: World, w': World, i: nat, t: Tenant, ts': TenantState)
    requires i < |w.shards| && t in w.shards[i].tenants
    requires |w'.shards| == |w.shards| && w'.shards[i].tenants == w.shards[i].tenants[t := ts']
    requires forall j :: 0 <= j < |w.shards| && j != i ==> w'.shards[j] == w.shards[j]
    ensures Due(m, w') == Due(m, w) + TenantDue(m, ts') - TenantDue(m, w.shards[i].tenants[t])
  {
    hide TenantDue;
    var s, s' := w.shards[i], w'.shards[i];
    var dues := map x | x in s.tenants :: TenantDue(m, s.tenants[x]);
    SumWrite(dues, t, TenantDue(m, ts'));
    assert (map x | x in s'.tenants :: TenantDue(m, s'.tenants[x])) == dues[t := TenantDue(m, ts')];
    var a := seq(|w.shards|, j requires 0 <= j < |w.shards| => ShardDue(m, w.shards[j]));
    SumSeqWrite(a, i, ShardDue(m, s'));
    assert seq(|w'.shards|, j requires 0 <= j < |w'.shards| => ShardDue(m, w'.shards[j])) == a[i := ShardDue(m, s')];
  }

  // ---------------------------------------------------------------- one visit

  /** Every head the lane can come to have, whatever expires before it, is within the lane's peak then. */
  ghost predicate LaneDrains(q: seq<Entry>, deficit: int, u: nat, cancelled: set<Id>)
    requires u > 0
  {
    q == [] ||
    if q[0].id in cancelled then LaneDrains(q[1..], deficit, u, cancelled)
    else
      var cost := ChargeFor(q[0].task.cost);
      && cost <= Peak(deficit, u)
      && LaneDrains(q[1..], deficit - cost, u, cancelled)
      && (q[0].task.deadline.Some? ==> LaneDrains(q[1..], deficit, u, cancelled))
  }

  /** What draining lane `q` by either measure asks for: no refill overflows, or every head can be paid. */
  ghost predicate LaneFits(m: Measure, q: seq<Entry>, deficit: int, quantum: int, cancelled: set<Id>) {
    match m
    case ByShortage => forall e :: e in q ==> quantum >= 1 && ChargeFor(e.task.cost) - 1 + quantum <= I64_MAX
    case ByRounds => q == [] || (AsU64(quantum) > 0 && LaneDrains(q, deficit, AsU64(quantum), cancelled))
  }

  ghost predicate TenantFits(m: Measure, ts: TenantState, p: Priority, cancelled: set<Id>) {
    LaneFits(m, ts.queues.At(p), ts.deficits.At(p), ts.quantum, cancelled)
  }

  ghost predicate Fits(m: Measure, w: World)
    requires w.shards != []
  {
    forall t, p: Priority :: TenantFits(m, HomeState(w, t), p, w.books.cancelled)
  }

  /** A refill moves a deficit by a multiple of the quantum's lowest bit. */
  lemma RefillStep(deficit: int, quantum: int) returns (k: int)
    requires AsU64(quantum) > 0
    ensures WrapI64(deficit + quantum) == deficit + LowBit(AsU64(quantum)) * k
  {
    hide WrapI64, LowBit, Pow2;
    var u := AsU64(quantum);
    var x := deficit + quantum;
    var turns := quantum / TWO_64 - (x - I64_MIN) / TWO_64;
    TwoTo64();
    var odd, e := LowBitSplits(u, 64);
    var rest := Pow2(64 - e);
    Pow2Splits(e, 64 - e);
    WrapIs(x);
    Spread(TWO_64, quantum / TWO_64, -((x - I64_MIN) / TWO_64));
    Regroup(LowBit(u), rest, turns);
    Spread(LowBit(u), rest * turns, odd);
    k := rest * turns + odd;
  }

  /** Only the residue of the deficit matters to whether a lane drains. */
  lemma {:induction false} DrainsAlike(q: seq<Entry>, deficit: int, k: int, u: nat, cancelled: set<Id>)
    requires u > 0
    ensures LaneDrains(q, deficit + LowBit(u) * k, u, cancelled) == LaneDrains(q, deficit, u, cancelled)
  {
    hide LowBit, ChargeFor;
    if q != [] {
      var cost := ChargeFor(q[0].task.cost);
      ModShift(I64_MAX - deficit, LowBit(u), -k);
      Spread(LowBit(u), k, -k);
      assert Peak(deficit + LowBit(u) * k, u) == Peak(deficit, u);
      DrainsAlike(q[1..], deficit, k, u, cancelled);
      DrainsAlike(q[1..], deficit - cost, k, u, cancelled);
    }
  }

  /** Markers of other lanes do not matter. */
  lemma {:induction false} DrainsUnmarked(q: seq<Entry>, deficit: int, u: nat, c: set<Id>, c': set<Id>)
    requires u > 0 && forall e :: e in q ==> (e.id in c <==> e.id in c')
    ensures LaneDrains(q, deficit, u, c) == LaneDrains(q, deficit, u, c')
  {
    hide Peak, ChargeFor;
    if q != [] {
      assert q[0] in q && forall e :: e in q[1..] ==> e in q;
      DrainsUnmarked(q[1..], deficit, u, c, c');
      DrainsUnmarked(q[1..], deficit - ChargeFor(q[0].task.cost), u, c, c');
    }
  }

  lemma FitsUnmarked(m: Measure, q: seq<Entry>, deficit: int, quantum: int, c: set<Id>, c': set<Id>)
    requires forall e :: e in q ==> (e.id in c <==> e.id in c')
    ensures LaneFits(m, q, deficit, quantum, c) == LaneFits(m, q, deficit, quantum, c')
  {
    hide LaneDrains;
    if AsU64(quantum) > 0 {
      DrainsUnmarked(q, deficit, AsU64(quantum), c, c');
    }
  }

  ghost predicate Timeless(q: seq<Entry>) {
    forall e :: e in q ==> e.task.deadline.None?
  }

  /** Losing its dead prefix leaves a lane that drains as it was; without deadlines also one that does not. */
  lemma {:induction false} DropKeepsDraining(q: seq<Entry>, deficit: int, u: nat, c: set<Id>, now: Time)
    requires u > 0
    ensures var rest := q[DeadPrefix(q, c, now)..];
            && (LaneDrains(q, deficit, u, c) ==> LaneDrains(rest, deficit, u, c))
            && (Timeless(q) && LaneDrains(rest, deficit, u, c) ==> LaneDrains(q, deficit, u, c))
  {
    hide Peak, ChargeFor;
    if q != [] && Dead(q[0], c, now) {
      DropKeepsDraining(q[1..], deficit, u, c, now);
      assert q[1..][DeadPrefix(q, c, now) - 1..] == q[DeadPrefix(q, c, now)..];
      assert q[0] in q && forall e :: e in q[1..] ==> e in q;
    } else {
      assert q[0..] == q;
    }
  }
  /** A turn on a non-empty lane removes an entry or lowers what its head is due; on an empty one, neither
      rises. The lane goes on fitting. */
  lemma TurnShrinks(cfg: Config, m: Measure, clock: Clock, ts: TenantState, b: Books, samples: nat, t: Tenant, p: Priority)
    requires TurnPre(cfg, ts, b, t, p) && TenantFits(m, ts, p, b.cancelled)
    ensures var turn := TakeTurn(clock, ts, b, samples, t, p);
            var ts' := turn.state;
            var q, q' := ts.queues.At(p), ts'.queues.At(p);
            && TenantFits(m, ts', p, turn.books.cancelled)
            && |q'| <= |q|
            && (q == [] ==> q' == [])
            && (q != [] && |q'| == |q| ==>
                  LaneDue(m, q', ts'.deficits.At(p), ts'.quantum) < LaneDue(m, q, ts.deficits.At(p), ts.quantum))
  {
    hide BooksOk, LaneOk, ChargeFor, QueueTime, WrapI64, LaneFits, TakeTurn, LaneDue, DeadPrefix;
    TurnSummary(cfg, clock, ts, b, samples, t, p);
    var q, d := ts.queues.At(p), ts.deficits.At(p);
    var now := clock.now(samples);
    assert DeficitOk(ts, t, p, b.history.log) && LaneOk(q, t, p, b);
    LaneIncreases(q, t, p, b);
    if m == ByShortage {
      ShortageTurn(q, d, ts.quantum, b.cancelled, now);
    } else {
      RoundsTurn(q, d, ts.quantum, b.cancelled, now);
    }
  }

  /** The queue, deficit and markers a turn leaves, on values. */
  function LaneAfter(q: seq<Entry>, deficit: int, quantum: int, c: set<Id>, now: Time): (seq<Entry>, int) {
    var k := DeadPrefix(q, c, now);
    if k == |q| then ([], deficit)
    else if deficit < ChargeFor(q[k].task.cost) then (q[k..], WrapI64(deficit + quantum))
    else (q[k + 1..], deficit - ChargeFor(q[k].task.cost))
  }

  lemma ShortageTurn(q: seq<Entry>, deficit: int, quantum: int, c: set<Id>, now: Time)
    requires I64_MIN <= deficit <= I64_MAX && LaneFits(ByShortage, q, deficit, quantum, c)
    ensures var (q', d') := LaneAfter(q, deficit, quantum, c, now);
            && LaneFits(ByShortage, q', d', quantum, c - Ids(q[..DeadPrefix(q, c, now)]))
            && |q'| <= |q|
            && (q != [] && |q'| == |q| ==> LaneDue(ByShortage, q', d', quantum) < LaneDue(ByShortage, q, deficit, quantum))
  {
    hide ChargeFor, WrapI64, Payable, Rounds;
    var k := DeadPrefix(q, c, now);
    if k < |q| {
      assert q[k] in q;
    }
    if k == 0 {
      assert q[k..] == q;
    }
  }

  lemma RoundsTurn(q: seq<Entry>, deficit: int, quantum: int, c: set<Id>, now: Time)
    requires I64_MIN <= deficit <= I64_MAX && LaneFits(ByRounds, q, deficit, quantum, c) && Increasing(q)
    ensures var (q', d') := LaneAfter(q, deficit, quantum, c, now);
            && LaneFits(ByRounds, q', d', quantum, c - Ids(q[..DeadPrefix(q, c, now)]))
            && |q'| <= |q|
            && (q != [] && |q'| == |q| ==> LaneDue(ByRounds, q', d', quantum) < LaneDue(ByRounds, q, deficit, quantum))
  {
    hide ChargeFor, WrapI64, Payable, Rounds, Peak;
    var k := DeadPrefix(q, c, now);
    var u := AsU64(quantum);
    if k < |q| {
      DrainsAfter(q, deficit, quantum, c, now);
      RestUnmarked(q, c, k);
      assert forall e :: e in LaneAfter(q, deficit, quantum, c, now).0 ==> e in q[k..];
      FitsUnmarked(ByRounds, LaneAfter(q, deficit, quantum, c, now).0, LaneAfter(q, deficit, quantum, c, now).1, quantum, c, c - Ids(q[..k]));
      if k == 0 && deficit < ChargeFor(q[0].task.cost) {
        assert q[k..] == q;
        ChargeFits(q[0].task.cost);
        PayableExactly(ChargeFor(q[0].task.cost), deficit, quantum);
        RoundsStep(ChargeFor(q[0].task.cost), deficit, quantum);
      }
    }
  }

  /** Draining is decided by the queue alone: a turn leaves a lane that drains so, and, without deadlines,
      one that does not so too. */
  lemma DrainsAfter(q: seq<Entry>, deficit: int, quantum: int, c: set<Id>, now: Time)
    requires I64_MIN <= deficit <= I64_MAX && AsU64(quantum) > 0
    ensures var (q', d') := LaneAfter(q, deficit, quantum, c, now);
            var u := AsU64(quantum);
            && (LaneDrains(q, deficit, u, c) ==> LaneDrains(q', d', u, c))
            && (Timeless(q) && LaneDrains(q', d', u, c) ==> LaneDrains(q, deficit, u, c))
  {
    hide ChargeFor, WrapI64, LowBit;
    var k, u := DeadPrefix(q, c, now), AsU64(quantum);
    var rest := q[k..];
    DropKeepsDraining(q, deficit, u, c, now);
    if k < |q| {
      var cost := ChargeFor(q[k].task.cost);
      if deficit < cost {
        var step := RefillStep(deficit, quantum);
        DrainsAlike(rest, deficit, step, u, c);
      } else {
        assert rest[1..] == q[k + 1..];
        BelowPeak(deficit, u);
      }
    } else {
      assert rest == [];
    }
  }

  lemma BelowPeak(deficit: int, u: nat)
    requires u > 0 && deficit <= I64_MAX
    ensures deficit <= Peak(deficit, u)
  {
    AtLeastRemainder(I64_MAX - deficit, LowBit(u));
  }

  /** The refill of a live head that cannot be paid yet brings it nearer exactly when deficit and configured
      quantum together fit an `i64`; otherwise the addition wraps around and takes deficit away. */
  lemma RefillHelpsExactly(cfg: Config, clock: Clock, ts: TenantState, b: Books, samples: nat, t: Tenant, p: Priority, quanta: Quanta)
    requires TurnPre(cfg, ts, b, t, p)
    requires QuantumFor(quanta, t) <= U64_MAX && ts.quantum == AsI64(QuantumFor(quanta, t))
    requires var q := ts.queues.At(p);
             q != [] && !Dead(q[0], b.cancelled, clock.now(samples)) && ts.deficits.At(p) < ChargeFor(q[0].task.cost)
    ensures var turn := TakeTurn(clock, ts, b, samples, t, p);
            && turn.served.None? && turn.state.queues.At(p) == ts.queues.At(p)
            && (LaneDue(ByShortage, turn.state.queues.At(p), turn.state.deficits.At(p), turn.state.quantum)
                < LaneDue(ByShortage, ts.queues.At(p), ts.deficits.At(p), ts.quantum)
                <==> ts.deficits.At(p) + QuantumFor(quanta, t) <= I64_MAX)
  {
    hide BooksOk, LaneOk, ChargeFor, QuantumFor, TakeTurn, Dead, WrapI64, Payable, Rounds;
    var q, d, quantum := ts.queues.At(p), ts.deficits.At(p), QuantumFor(quanta, t);
    TurnSummary(cfg, clock, ts, b, samples, t, p);
    assert DeadPrefix(q, b.cancelled, clock.now(samples)) == 0;
    assert q[0..] == q;
    assert DeficitOk(ts, t, p, b.history.log);
    WrapTwice(quantum, d);
    RisesExactly(d, quantum);
    ChargeFits(q[0].task.cost);
  }

  lemma RisesExactly(deficit: int, quantum: nat)
    requires I64_MIN <= deficit <= I64_MAX && 1 <= quantum <= U64_MAX
    ensures WrapI64(deficit + quantum) > deficit <==> deficit + quantum <= I64_MAX
  {
  }

  lemma TurnMeasure(m: Measure, ts: TenantState, ts': TenantState, p: Priority)
    requires ts'.quantum == ts.quantum
    requires forall p2: Priority :: p2 != p ==> ts'.queues.At(p2) == ts.queues.At(p2) && ts'.deficits.At(p2) == ts.deficits.At(p2)
    requires |ts'.queues.At(p)| <= |ts.queues.At(p)|
    ensures ts'.TotalLen() - ts.TotalLen() == |ts'.queues.At(p)| - |ts.queues.At(p)|
    ensures TenantDue(m, ts') - TenantDue(m, ts) ==
            LaneDue(m, ts'.queues.At(p), ts'.deficits.At(p), ts.quantum) - LaneDue(m, ts.queues.At(p), ts.deficits.At(p), ts.quantum)
  {
    hide LaneDue;
    assert p != High ==> ts'.queues.At(High) == ts.queues.At(High) && ts'.deficits.At(High) == ts.deficits.At(High);
    assert p != Normal ==> ts'.queues.At(Normal) == ts.queues.At(Normal) && ts'.deficits.At(Normal) == ts.deficits.At(Normal);
    assert p != Low ==> ts'.queues.At(Low) == ts.queues.At(Low) && ts'.deficits.At(Low) == ts.deficits.At(Low);
  }

  lemma VisitShrinks(cfg: Config, m: Measure, clock: Clock, w: World, i: nat, p: Priority)
    requires Inv(cfg, w) && CanVisit(w, i, p) && Fits(m, w)
    ensures var w' := VisitRing(clock, w, i, p).world;
            var t := w.shards[i].rings.At(p)[0];
            && |w'.shards| == |w.shards|
            && Fits(m, w')
            && NotAbove(m, w, w')
            && (HomeState(w, t).queues.At(p) != [] ==> Below(m, w, w'))
            && (HomeState(w, t).queues.At(p) == [] ==> HomeState(w', t).queues.At(p) == [])
            && (forall x, p2: Priority :: x != t || p2 != p ==> HomeState(w', x).queues.At(p2) == HomeState(w, x).queues.At(p2))
  {
    hide BooksOk, TenantInvAt, TakeTurn, TurnPre, Homed, RingsKnown, Entries, Due, TenantDue, LaneDue, LaneFits, TenantState.TotalLen, QuantumFor, AsI64;
    var t := w.shards[i].rings.At(p)[0];
    RingHead(cfg, w, i, p);
    VisitSummary(cfg, clock, w, i, p);
    var ts := w.shards[i].tenants[t];
    var w' := VisitRing(clock, w, i, p).world;
    var ts' := TakeTurn(clock, ts, w.books, w.samples, t, p).state;
    assert TenantFits(m, HomeState(w, t), p, w.books.cancelled);
    TurnShrinks(cfg, m, clock, ts, w.books, w.samples, t, p);
    TurnSummary(cfg, clock, ts, w.books, w.samples, t, p);
    TurnMeasure(m, ts, ts', p);
    SumsOfWrite(m, w, w', i, t, ts');
    if ts.queues.At(p) == [] {
      EmptyLane(m, ts.deficits.At(p), ts.quantum);
      EmptyLane(m, ts'.deficits.At(p), ts.quantum);
    }
    forall x, p2: Priority ensures TenantFits(m, HomeState(w', x), p2, w'.books.cancelled) {
      if x != t || p2 != p {
        assert TenantFits(m, HomeState(w, x), p2, w.books.cancelled);
        var ts2 := HomeState(w, x);
        FitsUnmarked(m, ts2.queues.At(p2), ts2.deficits.At(p2), ts2.quantum, w.books.cancelled, w'.books.cancelled);
      }
    }
  }

  lemma EmptyLane(m: Measure, deficit: int, quantum: int)
    ensures LaneDue(m, [], deficit, quantum) == 0
  {
  }

  // ---------------------------------------------------------------- passes

  lemma BelowTrans(m: Measure, a: World, b: World, c: World)
    requires NotAbove(m, a, b) && NotAbove(m, b, c)
    ensures NotAbove(m, a, c) && (Below(m, a, b) || Below(m, b, c) ==> Below(m, a, c))
  {
    hide Entries, Due;
  }

  /** What a batch of visits guarantees: the measure does not rise, and it falls if a lane with work,
      `due`, was among those visited. */
  ghost predicate Progress(m: Measure, w: World, w': World, due: bool) {
    w'.shards != [] && Fits(m, w') && NotAbove(m, w, w') && (due ==> Below(m, w, w'))
  }

  lemma {:induction false} PassShrinks(cfg: Config, m: Measure, clock: Clock, w: World, i: nat, p: Priority, n: nat, j: nat)
    requires Inv(cfg, w) && i < |w.shards| && Fits(m, w)
    requires n <= |w.shards[i].rings.At(p)|
    ensures var w' := Pass(clock, w, i, p, n).world;
            && Inv(cfg, w')
            && Progress(m, w, w', j < n && HomeState(w, w.shards[i].rings.At(p)[j]).queues.At(p) != [])
            && (Pass(clock, w, i, p, n).served.Some? ==> Below(m, w, w'))
    decreases n
  {
    hide BooksOk, TenantInvAt, Homed, RingsKnown, HomeState, VisitRing, Entries, Due, Fits;
    var ring := w.shards[i].rings.At(p);
    if n > 0 {
      var v := VisitRing(clock, w, i, p);
      var w1 := v.world;
      VisitKeeps(cfg, clock, w, i, p);
      VisitShrinks(cfg, m, clock, w, i, p);
      RingAfter(clock, w, i, p);
      if v.served.Some? {
        ServedHadWork(cfg, clock, w, i, p);
      } else {
        var k := if j > 0 then j - 1 else 0;
        PassShrinks(cfg, m, clock, w1, i, p, n - 1, k);
        BelowTrans(m, w, w1, Pass(clock, w1, i, p, n - 1).world);
        if 0 < j < n && HomeState(w, ring[0]).queues.At(p) == [] {
          assert w1.shards[i].rings.At(p)[k] == ring[j];
          assert ring[j] != ring[0] ==> HomeState(w1, ring[j]).queues.At(p) == HomeState(w, ring[j]).queues.At(p);
        }
      }
    }
  }

  lemma ServedHadWork(cfg: Config, clock: Clock, w: World, i: nat, p: Priority)
    requires Inv(cfg, w) && CanVisit(w, i, p) && VisitRing(clock, w, i, p).served.Some?
    ensures HomeState(w, w.shards[i].rings.At(p)[0]).queues.At(p) != []
  {
    hide BooksOk, TenantInvAt, Homed, RingsKnown, HomeState, TakeTurn;
    RingHead(cfg, w, i, p);
    ServedTurnHadWork(clock, w.shards[i].tenants[w.shards[i].rings.At(p)[0]], w.books, w.samples, w.shards[i].rings.At(p)[0], p);
  }

  lemma ServedTurnHadWork(clock: Clock, ts: TenantState, b: Books, samples: nat, t: Tenant, p: Priority)
    requires TakeTurn(clock, ts, b, samples, t, p).served.Some?
    ensures ts.queues.At(p) != []
  {
    hide Reap, ChargeFor, QueueTime, Dispatch;
  }

  /** A pass over ring `p` touches no lane of another priority and no other ring. */
  lemma {:induction false} PassIsLocal(cfg: Config, m: Measure, clock: Clock, w: World, i: nat, p: Priority, n: nat)
    requires Inv(cfg, w) && i < |w.shards| && Fits(m, w) && n <= |w.shards[i].rings.At(p)|
    ensures var w' := Pass(clock, w, i, p, n).world;
            && |w'.shards| == |w.shards|
            && (forall p2: Priority :: p2 != p ==> w'.shards[i].rings.At(p2) == w.shards[i].rings.At(p2))
            && (forall i2 :: 0 <= i2 < |w.shards| && i2 != i ==> w'.shards[i2] == w.shards[i2])
            && (forall x, p2: Priority :: p2 != p ==> HomeState(w', x).queues.At(p2) == HomeState(w, x).queues.At(p2))
    decreases n
  {
    hide BooksOk, TenantInvAt, Homed, RingsKnown, HomeState, VisitRing, Entries, Due, Fits, NotAbove, Below;
    if n > 0 {
      VisitKeeps(cfg, clock, w, i, p);
      VisitShrinks(cfg, m, clock, w, i, p);
      RingAfter(clock, w, i, p);
      if VisitRing(clock, w, i, p).served.None? {
        PassIsLocal(cfg, m, clock, VisitRing(clock, w, i, p).world, i, p, n - 1);
      }
    }
  }

  /** Lane (t, p) of shard `i` has work and its tenant stands in the ring. */
  ghost predicate DueIn(w: World, i: nat, t: Tenant, p: Priority) {
    && i < |w.shards|
    && t in w.shards[i].rings.At(p)
    && HomeState(w, t).queues.At(p) != []
  }

  lemma FullPassShrinks(cfg: Config, m: Measure, clock: Clock, w: World, i: nat, p: Priority, t: Tenant)
    requires Inv(cfg, w) && i < |w.shards| && Fits(m, w)
    ensures var v := FullPass(clock, w, i, p);
            && Inv(cfg, v.world)
            && Progress(m, w, v.world, DueIn(w, i, t, p) || v.served.Some?)
            && (forall p2: Priority :: p2 != p ==> (DueIn(w, i, t, p2) ==> DueIn(v.world, i, t, p2)))
  {
    hide BooksOk, TenantInvAt, Homed, RingsKnown, HomeState, Pass, Entries, Due, Fits, NotAbove, Below;
    var ring := w.shards[i].rings.At(p);
    PassIsLocal(cfg, m, clock, w, i, p, |ring|);
    PassShrinks(cfg, m, clock, w, i, p, |ring|, 0);
    if t in ring {
      var j :| 0 <= j < |ring| && ring[j] == t;
      PassShrinks(cfg, m, clock, w, i, p, |ring|, j);
    }
  }

  lemma DequeueShrinks(cfg: Config, m: Measure, clock: Clock, w: World, i: nat, t: Tenant, p: Priority)
    requires Inv(cfg, w) && i < |w.shards| && Fits(m, w)
    ensures var v := DequeueShard(clock, w, i);
            && Inv(cfg, v.world)
            && Progress(m, w, v.world, DueIn(w, i, t, p) || v.served.Some?)
  {
    hide Inv, FullPass, Fits, NotAbove, Below, DueIn;
    var h := FullPass(clock, w, i, High);
    FullPassShrinks(cfg, m, clock, w, i, High, t);
    if h.served.None? {
      var n := FullPass(clock, h.world, i, Normal);
      FullPassShrinks(cfg, m, clock, h.world, i, Normal, t);
      BelowTrans(m, w, h.world, n.world);
      if n.served.None? {
        FullPassShrinks(cfg, m, clock, n.world, i, Low, t);
        BelowTrans(m, w, n.world, FullPass(clock, n.world, i, Low).world);
      }
    }
  }

  // ---------------------------------------------------------------- try_dequeue

  /** The loop makes progress when the shard at place `k` of the list, within reach, has a lane due. */
  lemma {:induction false} LoopShrinks(cfg: Config, m: Measure, clock: Clock, s: State, remaining: nat, k: nat, t: Tenant, p: Priority)
    requires StateInv(cfg, s) && Fits(m, s.world)
    requires remaining <= |s.activeShards|
    ensures var (s', served) := DequeueLoop(clock, s, remaining);
            && StateInv(cfg, s')
            && Progress(m, s.world, s'.world, served.Some? || (k < remaining && DueIn(s.world, s.activeShards[k], t, p)))
    decreases remaining
  {
    hide Inv, ListOk, DequeueShard, Fits, NotAbove, Below, DueIn, Settled;
    if remaining > 0 {
      var i := s.activeShards[0];
      assert i in s.activeShards;
      var v := DequeueShard(clock, s.world, i);
      DequeueShrinks(cfg, m, clock, s.world, i, t, p);
      DequeueStaysInShard(clock, s.world, i);
      SettledKeepsList(s, i, v.world);
      var s1 := Settled(s, i, v.world);
      SettledShape(s, i, v.world);
      if v.served.None? {
        var k1 := if k > 0 then k - 1 else 0;
        LoopShrinks(cfg, m, clock, s1, remaining - 1, k1, t, p);
        BelowTrans(m, s.world, s1.world, DequeueLoop(clock, s1, remaining - 1).0.world);
        if 0 < k < remaining && DueIn(s.world, s.activeShards[k], t, p) {
          DistinctShards(s, k);
          DueElsewhere(cfg, s.world, v.world, s.activeShards[k], t, p, i);
        }
      } else {
        NothingElse(m, s.world);
      }
    } else {
      NothingElse(m, s.world);
    }
  }

  lemma NothingElse(m: Measure, w: World)
    ensures NotAbove(m, w, w)
  {
  }

  lemma DistinctShards(s: State, k: nat)
    requires s.Shaped() && ListOk(s) && 0 < k < |s.activeShards|
    ensures s.activeShards[k] != s.activeShards[0]
  {
  }

  lemma DueElsewhere(cfg: Config, w: World, w': World, i: nat, t: Tenant, p: Priority, i2: nat)
    requires Inv(cfg, w) && DueIn(w, i, t, p) && i != i2 && |w'.shards| == |w.shards|
    requires forall j :: 0 <= j < |w.shards| && j != i2 ==> w'.shards[j] == w.shards[j]
    ensures DueIn(w', i, t, p)
  {
    hide BooksOk, TenantInvAt;
    assert t in w.shards[i].tenants;
    assert ShardIndex(|w.shards|, t) == i;
  }

  /** Physical work anywhere is a due lane in a listed shard. */
  lemma FindWork(cfg: Config, s: State) returns (k: nat, t: Tenant, p: Priority)
    requires StateInv(cfg, s) && Entries(s.world) > 0
    ensures k < |s.activeShards| && DueIn(s.world, s.activeShards[k], t, p)
  {
    hide BooksOk, TenantInvAt, RingsKnown, AsI64, QuantumFor, SumMap, SumSeq, LaneOk, DeficitOk;
    var w := s.world;
    var a := seq(|w.shards|, i requires 0 <= i < |w.shards| => ShardEntries(w.shards[i]));
    SumSeqOfZeros(a);
    var i :| 0 <= i < |a| && a[i] != 0;
    var m := map x | x in w.shards[i].tenants :: w.shards[i].tenants[x].TotalLen();
    SumOfZeros(m);
    t :| t in m && m[t] != 0;
    assert ShardIndex(|w.shards|, t) == i && HomeState(w, t) == w.shards[i].tenants[t];
    var ts := w.shards[i].tenants[t];
    p := if ts.queues.high != [] then High else if ts.queues.normal != [] then Normal else Low;
    assert ts.queues.At(p) != [];
    InvAtLane(cfg, w, t, p);
    assert t in w.shards[i].rings.At(p);
    assert !RingsEmpty(w.shards[i]);
    assert i in s.activeShards;
    k :| k < |s.activeShards| && s.activeShards[k] == i;
  }

  /** Each `try_dequeue` that finds anything physically queued lowers (entries, shortage)
      lexicographically, whether it returns a task or `Empty`. */
  lemma TryDequeueShrinks(cfg: Config, m: Measure, clock: Clock, s: State)
    requires StateInv(cfg, s) && Fits(m, s.world) && s.shutdown != Immediate
    ensures var s' := TryDequeue(clock, s).0;
            && StateInv(cfg, s') && Fits(m, s'.world)
            && (Entries(s.world) > 0 ==> Below(m, s.world, s'.world))
  {
    hide StateInv, DequeueLoop, Fits, Entries, Due, DueIn;
    if Entries(s.world) > 0 {
      var k, t, p := FindWork(cfg, s);
      LoopShrinks(cfg, m, clock, s, |s.activeShards|, k, t, p);
    } else {
      LoopShrinks(cfg, m, clock, s, |s.activeShards|, 0, 0, High);
    }
  }

  function Repeat(clock: Clock, s: State, n: nat): (s': State)
    requires s.Shaped()
    ensures s'.Shaped() && s'.shutdown == s.shutdown
    decreases n
  {
    if n == 0 then s else Repeat(clock, TryDequeue(clock, s).0, n - 1)
  }

  /** Nothing queued, nothing pending. */
  lemma NoEntriesNoPending(cfg: Config, s: State)
    requires StateInv(cfg, s) && Entries(s.world) == 0
    ensures s.world.books.pending == {} && s.world.books.cancelled == {} && s.world.books.stats.queueLen == 0
  {
    hide TenantInvAt, Homed, RingsKnown, Entries, ListOk;
    var w := s.world;
    if id :| Queued(w.books, id) {
      FatesOf(w.books);
      var a := w.books.history.accepted[id];
      InvAtLane(cfg, w, a.tenant, a.task.priority);
      LaneComplete(HomeState(w, a.tenant).queues.At(a.task.priority), a.tenant, a.task.priority, w.books, id);
      NoEntriesNoQueue(w, a.tenant, a.task.priority);
    }
    assert forall id :: id in w.books.pending + w.books.cancelled ==> Queued(w.books, id);
    assert w.books.pending == {} && w.books.cancelled == {};
  }

  lemma NoEntriesNoQueue(w: World, t: Tenant, p: Priority)
    requires w.shards != [] && Entries(w) == 0
    ensures HomeState(w, t).queues.At(p) == []
  {
    var i := ShardIndex(|w.shards|, t);
    var a := seq(|w.shards|, i requires 0 <= i < |w.shards| => ShardEntries(w.shards[i]));
    SumSeqOfZeros(a);
    assert a[i] == 0;
    var m := map x | x in w.shards[i].tenants :: w.shards[i].tenants[x].TotalLen();
    SumOfZeros(m);
    if t in w.shards[i].tenants {
      assert m[t] == 0;
    }
  }

  lemma NothingQueuedNothingDue(m: Measure, w: World)
    requires Entries(w) == 0
    ensures Due(m, w) == 0
  {
    hide LaneDue;
    var a := seq(|w.shards|, i requires 0 <= i < |w.shards| => ShardEntries(w.shards[i]));
    var b := seq(|w.shards|, i requires 0 <= i < |w.shards| => ShardDue(m, w.shards[i]));
    SumSeqOfZeros(a);
    SumSeqOfZeros(b);
    forall i | 0 <= i < |w.shards| ensures b[i] == 0 {
      var s := w.shards[i];
      assert a[i] == 0;
      var lens := map x | x in s.tenants :: s.tenants[x].TotalLen();
      SumOfZeros(lens);
      var dues := map x | x in s.tenants :: TenantDue(m, s.tenants[x]);
      SumOfZeros(dues);
      forall x | x in dues ensures dues[x] == 0 {
        assert lens[x] == 0;
        var ts := s.tenants[x];
        EmptyLane(m, ts.deficits.high, ts.quantum);
        EmptyLane(m, ts.deficits.normal, ts.quantum);
        EmptyLane(m, ts.deficits.low, ts.quantum);
      }
    }
  }

  /** Draining terminates: with no further enqueues some number of `try_dequeue` calls leaves nothing
      queued or pending; every id handed out was then dispatched, expired, evicted or cancelled, and the
      next call answers `Closed` in drain mode and `Empty` in an open scheduler. */
  lemma DrainTerminates(cfg: Config, m: Measure, clock: Clock, s: State) returns (n: nat)
    requires StateInv(cfg, s) && Fits(m, s.world) && s.shutdown != Immediate
    ensures var s' := Repeat(clock, s, n);
            var h := s'.world.books.history;
            && StateInv(cfg, s')
            && Entries(s'.world) == 0 && s'.world.books.pending == {}
            && (forall id :: 1 <= id <= s'.world.books.nextId ==>
                  id in h.dispatched || id in h.expired || id in h.evicted || id in h.withdrawn)
            && TryDequeue(clock, s').1 == if s.shutdown == Drain then Closed else Empty
    decreases Entries(s.world), Due(m, s.world)
  {
    hide Entries, Due, Inv, ListOk, Fits, TryDequeue;
    if Entries(s.world) == 0 {
      n := 0;
      NoEntriesNoPending(cfg, s);
      AllSettled(cfg, s);
      EmptyAnswer(cfg, m, clock, s);
    } else {
      TryDequeueShrinks(cfg, m, clock, s);
      var n1 := DrainTerminates(cfg, m, clock, TryDequeue(clock, s).0);
      n := n1 + 1;
    }
  }

  // ---------------------------------------------------------------- exactly when it drains

  ghost predicate AllTimeless(w: World)
    requires w.shards != []
  {
    && (forall t, p: Priority :: Timeless(HomeState(w, t).queues.At(p)))
    && (forall t :: AsU64(HomeState(w, t).quantum) > 0)
  }

  lemma VisitTimeless(cfg: Config, clock: Clock, w: World, i: nat, p: Priority)
    requires Inv(cfg, w) && CanVisit(w, i, p) && AllTimeless(w)
    ensures var w' := VisitRing(clock, w, i, p).world;
            w'.shards != [] && AllTimeless(w')
  {
    hide Inv, HomeState, TakeTurn, TurnPre, VisitRing, ChargeFor, AsU64, DeadPrefix, WrapI64;
    RingAfter(clock, w, i, p);
    VisitSummary(cfg, clock, w, i, p);
    var w', t := VisitRing(clock, w, i, p).world, w.shards[i].rings.At(p)[0];
    TurnSummary(cfg, clock, HomeState(w, t), w.books, w.samples, t, p);
    forall x, p2: Priority ensures Timeless(HomeState(w', x).queues.At(p2)) {
      assert Timeless(HomeState(w, x).queues.At(p2));
    }
    forall x ensures AsU64(HomeState(w', x).quantum) > 0 {
      assert AsU64(HomeState(w, x).quantum) > 0;
    }
  }

  /** Without deadlines a visit does not help: a lane that drains after it drained before. */
  lemma LaneBack(cfg: Config, clock: Clock, w: World, i: nat, p: Priority, x: Tenant, p2: Priority)
    requires Inv(cfg, w) && CanVisit(w, i, p) && AllTimeless(w)
    requires var w' := VisitRing(clock, w, i, p).world;
             w'.shards != [] && TenantFits(ByRounds, HomeState(w', x), p2, w'.books.cancelled)
    ensures TenantFits(ByRounds, HomeState(w, x), p2, w.books.cancelled)
  {
    hide Inv, HomeState, TakeTurn, TurnPre, VisitRing, LaneFits, ChargeFor, AsU64, DeadPrefix, WrapI64, LaneOk, Increasing;
    VisitSummary(cfg, clock, w, i, p);
    var w', t := VisitRing(clock, w, i, p).world, w.shards[i].rings.At(p)[0];
    var ts := HomeState(w, x);
    if x == t && p2 == p {
      InvAtLane(cfg, w, t, p);
      LaneIncreases(ts.queues.At(p), t, p, w.books);
      TurnBack(cfg, clock, ts, w.books, w.samples, t, p);
    } else {
      if x == t {
        TurnSummary(cfg, clock, ts, w.books, w.samples, t, p);
      }
      FitsUnmarked(ByRounds, ts.queues.At(p2), ts.deficits.At(p2), ts.quantum, w.books.cancelled, w'.books.cancelled);
    }
  }

  lemma TurnBack(cfg: Config, clock: Clock, ts: TenantState, b: Books, samples: nat, t: Tenant, p: Priority)
    requires TurnPre(cfg, ts, b, t, p) && Timeless(ts.queues.At(p)) && Increasing(ts.queues.At(p)) && AsU64(ts.quantum) > 0
    requires var turn := TakeTurn(clock, ts, b, samples, t, p);
             TenantFits(ByRounds, turn.state, p, turn.books.cancelled)
    ensures TenantFits(ByRounds, ts, p, b.cancelled)
  {
    hide BooksOk, LaneOk, TakeTurn, LaneFits, ChargeFor, AsU64, DeadPrefix, WrapI64, Increasing;
    var q, d, c, now := ts.queues.At(p), ts.deficits.At(p), b.cancelled, clock.now(samples);
    TurnSummary(cfg, clock, ts, b, samples, t, p);
    assert DeficitOk(ts, t, p, b.history.log);
    var (q', d') := LaneAfter(q, d, ts.quantum, c, now);
    RestUnmarked(q, c, DeadPrefix(q, c, now));
    assert forall e :: e in q' ==> e in q[DeadPrefix(q, c, now)..];
    FitsUnmarked(ByRounds, q', d', ts.quantum, c, c - Ids(q[..DeadPrefix(q, c, now)]));
    BackThroughTurn(q, d, ts.quantum, c, now);
  }

  lemma VisitKeepsDraining(cfg: Config, clock: Clock, w: World, i: nat, p: Priority)
    requires Inv(cfg, w) && CanVisit(w, i, p) && AllTimeless(w)
    ensures var w' := VisitRing(clock, w, i, p).world;
            w'.shards != [] && AllTimeless(w') && (Fits(ByRounds, w') ==> Fits(ByRounds, w))
  {
    hide Inv, HomeState, VisitRing, AllTimeless, TenantFits;
    VisitTimeless(cfg, clock, w, i, p);
    var w' := VisitRing(clock, w, i, p).world;
    if Fits(ByRounds, w') {
      forall x, p2: Priority ensures TenantFits(ByRounds, HomeState(w, x), p2, w.books.cancelled) {
        LaneBack(cfg, clock, w, i, p, x, p2);
      }
    }
  }

  lemma BackThroughTurn(q: seq<Entry>, deficit: int, quantum: int, c: set<Id>, now: Time)
    requires I64_MIN <= deficit <= I64_MAX && AsU64(quantum) > 0 && Timeless(q)
    requires var (q', d') := LaneAfter(q, deficit, quantum, c, now);
             LaneFits(ByRounds, q', d', quantum, c)
    ensures LaneFits(ByRounds, q, deficit, quantum, c)
  {
    DrainsAfter(q, deficit, quantum, c, now);
  }

  lemma {:induction false} VisitsKeepDraining(cfg: Config, clock: Clock, w: World, moves: seq<Move>)
    requires Inv(cfg, w) && AllTimeless(w) && forall k :: 0 <= k < |moves| ==> moves[k].VisitMove?
    ensures var w' := Run(cfg, clock, w, moves);
            AllTimeless(w') && (Fits(ByRounds, w') ==> Fits(ByRounds, w))
    decreases |moves|
  {
    hide Inv, AllTimeless, Fits, VisitRing;
    if moves != [] {
      var i, p := moves[0].shard, moves[0].priority;
      StepKeeps(cfg, clock, w, moves[0]);
      assert w.shards != [] by { InvShards(cfg, w); }
      if CanVisit(w, i, p) {
        VisitKeepsDraining(cfg, clock, w, i, p);
      }
      VisitsKeepDraining(cfg, clock, Step(cfg, clock, w, moves[0]), moves[1..]);
    }
  }

  lemma {:induction false} RepeatKeepsDraining(cfg: Config, clock: Clock, s: State, n: nat)
    requires StateInv(cfg, s) && AllTimeless(s.world)
    ensures StateInv(cfg, Repeat(clock, s, n))
    ensures Fits(ByRounds, Repeat(clock, s, n).world) ==> Fits(ByRounds, s.world)
    decreases n
  {
    hide Inv, ListOk, AllTimeless, Fits, DequeueLoop, Run;
    if n > 0 {
      DequeueKeeps(cfg, clock, s);
      if s.shutdown != Immediate {
        var moves := DequeueLoopIsRun(cfg, clock, s, |s.activeShards|);
        VisitsKeepDraining(cfg, clock, s.world, moves);
      }
      RepeatKeepsDraining(cfg, clock, TryDequeue(clock, s).0, n - 1);
    }
  }

  lemma NothingQueuedFits(cfg: Config, s: State)
    requires StateInv(cfg, s) && Entries(s.world) == 0
    ensures Fits(ByRounds, s.world)
  {
    hide Inv, ListOk, Entries, HomeState;
    assert s.world.shards != [] by { InvShards(cfg, s.world); }
    forall t, p: Priority ensures TenantFits(ByRounds, HomeState(s.world, t), p, s.world.books.cancelled) {
      NoEntriesNoQueue(s.world, t, p);
    }
  }

  /** Exactly when draining terminates, for queues without deadlines: if and only if each lane's tasks, taken
      in order, charge no more than the peak of the deficit left by those before them. Otherwise no number
      of `try_dequeue` calls empties the scheduler. */
  lemma DrainsExactly(cfg: Config, clock: Clock, s: State)
    requires StateInv(cfg, s) && AllTimeless(s.world) && s.shutdown != Immediate
    ensures (exists n: nat :: Entries(Repeat(clock, s, n).world) == 0) <==> Fits(ByRounds, s.world)
  {
    hide Inv, ListOk, AllTimeless, Fits, Entries, Repeat;
    assert s.world.shards != [] by { InvShards(cfg, s.world); }
    if Fits(ByRounds, s.world) {
      var n := DrainTerminates(cfg, ByRounds, clock, s);
      assert Entries(Repeat(clock, s, n).world) == 0;
    }
    if n: nat :| Entries(Repeat(clock, s, n).world) == 0 {
      RepeatKeepsDraining(cfg, clock, s, n);
      NothingQueuedFits(cfg, Repeat(clock, s, n));
    }
  }

  /** Room for charge and quantum together in an `i64` is enough to drain. */
  lemma {:induction false} RoomDrains(q: seq<Entry>, deficit: int, quantum: int, cancelled: set<Id>)
    requires LaneFits(ByShortage, q, deficit, quantum, cancelled)
    ensures LaneFits(ByRounds, q, deficit, quantum, cancelled)
  {
    hide ChargeFor, Peak;
    if q != [] {
      assert q[0] in q && forall e :: e in q[1..] ==> e in q;
      var cost, u := ChargeFor(q[0].task.cost), AsU64(quantum);
      RoomIsBelowPeak(cost, deficit, quantum);
      RoomDrains(q[1..], deficit, quantum, cancelled);
      RoomDrains(q[1..], deficit - cost, quantum, cancelled);
      assert LaneDrains(q[1..], deficit, u, cancelled) && LaneDrains(q[1..], deficit - cost, u, cancelled);
    }
  }

  /** So a world whose lanes all have room drains in the exact sense too. */
  lemma RoomIsEnough(w: World)
    requires w.shards != [] && Fits(ByShortage, w)
    ensures Fits(ByRounds, w)
  {
    hide LaneFits, HomeState;
    forall t, p: Priority ensures TenantFits(ByRounds, HomeState(w, t), p, w.books.cancelled) {
      var ts := HomeState(w, t);
      assert TenantFits(ByShortage, ts, p, w.books.cancelled);
      RoomDrains(ts.queues.At(p), ts.deficits.At(p), ts.quantum, w.books.cancelled);
    }
  }

  lemma RoomIsBelowPeak(cost: int, deficit: int, quantum: int)
    requires quantum >= 1 && 0 <= cost && cost - 1 + quantum <= I64_MAX
    ensures AsU64(quantum) == quantum && cost <= Peak(deficit, AsU64(quantum))
  {
    TwoTo64();
    var odd, e := LowBitSplits(quantum, 64);
    AtLeastOnce(LowBit(quantum), odd);
  }

  lemma AllSettled(cfg: Config, s: State)
    requires StateInv(cfg, s) && s.world.books.pending == {}
    ensures var h := s.world.books.history;
            forall id :: 1 <= id <= s.world.books.nextId ==>
              id in h.dispatched || id in h.expired || id in h.evicted || id in h.withdrawn
  {
    hide TenantInvAt, Homed, RingsKnown, CountersOk, ListOk;
    var b := s.world.books;
    forall id | 1 <= id <= b.nextId
      ensures id in b.history.dispatched || id in b.history.expired || id in b.history.evicted || id in b.history.withdrawn
    {
      assert id in b.history.accepted.Keys;
    }
  }

  lemma EmptyAnswer(cfg: Config, m: Measure, clock: Clock, s: State)
    requires StateInv(cfg, s) && Fits(m, s.world) && s.shutdown != Immediate && Entries(s.world) == 0
    ensures TryDequeue(clock, s).1 == if s.shutdown == Drain then Closed else Empty
  {
    hide Inv, ListOk, DequeueLoop, Fits, Entries, Due, DueIn;
    LoopShrinks(cfg, m, clock, s, |s.activeShards|, 0, 0, High);
    NothingQueuedNothingDue(m, s.world);
    var (s', served) := DequeueLoop(clock, s, |s.activeShards|);
    assert Entries(s'.world) == 0;
    NoEntriesNoPending(cfg, s');
  }

  /** In drain mode `Closed` is the answer exactly when no task was served and nothing is pending. */
  lemma ClosedMeansSettled(cfg: Config, clock: Clock, s: State)
    requires StateInv(cfg, s) && s.shutdown == Drain
    ensures var (s', r) := TryDequeue(clock, s);
            && (r == Closed ==> s'.world.books.pending == {})
            && (r == Empty ==> s'.world.books.pending != {})
            && (r == Closed ==> var h := s'.world.books.history;
                  forall id :: 1 <= id <= s'.world.books.nextId ==>
                    id in h.dispatched || id in h.expired || id in h.evicted || id in h.withdrawn)
  {
    hide ListOk, TenantInvAt, Homed, RingsKnown, DequeueLoop, OneFate;
    DequeueKeeps(cfg, clock, s);
    var (s', r) := TryDequeue(clock, s);
    if r == Closed {
      AllSettled(cfg, s');
    }
  }
}
