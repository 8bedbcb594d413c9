/** The purge loops step by step, against the closed forms they compute. */
module Loops {
  import opened Types
  import opened World
  import opened Invariant
  import opened EnqueueProofs
  import opened Preservation

  /** `VecDeque::remove`. */
  function Without(q: seq<Entry>, idx: nat): seq<Entry>
    requires idx < |q|
  {
    q[..idx] + q[idx + 1..]
  }

  datatype PurgeStats = PurgeStats(removedExpiredLive: nat, releasedSlots: nat)

  /** The id sets and purge counters while entries are being removed. */
  datatype Tally = Tally(pending: set<Id>, cancelled: set<Id>, stats: PurgeStats)

  /** The tally after the entries with these ids went: their markers and pending ids are gone, and each
      pending id gave up its slot. */
  ghost function Less(t: Tally, removed: set<Id>): Tally {
    Tally(t.pending - removed, t.cancelled - removed,
          PurgeStats(t.stats.removedExpiredLive + |removed * t.pending - t.cancelled|,
                     t.stats.releasedSlots + |removed * t.pending|))
  }

  lemma LessNothing(t: Tally)
    ensures Less(t, {}) == t
  {
    assert {} * t.pending == {} && {} * t.pending - t.cancelled == {};
    assert t.pending - {} == t.pending && t.cancelled - {} == t.cancelled;
  }

  lemma DisjointCard<T>(all: set<T>, a: set<T>, b: set<T>)
    requires a !! b && all == a + b
    ensures |all| == |a| + |b|
  {
  }

  lemma LessTwice(t: Tally, first: set<Id>, second: set<Id>)
    requires first !! second
    ensures Less(Less(t, first), second) == Less(t, first + second)
  {
    LessSets(t.pending, first, second);
    LessSets(t.cancelled, first, second);
    LessCards(t.pending, t.cancelled, first, second);
  }

  lemma LessSets<T>(s: set<T>, first: set<T>, second: set<T>)
    ensures s - first - second == s - (first + second)
  {
  }

  lemma LessCards<T>(p: set<T>, c: set<T>, first: set<T>, second: set<T>)
    requires first !! second
    ensures |(first + second) * p| == |first * p| + |second * (p - first)|
    ensures |(first + second) * p - c| == |first * p - c| + |second * (p - first) - (c - first)|
  {
    assert (first + second) * p == first * p + second * (p - first);
    DisjointCard((first + second) * p, first * p, second * (p - first));
    assert (first + second) * p - c == (first * p - c) + (second * (p - first) - (c - first));
    DisjointCard((first + second) * p - c, first * p - c, second * (p - first) - (c - first));
  }

  lemma LessOne(t: Tally, id: Id)
    ensures Less(t, {id}) == Tallied(t, id)
  {
    assert {id} * t.pending == if id in t.pending then {id} else {};
    assert {id} * t.pending - t.cancelled == if id in t.pending && id !in t.cancelled then {id} else {};
  }

  /** Removing entries has turned queue `q0` into `q` and tally `t0` into `t`. */
  ghost predicate Purging(q0: seq<Entry>, t0: Tally, q: seq<Entry>, t: Tally) {
    && Increasing(q)
    && (forall e :: e in q ==> e in q0)
    && t == Less(t0, Ids(q0) - Ids(q))
  }

  /** The tally after one dead entry. */
  function Tallied(t: Tally, id: Id): Tally {
    var expired := if id in t.pending && id !in t.cancelled then 1 else 0;
    var released := if id in t.pending then 1 else 0;
    Tally(t.pending - {id}, t.cancelled - {id},
          PurgeStats(t.stats.removedExpiredLive + expired, t.stats.releasedSlots + released))
  }

  lemma WithoutOne(q: seq<Entry>, idx: nat)
    requires Increasing(q) && idx < |q|
    ensures Increasing(Without(q, idx))
    ensures Ids(Without(q, idx)) == Ids(q) - {q[idx].id}
    ensures forall e :: e in Without(q, idx) ==> e in q
  {
    var q' := Without(q, idx);
    forall id | id in Ids(q) - {q[idx].id} ensures id in Ids(q') {
      var k :| 0 <= k < |q| && q[k].id == id;
      assert q[k] == q'[if k < idx then k else k - 1];
    }
  }

  lemma PurgeOne(q0: seq<Entry>, t0: Tally, q: seq<Entry>, t: Tally, idx: nat)
    requires Purging(q0, t0, q, t) && idx < |q|
    ensures Purging(q0, t0, Without(q, idx), Tallied(t, q[idx].id))
    ensures q[idx].id in t.cancelled <==> q[idx].id in t0.cancelled
  {
    hide Tallied, Without;
    var id, removed := q[idx].id, Ids(q0) - Ids(q);
    assert q[idx] in q0;
    assert id in Ids(q) && id in Ids(q0);
    WithoutOne(q, idx);
    assert Ids(q0) - Ids(Without(q, idx)) == removed + {id};
    LessTwice(t0, removed, {id});
    LessOne(t, id);
  }

  lemma DeadAlike(e: Entry, c: set<Id>, c': set<Id>, now: Time)
    requires e.id in c <==> e.id in c'
    ensures Dead(e, c, now) == Dead(e, c', now)
  {
  }

  lemma PurgingStarts(q: seq<Entry>, t: Tally)
    requires Increasing(q)
    ensures Purging(q, t, q, t)
  {
    assert Ids(q) - Ids(q) == {};
    LessNothing(t);
  }

  lemma {:induction false} DeadPrefixIs(q: seq<Entry>, cancelled: set<Id>, now: Time, k: nat)
    requires k <= |q| && forall i :: 0 <= i < k ==> Dead(q[i], cancelled, now)
    requires k < |q| ==> !Dead(q[k], cancelled, now)
    ensures DeadPrefix(q, cancelled, now) == k
  {
  }

  /** Filtering one entry more. */
  lemma {:induction false} LiveSnoc(q: seq<Entry>, n: nat, cancelled: set<Id>, now: Time)
    requires n < |q|
    ensures Live(q[..n + 1], cancelled, now)
         == Live(q[..n], cancelled, now) + if Dead(q[n], cancelled, now) then [] else [q[n]]
  {
    if n == 0 {
      assert q[..1] == [q[0]] && q[..1][1..] == [];
    } else {
      LiveSnoc(q[1..], n - 1, cancelled, now);
      assert q[..n + 1][1..] == q[1..][..n] && q[..n][1..] == q[1..][..n - 1];
    }
  }

  /** The queue after `n` entries of `rest` have been scanned. */
  ghost function Scanned(rest: seq<Entry>, n: nat, cancelled: set<Id>, now: Time): seq<Entry>
    requires n <= |rest|
  {
    Live(rest[..n], cancelled, now) + rest[n..]
  }

  ghost function ScanIndex(rest: seq<Entry>, n: nat, cancelled: set<Id>, now: Time): nat
    requires n <= |rest|
  {
    |Live(rest[..n], cancelled, now)|
  }

  lemma ScanOne(rest: seq<Entry>, n: nat, cancelled: set<Id>, now: Time)
    requires n < |rest|
    ensures var q, idx := Scanned(rest, n, cancelled, now), ScanIndex(rest, n, cancelled, now);
            && idx < |q| && q[idx] == rest[n]
            && Scanned(rest, n + 1, cancelled, now) == (if Dead(rest[n], cancelled, now) then Without(q, idx) else q)
            && ScanIndex(rest, n + 1, cancelled, now) == (if Dead(rest[n], cancelled, now) then idx else idx + 1)
  {
    LiveSnoc(rest, n, cancelled, now);
    var live := Live(rest[..n], cancelled, now);
    assert rest[n..] == [rest[n]] + rest[n + 1..];
    assert (live + rest[n..])[..|live|] == live && (live + rest[n..])[|live| + 1..] == rest[n + 1..];
  }

  /** A scan of `rest` that started with tally `t0` stands before entry `n`, at position `idx` of `queue`. */
  ghost predicate Scanning(rest: seq<Entry>, t0: Tally, now: Time, n: nat, queue: seq<Entry>, idx: nat, t: Tally) {
    && n <= |rest|
    && queue == Scanned(rest, n, t0.cancelled, now)
    && idx == ScanIndex(rest, n, t0.cancelled, now)
    && Purging(rest, t0, queue, t)
  }

  lemma ScanStarts(rest: seq<Entry>, t0: Tally, now: Time)
    requires Increasing(rest)
    ensures Scanning(rest, t0, now, 0, rest, 0, t0)
  {
    PurgingStarts(rest, t0);
    assert rest[..0] == [];
  }

  lemma ScanStep(rest: seq<Entry>, t0: Tally, now: Time, n: nat, queue: seq<Entry>, idx: nat, t: Tally)
    requires Scanning(rest, t0, now, n, queue, idx, t) && idx < |queue|
    ensures n < |rest|
    ensures if Dead(queue[idx], t.cancelled, now)
            then Scanning(rest, t0, now, n + 1, Without(queue, idx), idx, Tallied(t, queue[idx].id))
            else Scanning(rest, t0, now, n + 1, queue, idx + 1, t)
  {
    hide Scanned, ScanIndex, Purging, Without, Tallied, Dead;
    ScanEnds(rest, t0, now, n, queue, idx, t);
    ScanOne(rest, n, t0.cancelled, now);
    PurgeOne(rest, t0, queue, t, idx);
    DeadAlike(queue[idx], t.cancelled, t0.cancelled, now);
  }

  lemma ScanningMeans(rest: seq<Entry>, t0: Tally, now: Time, n: nat, queue: seq<Entry>, idx: nat, t: Tally)
    requires Scanning(rest, t0, now, n, queue, idx, t)
    ensures queue == Scanned(rest, n, t0.cancelled, now) && Purging(rest, t0, queue, t)
  {
  }

  lemma ScanEnds(rest: seq<Entry>, t0: Tally, now: Time, n: nat, queue: seq<Entry>, idx: nat, t: Tally)
    requires Scanning(rest, t0, now, n, queue, idx, t)
    ensures |queue| == idx + |rest| - n
  {
    hide Purging;
  }

  /** Once the scan has used its budget or reached the end, the queue is the purged one. */
  lemma ScanDone(q: seq<Entry>, n: nat, cancelled: set<Id>, now: Time, budget: nat)
    requires var rest := q[DeadPrefix(q, cancelled, now)..]; n == Min(budget, |rest|)
    ensures Scanned(q[DeadPrefix(q, cancelled, now)..], n, cancelled, now) == PurgedQueue(q, cancelled, now, budget)
  {
  }

  /** Markers of other queues do not matter to a purge. */
  lemma {:induction false} LiveIsLocal(q: seq<Entry>, c: set<Id>, c': set<Id>, now: Time)
    requires forall e :: e in q ==> (e.id in c <==> e.id in c')
    ensures Live(q, c, now) == Live(q, c', now)
  {
    if q != [] {
      assert q[0] in q && forall e :: e in q[1..] ==> e in q;
      LiveIsLocal(q[1..], c, c', now);
    }
  }

  lemma PurgeIsLocal(q: seq<Entry>, c: set<Id>, c': set<Id>, now: Time, budget: nat)
    requires forall e :: e in q ==> (e.id in c <==> e.id in c')
    ensures PurgedQueue(q, c, now, budget) == PurgedQueue(q, c', now, budget)
  {
    var k := DeadPrefix(q, c, now);
    assert forall i :: 0 <= i < |q| ==> q[i] in q;
    DeadPrefixIs(q, c', now, k);
    var rest := q[k..];
    LiveIsLocal(rest[..Min(budget, |rest|)], c, c', now);
  }

  /** What is gone from an increasing queue that lost its first `k` entries. */
  lemma PrefixGone(q: seq<Entry>, k: nat)
    requires Increasing(q) && k <= |q|
    ensures Ids(q) - Ids(q[k..]) == Ids(q[..k])
  {
    assert q == q[..k] + q[k..];
    assert forall e :: e in q <==> e in q[..k] || e in q[k..];
    forall a, b | a in q[..k] && b in q[k..] ensures a.id < b.id {
      var i :| 0 <= i < k && q[i] == a;
      var j :| k <= j < |q| && q[j] == b;
    }
  }

  /** Purging in two goes. */
  lemma PurgingTrans(q0: seq<Entry>, t0: Tally, q1: seq<Entry>, t1: Tally, q2: seq<Entry>, t2: Tally)
    requires Purging(q0, t0, q1, t1) && Purging(q1, t1, q2, t2)
    ensures Purging(q0, t0, q2, t2)
  {
    var first, second := Ids(q0) - Ids(q1), Ids(q1) - Ids(q2);
    assert Ids(q2) <= Ids(q1) <= Ids(q0);
    assert Ids(q0) - Ids(q2) == first + second;
    hide Less;
    LessTwice(t0, first, second);
  }

  /** Markers of entries that left the queue do not matter to a later scan. */
  lemma ScanIsLocal(rest: seq<Entry>, n: nat, c: set<Id>, c': set<Id>, now: Time)
    requires n <= |rest| && forall e :: e in rest ==> (e.id in c <==> e.id in c')
    ensures Scanned(rest, n, c, now) == Scanned(rest, n, c', now)
  {
    LiveIsLocal(rest[..n], c, c', now);
  }

  lemma MarkersKept(q0: seq<Entry>, t0: Tally, q: seq<Entry>, t: Tally)
    requires Purging(q0, t0, q, t)
    ensures forall e :: e in q ==> (e.id in t.cancelled <==> e.id in t0.cancelled)
  {
    assert forall e :: e in q ==> e.id in Ids(q);
  }

  // ---------------------------------------------------------------- the three queues of a tenant

  const PRIORITIES: seq<Priority> := [High, Normal, Low]

  ghost predicate LanesApart(qs: Three<seq<Entry>>) {
    && Increasing(qs.high) && Increasing(qs.normal) && Increasing(qs.low)
    && Ids(qs.high) !! Ids(qs.normal) !! Ids(qs.low)
  }

  lemma TenantLanesApart(ts: TenantState, t: Tenant, b: Books)
    requires TenantOk(ts, t, b)
    ensures LanesApart(ts.queues)
  {
    hide LaneOk;
    LanesIncrease(ts, t, b);
    LanesDisjoint(ts.queues.high, High, ts.queues.normal, Normal, t, b);
    LanesDisjoint(ts.queues.high, High, ts.queues.low, Low, t, b);
    LanesDisjoint(ts.queues.normal, Normal, ts.queues.low, Low, t, b);
  }

  lemma LaneIncreasing(qs: Three<seq<Entry>>, p: Priority)
    requires LanesApart(qs)
    ensures Increasing(qs.At(p))
  {
  }

  ghost predicate PurgingTenant(q0: Three<seq<Entry>>, t0: Tally, qs: Three<seq<Entry>>, t: Tally) {
    && (forall p: Priority :: Ids(qs.At(p)) <= Ids(q0.At(p)))
    && t == Less(t0, RemovedIds(q0, qs))
  }

  lemma RemovedWith(q0: Three<seq<Entry>>, qs: Three<seq<Entry>>, p: Priority, q: seq<Entry>)
    requires LanesApart(q0) && qs.At(p) == q0.At(p) && forall x: Priority :: Ids(qs.At(x)) <= Ids(q0.At(x))
    ensures RemovedIds(q0, qs.With(p, q)) == RemovedIds(q0, qs) + (Ids(q0.At(p)) - Ids(q))
    ensures RemovedIds(q0, qs) !! Ids(q0.At(p))
  {
  }

  lemma LanePurged(q0: Three<seq<Entry>>, t0: Tally, qs: Three<seq<Entry>>, t: Tally, p: Priority, q: seq<Entry>, t': Tally)
    requires LanesApart(q0) && PurgingTenant(q0, t0, qs, t) && qs.At(p) == q0.At(p)
    requires Purging(q0.At(p), t, q, t')
    ensures PurgingTenant(q0, t0, qs.With(p, q), t')
  {
    hide RemovedIds, LanesApart, Increasing, Less;
    RemovedWith(q0, qs, p, q);
    assert Ids(q) <= Ids(q0.At(p));
    LessTwice(t0, RemovedIds(q0, qs), Ids(q0.At(p)) - Ids(q));
  }

  lemma LaneMarkersKept(q0: Three<seq<Entry>>, t0: Tally, qs: Three<seq<Entry>>, t: Tally, p: Priority)
    requires LanesApart(q0) && PurgingTenant(q0, t0, qs, t) && qs.At(p) == q0.At(p)
    ensures forall e :: e in q0.At(p) ==> (e.id in t.cancelled <==> e.id in t0.cancelled)
  {
    hide RemovedIds, LanesApart, Increasing;
    RemovedWith(q0, qs, p, qs.At(p));
    assert forall e :: e in q0.At(p) ==> e.id in Ids(q0.At(p));
  }

  lemma PurgingTenantStarts(qs: Three<seq<Entry>>, t: Tally)
    ensures PurgingTenant(qs, t, qs, t)
  {
    assert RemovedIds(qs, qs) == {};
    LessNothing(t);
  }

  lemma EveryLanePurged(ts: TenantState, after: TenantState, cancelled: set<Id>, now: Time, budget: nat)
    requires after == ts.(queues := after.queues, active := after.active)
    requires forall p: Priority ::
               && after.queues.At(p) == PurgedQueue(ts.queues.At(p), cancelled, now, budget)
               && after.active.At(p) == (ts.active.At(p) && after.queues.At(p) != [])
    ensures after == PurgedState(ts, cancelled, now, budget)
  {
    hide PurgedQueue;
    assert forall p: Priority :: after.queues.At(p) == PurgedState(ts, cancelled, now, budget).queues.At(p);
    assert after.queues.At(High) == after.queues.high && after.queues.At(Normal) == after.queues.normal && after.queues.At(Low) == after.queues.low;
    assert after.active.At(High) == after.active.high && after.active.At(Normal) == after.active.normal && after.active.At(Low) == after.active.low;
  }

  lemma DraftLanesApart(cfg: Config, d: Draft, t: Tenant, inHand: nat)
    requires DraftOk(cfg, d, t, inHand)
    ensures LanesApart(d.state.queues) && d.books.pending !! d.books.cancelled
  {
    hide TenantOk, CountersOk;
    TenantLanesApart(d.state, t, d.books);
    FatesOf(d.books);
  }

  /** While no id is both pending and marked, every slot a purge releases belonged to an expired task. */
  lemma ReapFromTally(b: Books, q0: Three<seq<Entry>>, qs: Three<seq<Entry>>, t: Tally)
    requires b.pending !! b.cancelled && PurgingTenant(q0, Tally(b.pending, b.cancelled, PurgeStats(0, 0)), qs, t)
    ensures var removed := RemovedIds(q0, qs);
            && t.pending == b.pending - removed && t.cancelled == b.cancelled - removed
            && t.stats.removedExpiredLive == t.stats.releasedSlots == |removed * b.pending|
  {
    hide RemovedIds;
    var removed := RemovedIds(q0, qs);
    assert removed * b.pending - b.cancelled == removed * b.pending;
  }

  lemma PendingWithout(pending: set<Id>, id: Id)
    ensures id !in pending ==> pending - {id} == pending
  {
  }

  lemma EvictionKeeps(cfg: Config, d: Draft, incoming: Priority, strategy: Strategy, t: Tenant)
    requires DraftOk(cfg, d, t, 0) && EvictFrom(d.state, incoming).Some?
    ensures d.state.queues.At(EvictFrom(d.state, incoming).value) != []
    ensures var (ts, e) := Evict(d.state, EvictFrom(d.state, incoming).value, strategy);
            DraftOk(cfg, Draft(ts, Displace(d.books, e.id), d.samples), t, if e.id in d.books.pending then 1 else 0)
  {
    hide DraftOk, Evict, Displace;
    EvictKeeps(cfg, d, EvictFrom(d.state, incoming).value, strategy, t);
  }

  lemma ReapWritten(b: Books, removed: set<Id>, pending: set<Id>, cancelled: set<Id>, freed: nat)
    requires pending == b.pending - removed && cancelled == b.cancelled - removed && freed == |removed * b.pending|
    ensures Reap(b, removed) ==
            b.(pending := pending, cancelled := cancelled,
               stats := b.stats.(expired := b.stats.expired + freed, queueLen := SatSub(b.stats.queueLen, freed)),
               history := b.history.(expired := b.history.expired + removed * b.pending))
  {
  }

  /** What the purge of a tenant amounts to, from the tally its loops kept. */
  lemma PurgeAddsUp(clock: Clock, d: Draft, reason: PurgeReason, ts: TenantState, t: Tally)
    requires d.books.pending !! d.books.cancelled
    requires ts == PurgedState(d.state, d.books.cancelled, clock.now(d.samples), ScanBudget(reason))
    requires PurgingTenant(d.state.queues, Tally(d.books.pending, d.books.cancelled, PurgeStats(0, 0)), ts.queues, t)
    ensures var b, freed := d.books, t.stats.releasedSlots;
            var stats := b.stats.(purgeRuns := b.stats.purgeRuns + 1, expired := b.stats.expired + t.stats.removedExpiredLive,
                                  queueLen := SatSub(b.stats.queueLen, freed));
            var history := b.history.(expired := b.history.expired + RemovedIds(d.state.queues, ts.queues) * b.pending);
            PurgeForEnqueue(clock, d, reason) ==
            (Draft(ts.(attempts := 0), b.(pending := t.pending, cancelled := t.cancelled, stats := stats, history := history),
                   d.samples + 1), freed)
  {
    hide PurgedState, RemovedIds, PurgingTenant, Reap, SatSub, ScanBudget;
    ReapFromTally(d.books, d.state.queues, ts.queues, t);
    ReapWritten(d.books, RemovedIds(d.state.queues, ts.queues), t.pending, t.cancelled, t.stats.releasedSlots);
  }

  /** Dropping the dead prefix of lane `p` adds up to `DropDead`. */
  lemma DropAddsUp(ts: TenantState, b: Books, p: Priority, now: Time, t: Tally)
    requires Increasing(ts.queues.At(p))
    requires var q := ts.queues.At(p);
             Purging(q, Tally(b.pending, b.cancelled, PurgeStats(0, 0)), q[DeadPrefix(q, b.cancelled, now)..], t)
    ensures var q, freed := ts.queues.At(p), t.stats.releasedSlots;
            var k := DeadPrefix(q, b.cancelled, now);
            DropDead(ts, b, p, now) ==
            (ts.(queues := ts.queues.With(p, q[k..])),
             b.(pending := t.pending, cancelled := t.cancelled,
                stats := b.stats.(expired := b.stats.expired + freed, queueLen := SatSub(b.stats.queueLen, freed)),
                history := b.history.(expired := b.history.expired + Ids(q[..k]) * b.pending)))
  {
    hide Increasing, Ids, DeadPrefix, Reap;
    var q := ts.queues.At(p);
    var gone := Ids(q[..DeadPrefix(q, b.cancelled, now)]);
    PrefixGone(q, DeadPrefix(q, b.cancelled, now));
    ReapWritten(b, gone, t.pending, t.cancelled, t.stats.releasedSlots);
  }

  lemma TurnLanes(cfg: Config, ts: TenantState, b: Books, t: Tenant, p: Priority)
    requires TurnPre(cfg, ts, b, t, p)
    ensures Increasing(ts.queues.At(p)) && b.pending !! b.cancelled
  {
    hide CountersOk, DeficitOk;
    assert LaneOk(ts.queues.At(p), t, p, b);
    FatesOf(b);
  }

  lemma PurgingApart(q0: seq<Entry>, t0: Tally, q: seq<Entry>, t: Tally)
    requires Purging(q0, t0, q, t) && t0.pending !! t0.cancelled
    ensures t.pending !! t.cancelled
  {
  }
}
