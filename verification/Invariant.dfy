/** What every reachable world satisfies: id bookkeeping, queues, rings, deficits and limits. */
module Invariant {
  import opened Types
  import opened World

  // ---------------------------------------------------------------- readings of the log

  ghost predicate At(v: Visit, t: Tenant, p: Priority) {
    v.tenant == t && v.priority == p
  }

  /** The last id served to lane (t, p); ids start at 1. */
  ghost function LastServed(log: Log, t: Tenant, p: Priority): nat {
    match log
    case Start => 0
    case Then(before, v) => if At(v, t, p) && v.outcome.Served? then v.outcome.id else LastServed(before, t, p)
  }

  ghost function Refills(log: Log, t: Tenant, p: Priority): int {
    match log
    case Start => 0
    case Then(before, v) =>
      Refills(before, t, p) + if At(v, t, p) && v.outcome.Refilled? then v.outcome.quantum else 0
  }

  ghost function Charged(log: Log, t: Tenant, p: Priority): nat {
    match log
    case Start => 0
    case Then(before, v) =>
      Charged(before, t, p) + if At(v, t, p) && v.outcome.Served? then v.outcome.cost else 0
  }

  // ---------------------------------------------------------------- ids and counters

  /** Five sets that split `all` between them. */
  ghost predicate Parts<T>(all: set<T>, a: set<T>, b: set<T>, c: set<T>, d: set<T>, e: set<T>) {
    && all == a + b + c + d + e
    && a !! b !! c !! d !! e
  }

  lemma PartsMove<T>(all: set<T>, a: set<T>, b: set<T>, c: set<T>, d: set<T>, e: set<T>, m: set<T>)
    requires Parts(all, a, b, c, d, e) && m <= a
    ensures Parts(all, a - m, b + m, c, d, e)
  {
  }

  /** The order of the last four parts does not matter. */
  lemma PartsSwap<T>(all: set<T>, a: set<T>, b: set<T>, c: set<T>, d: set<T>, e: set<T>)
    requires Parts(all, a, b, c, d, e)
    ensures Parts(all, a, c, b, d, e) && Parts(all, a, d, c, b, e) && Parts(all, a, e, c, d, b)
  {
  }

  lemma PartsMoveAny<T>(all: set<T>, a: set<T>, b: set<T>, c: set<T>, d: set<T>, e: set<T>, m: set<T>)
    requires Parts(all, a, b, c, d, e) && m <= a
    ensures Parts(all, a - m, b + m, c, d, e) && Parts(all, a - m, b, c + m, d, e)
    ensures Parts(all, a - m, b, c, d + m, e) && Parts(all, a - m, b, c, d, e + m)
  {
    hide Parts;
    PartsMove(all, a, b, c, d, e, m);
    PartsSwap(all, a, b, c, d, e);
    PartsMove(all, a, c, b, d, e, m);
    PartsSwap(all, a - m, c + m, b, d, e);
    PartsMove(all, a, d, c, b, e, m);
    PartsSwap(all, a - m, d + m, c, b, e);
    PartsMove(all, a, e, c, d, b, m);
    PartsSwap(all, a - m, e + m, c, d, b);
  }

  lemma PartsFacts<T>(all: set<T>, a: set<T>, b: set<T>, c: set<T>, d: set<T>, e: set<T>)
    requires Parts(all, a, b, c, d, e)
    ensures a <= all && b <= all && c <= all && d <= all && e <= all
    ensures a !! b && a !! c && a !! d && a !! e && b !! c && b !! d && b !! e && c !! d && c !! e && d !! e
    ensures all == a + b + c + d + e
  {
  }

  lemma FatesOf(b: Books)
    requires OneFate(b)
    ensures var h := b.history;
            && b.pending <= h.accepted.Keys && h.dispatched <= h.accepted.Keys && h.expired <= h.accepted.Keys
            && h.evicted <= h.accepted.Keys && h.withdrawn <= h.accepted.Keys
            && b.pending !! h.dispatched && b.pending !! h.expired && b.pending !! h.evicted && b.pending !! h.withdrawn
            && h.dispatched !! h.expired && h.dispatched !! h.evicted && h.expired !! h.evicted
            && b.cancelled <= h.withdrawn && b.pending !! b.cancelled
  {
    var h := b.history;
    PartsFacts(h.accepted.Keys, b.pending, h.dispatched, h.expired, h.evicted, h.withdrawn);
  }

  lemma {:induction false} MoveFate(b: Books, m: set<Id>)
    requires OneFate(b) && m <= b.pending
    ensures var h := b.history;
            var all := h.accepted.Keys;
            && Parts(all, b.pending - m, h.dispatched + m, h.expired, h.evicted, h.withdrawn)
            && Parts(all, b.pending - m, h.dispatched, h.expired + m, h.evicted, h.withdrawn)
            && Parts(all, b.pending - m, h.dispatched, h.expired, h.evicted + m, h.withdrawn)
            && Parts(all, b.pending - m, h.dispatched, h.expired, h.evicted, h.withdrawn + m)
  {
    hide Parts;
    PartsMoveAny(b.history.accepted.Keys, b.pending, b.history.dispatched, b.history.expired, b.history.evicted, b.history.withdrawn, m);
  }

  /** Every id handed out so far has exactly one fate. */
  ghost predicate OneFate(b: Books) {
    var h := b.history;
    && (forall id :: id in h.accepted <==> 1 <= id <= b.nextId)
    && Parts(h.accepted.Keys, b.pending, h.dispatched, h.expired, h.evicted, h.withdrawn)
    && b.cancelled <= h.withdrawn
  }

  /** The counters count the fates. `inHand` slots are reserved by the enqueue in progress. */
  ghost predicate CountersOk(cfg: Config, b: Books, inHand: nat) {
    var h, s := b.history, b.stats;
    && |h.accepted.Keys| == s.enqueued == b.nextId
    && |h.dispatched| == s.dequeued == s.queueTimeSamples
    && |h.expired| == s.expired
    && |h.evicted| == s.droppedPolicy
    && |b.pending| + inHand == s.queueLen <= cfg.maxGlobal
    && s.dropped == s.rejectedGlobal + s.rejectedTenant + s.timeoutRejected + s.droppedPolicy
  }

  ghost predicate BooksOk(cfg: Config, b: Books, inHand: nat) {
    OneFate(b) && CountersOk(cfg, b, inHand)
  }

  lemma CardMinus<T>(a: set<T>, m: set<T>)
    requires m <= a
    ensures |a - m| == |a| - |m|
  {
  }

  lemma CardPlus<T>(a: set<T>, m: set<T>)
    requires a !! m
    ensures |a + m| == |a| + |m|
  {
  }

  lemma ReapKeepsFates(b: Books, removed: set<Id>)
    requires OneFate(b)
    ensures OneFate(Reap(b, removed))
  {
    hide Parts;
    MoveFate(b, removed * b.pending);
    assert b.pending - removed == b.pending - removed * b.pending;
  }

  lemma ReapKeepsCounters(cfg: Config, b: Books, removed: set<Id>, inHand: nat)
    requires CountersOk(cfg, b, inHand) && b.history.expired !! b.pending
    ensures CountersOk(cfg, Reap(b, removed), inHand)
    ensures Reap(b, removed).stats.queueLen == b.stats.queueLen - |removed * b.pending|
  {
    var live := removed * b.pending;
    assert b.pending - removed == b.pending - live;
    CardMinus(b.pending, live);
    CardPlus(b.history.expired, live);
  }

  lemma ReapKeepsBooks(cfg: Config, b: Books, removed: set<Id>, inHand: nat)
    requires BooksOk(cfg, b, inHand)
    ensures BooksOk(cfg, Reap(b, removed), inHand)
    ensures Reap(b, removed).stats.queueLen == b.stats.queueLen - |removed * b.pending|
  {
    hide CountersOk, OneFate, Reap;
    ReapKeepsFates(b, removed);
    FatesOf(b);
    ReapKeepsCounters(cfg, b, removed, inHand);
  }

  lemma CancelKeepsCounters(cfg: Config, w: World, id: Id)
    requires CountersOk(cfg, w.books, 0)
    ensures CountersOk(cfg, Cancel(w, id).books, 0)
  {
    if id in w.books.pending {
      CardMinus(w.books.pending, {id});
    }
  }

  lemma CancelKeepsBooks(cfg: Config, w: World, id: Id)
    requires BooksOk(cfg, w.books, 0)
    ensures BooksOk(cfg, Cancel(w, id).books, 0)
  {
    hide CountersOk, OneFate;
    CancelKeepsCounters(cfg, w, id);
    if id in w.books.pending {
      CancelKeepsFates(w, id);
    }
  }

  lemma CancelKeepsFates(w: World, id: Id)
    requires OneFate(w.books) && id in w.books.pending
    ensures OneFate(Cancel(w, id).books)
  {
    hide Parts;
    MoveFate(w.books, {id});
  }

  lemma DispatchKeepsFates(b: Books, id: Id, queueTime: nat)
    requires OneFate(b) && id in b.pending
    ensures OneFate(Dispatch(b, id, queueTime))
  {
    hide Parts;
    MoveFate(b, {id});
  }

  lemma DispatchKeepsBooks(cfg: Config, b: Books, id: Id, queueTime: nat)
    requires BooksOk(cfg, b, 0) && id in b.pending
    ensures BooksOk(cfg, Dispatch(b, id, queueTime), 0)
  {
    DispatchKeepsFates(b, id, queueTime);
    FatesOf(b);
    hide OneFate;
    CardMinus(b.pending, {id});
    CardPlus(b.history.dispatched, {id});
  }

  lemma DisplaceKeepsFates(b: Books, id: Id)
    requires OneFate(b)
    ensures OneFate(Displace(b, id))
  {
    hide Parts;
    if id in b.pending {
      MoveFate(b, {id});
    }
  }

  /** Evicting a pending entry leaves its slot in hand; evicting a dead one does not. */
  lemma DisplaceKeepsBooks(cfg: Config, b: Books, id: Id)
    requires BooksOk(cfg, b, 0)
    ensures BooksOk(cfg, Displace(b, id), if id in b.pending then 1 else 0)
  {
    hide CountersOk, OneFate, Displace;
    DisplaceKeepsFates(b, id);
    FatesOf(b);
    DisplaceKeepsCounters(cfg, b, id);
  }

  lemma DisplaceKeepsCounters(cfg: Config, b: Books, id: Id)
    requires CountersOk(cfg, b, 0) && b.pending !! b.history.evicted
    ensures CountersOk(cfg, Displace(b, id), if id in b.pending then 1 else 0)
  {
    if id in b.pending {
      CardMinus(b.pending, {id});
      CardPlus(b.history.evicted, {id});
    }
  }

  lemma KeysGrow<K, V>(m: map<K, V>, k: K, v: V)
    requires k !in m
    ensures |m[k := v].Keys| == |m.Keys| + 1
  {
    assert m[k := v].Keys == m.Keys + {k};
  }

  lemma CardAdd<T>(a: set<T>, x: T)
    requires x !in a
    ensures |a + {x}| == |a| + 1
  {
  }

  lemma AcceptSizes(b: Books, t: Tenant, task: Task)
    requires b.nextId + 1 !in b.history.accepted && b.nextId + 1 !in b.pending
    ensures |Accept(b, t, task).history.accepted.Keys| == |b.history.accepted.Keys| + 1
    ensures |Accept(b, t, task).pending| == |b.pending| + 1
  {
    hide Accept;
    var id: Id := b.nextId + 1;
    AcceptAdds(b, t, task);
    KeysGrow(b.history.accepted, id, Accepted(t, task));
    CardAdd(b.pending, id);
  }

  lemma AcceptAdds(b: Books, t: Tenant, task: Task)
    ensures Accept(b, t, task).history.accepted == b.history.accepted[b.nextId + 1 := Accepted(t, task)]
    ensures Accept(b, t, task).pending == b.pending + {b.nextId + 1}
  {
  }

  lemma AcceptKeepsCounters(cfg: Config, b: Books, t: Tenant, task: Task)
    requires CountersOk(cfg, b, 1) && b.nextId + 1 !in b.history.accepted && b.nextId + 1 !in b.pending
    ensures CountersOk(cfg, Accept(b, t, task), 0)
  {
    AcceptSizes(b, t, task);
    var b' := Accept(b, t, task);
    assert b'.history == b.history.(accepted := b'.history.accepted);
    assert b'.stats == b.stats.(enqueued := b.stats.enqueued + 1) && b'.nextId == b.nextId + 1;
    hide Accept;
  }

  lemma AcceptKeepsBooks(cfg: Config, b: Books, t: Tenant, task: Task)
    requires BooksOk(cfg, b, 1)
    ensures BooksOk(cfg, Accept(b, t, task), 0)
  {
    hide CountersOk, Accept;
    FatesOf(b);
    AcceptKeepsFates(b, t, task);
    assert b.nextId + 1 !in b.history.accepted;
    hide OneFate;
    AcceptKeepsCounters(cfg, b, t, task);
  }

  lemma PartsAdd<T>(all: set<T>, a: set<T>, b: set<T>, c: set<T>, d: set<T>, e: set<T>, x: T)
    requires Parts(all, a, b, c, d, e) && x !in all
    ensures Parts(all + {x}, a + {x}, b, c, d, e)
  {
  }

  lemma AcceptKeepsFates(b: Books, t: Tenant, task: Task)
    requires OneFate(b)
    ensures OneFate(Accept(b, t, task))
  {
    hide Parts;
    var id: Id := b.nextId + 1;
    var h := b.history;
    assert id !in h.accepted.Keys;
    assert Accept(b, t, task).history.accepted.Keys == h.accepted.Keys + {id};
    PartsAdd(h.accepted.Keys, b.pending, h.dispatched, h.expired, h.evicted, h.withdrawn, id);
  }

  // ---------------------------------------------------------------- lanes

  ghost predicate OfLane(h: History, id: Id, t: Tenant, p: Priority) {
    id in h.accepted && h.accepted[id].tenant == t && h.accepted[id].task.priority == p
  }

  predicate Queued(b: Books, id: Id) {
    id in b.pending || id in b.cancelled
  }

  ghost predicate Increasing(q: seq<Entry>) {
    forall i, j :: 0 <= i < j < |q| ==> q[i].id < q[j].id
  }

  ghost predicate EntryOk(e: Entry, t: Tenant, p: Priority, b: Books) {
    && e.id in b.history.accepted
    && b.history.accepted[e.id] == Accepted(t, e.task)
    && e.task.priority == p
    && Queued(b, e.id)
    && LastServed(b.history.log, t, p) < e.id
  }

  /** Queue (t, p) holds exactly the queued ids of that lane, oldest first, all newer than what the
      lane has been served. */
  ghost predicate LaneOk(q: seq<Entry>, t: Tenant, p: Priority, b: Books) {
    && Increasing(q)
    && (forall e :: e in q ==> EntryOk(e, t, p, b))
    && (forall id :: Queued(b, id) && OfLane(b.history, id, t, p) ==> id in Ids(q))
    && LastServed(b.history.log, t, p) <= b.nextId
  }

  ghost predicate TenantOk(ts: TenantState, t: Tenant, b: Books) {
    && LaneOk(ts.queues.high, t, High, b)
    && LaneOk(ts.queues.normal, t, Normal, b)
    && LaneOk(ts.queues.low, t, Low, b)
  }

  /** A deficit is what was refilled minus what was charged, as an `i64`. */
  ghost predicate DeficitOk(ts: TenantState, t: Tenant, p: Priority, log: Log) {
    ts.deficits.At(p) == WrapI64(Refills(log, t, p) - Charged(log, t, p))
  }

  /** A tenant with queued work is flagged, and a flagged tenant is in its ring. */
  ghost predicate Listed(ts: TenantState, t: Tenant, p: Priority, ring: seq<Tenant>) {
    && (ts.queues.At(p) != [] ==> ts.active.At(p))
    && (ts.active.At(p) ==> t in ring)
  }

  ghost predicate Homed(w: World) {
    forall i, t :: 0 <= i < |w.shards| && t in w.shards[i].tenants ==> ShardIndex(|w.shards|, t) == i
  }

  ghost predicate RingsKnown(w: World) {
    forall i, p: Priority, t :: 0 <= i < |w.shards| && t in w.shards[i].rings.At(p) ==> t in w.shards[i].tenants
  }

  function RingOf(w: World, t: Tenant, p: Priority): seq<Tenant>
    requires w.shards != []
  {
    w.shards[ShardIndex(|w.shards|, t)].rings.At(p)
  }

  ghost predicate TenantInv(cfg: Config, ts: TenantState, t: Tenant, b: Books, rings: Three<seq<Tenant>>) {
    && TenantOk(ts, t, b)
    && (forall p: Priority :: DeficitOk(ts, t, p, b.history.log))
    && (forall p: Priority :: Listed(ts, t, p, rings.At(p)))
    && ts.TotalLen() <= cfg.maxPerTenant
  }

  ghost predicate TenantInvAt(cfg: Config, w: World, t: Tenant)
    requires w.shards != []
  {
    TenantInv(cfg, HomeState(w, t), t, w.books, w.shards[ShardIndex(|w.shards|, t)].rings)
  }

  ghost predicate Inv(cfg: Config, w: World) {
    && w.shards != []
    && Homed(w)
    && RingsKnown(w)
    && BooksOk(cfg, w.books, 0)
    && (forall t :: TenantInvAt(cfg, w, t))
  }

  // ---------------------------------------------------------------- changing one lane

  /** To lane (t, p), the books `b'` read like `b`. */
  ghost predicate SameLane(b: Books, b': Books, t: Tenant, p: Priority) {
    && (forall id :: OfLane(b'.history, id, t, p) <==> OfLane(b.history, id, t, p))
    && (forall id :: OfLane(b.history, id, t, p) ==>
          && b'.history.accepted[id] == b.history.accepted[id]
          && (Queued(b', id) <==> Queued(b, id)))
    && LastServed(b'.history.log, t, p) == LastServed(b.history.log, t, p)
    && b.nextId <= b'.nextId
  }

  lemma SameLaneKeeps(q: seq<Entry>, t: Tenant, p: Priority, b: Books, b': Books)
    requires LaneOk(q, t, p, b) && SameLane(b, b', t, p)
    ensures LaneOk(q, t, p, b')
  {
    forall e | e in q ensures EntryOk(e, t, p, b') {
      assert OfLane(b.history, e.id, t, p);
    }
  }

  /** Taking entries out of a queue together with their ids keeps the lane. */
  lemma ShrinkKeeps(q: seq<Entry>, q': seq<Entry>, t: Tenant, p: Priority, b: Books, b': Books, removed: set<Id>)
    requires LaneOk(q, t, p, b)
    requires Increasing(q') && (forall e :: e in q' ==> e in q) && Ids(q) - Ids(q') <= removed && removed !! Ids(q')
    requires b'.pending == b.pending - removed && b'.cancelled == b.cancelled - removed
    requires b'.history.accepted == b.history.accepted
    requires LastServed(b'.history.log, t, p) == LastServed(b.history.log, t, p) && b'.nextId == b.nextId
    ensures LaneOk(q', t, p, b')
  {
    forall e | e in q' ensures EntryOk(e, t, p, b') {
      assert EntryOk(e, t, p, b);
      assert e.id in Ids(q');
    }
  }

  lemma {:induction false} LiveIsSublist(q: seq<Entry>, cancelled: set<Id>, now: Time)
    requires Increasing(q)
    ensures Increasing(Live(q, cancelled, now))
    ensures forall e :: e in Live(q, cancelled, now) <==> e in q && !Dead(e, cancelled, now)
  {
    if q != [] {
      assert q == [q[0]] + q[1..];
      LiveIsSublist(q[1..], cancelled, now);
      var rest := Live(q[1..], cancelled, now);
      forall j | 0 <= j < |rest| ensures q[0].id < rest[j].id {
        assert rest[j] in q[1..];
      }
    }
  }

  lemma SublistConcat(q: seq<Entry>, low: seq<Entry>, b: nat)
    requires Increasing(q) && b <= |q| && Increasing(low) && forall e :: e in low ==> e in q[..b]
    ensures Increasing(low + q[b..]) && forall e :: e in low + q[b..] ==> e in q
  {
    forall i, j | 0 <= i < |low| && b <= j < |q| ensures low[i].id < q[j].id {
      assert low[i] in q[..b];
    }
  }

  lemma PurgedIsSublist(q: seq<Entry>, cancelled: set<Id>, now: Time, budget: nat)
    requires Increasing(q)
    ensures Increasing(PurgedQueue(q, cancelled, now, budget))
    ensures forall e :: e in PurgedQueue(q, cancelled, now, budget) ==> e in q
    ensures |PurgedQueue(q, cancelled, now, budget)| <= |q|
  {
    var rest := q[DeadPrefix(q, cancelled, now)..];
    var b := Min(budget, |rest|);
    LiveIsSublist(rest[..b], cancelled, now);
    LiveIsShorter(rest[..b], cancelled, now);
    SublistConcat(rest, Live(rest[..b], cancelled, now), b);
  }

  lemma {:induction false} LiveIsShorter(q: seq<Entry>, cancelled: set<Id>, now: Time)
    ensures |Live(q, cancelled, now)| <= |q|
  {
    if q != [] {
      LiveIsShorter(q[1..], cancelled, now);
    }
  }

  /** Ids of different lanes are different ids. */
  lemma LanesDisjoint(q: seq<Entry>, p: Priority, q2: seq<Entry>, p2: Priority, t: Tenant, b: Books)
    requires p != p2 && LaneOk(q, t, p, b) && LaneOk(q2, t, p2, b)
    ensures Ids(q) !! Ids(q2)
  {
  }

  /** Removing ids of tenant `t` only is invisible to every other tenant. */
  lemma RemovalIsLocal(b: Books, b': Books, removed: set<Id>, t: Tenant)
    requires forall id :: id in removed ==> id in b.history.accepted && b.history.accepted[id].tenant == t
    requires b'.history.accepted == b.history.accepted && b'.history.log == b.history.log
    requires b'.pending == b.pending - removed && b'.cancelled == b.cancelled - removed && b'.nextId == b.nextId
    ensures forall t2, p :: t2 != t ==> SameLane(b, b', t2, p)
  {
  }
}
