/** Lock sections as one shard sees them. A section reads and changes its shard undisturbed, but the id sets
    and the slot counter are shared: other threads change them between any two of its operations. So each
    answer it gets about ids and slots is an input here, and may be anything. */
module Sections {
  import opened Types
  import opened World
  import opened Invariant
  import opened EnqueueProofs
  import opened Preservation
  import opened Service

  // ---------------------------------------------------------------- enqueue

  /** A purge of one queue: `front` are the ids whose marker the front loop finds, `scan` those the side scan
      finds. Each loop looks an id up once. */
  function SeenQueue(q: seq<Entry>, front: set<Id>, scan: set<Id>, now: Time, budget: nat): seq<Entry> {
    var rest := q[DeadPrefix(q, front, now)..];
    var b := Min(budget, |rest|);
    Live(rest[..b], scan, now) + rest[b..]
  }

  datatype PurgeView = PurgeView(now: Time, front: Three<set<Id>>, scan: Three<set<Id>>)

  function SeenPurge(ts: TenantState, v: PurgeView, reason: PurgeReason): TenantState {
    var budget := ScanBudget(reason);
    var qs := Three(SeenQueue(ts.queues.high, v.front.high, v.scan.high, v.now, budget),
                    SeenQueue(ts.queues.normal, v.front.normal, v.scan.normal, v.now, budget),
                    SeenQueue(ts.queues.low, v.front.low, v.scan.low, v.now, budget));
    ts.(queues := qs, attempts := 0,
        active := Three(ts.active.high && qs.high != [], ts.active.normal && qs.normal != [],
                        ts.active.low && qs.low != []))
  }

  /** What an enqueue gets to see of ids and slots: up to three purges, the counter once, whether the victim was
      still pending, and up to two attempts at a slot with what the purge between them released. */
  datatype EnqueueView = EnqueueView(first: PurgeView, second: PurgeView, third: PurgeView, globalFull: bool,
                                     victimPending: bool, reserved: bool, freed: bool, reservedAfter: bool, id: Id)

  function SeenMaybe(cfg: Config, ts: TenantState, v: EnqueueView): (TenantState, bool) {
    var ts1 := ts.(attempts := ts.attempts + 1);
    match PurgeReasonFor(cfg, ts1.TotalLen(), ts1.attempts)
    case None => (ts1, false)
    case Some(reason) => (SeenPurge(ts1, v.first, reason), reason == Full)
  }

  /** The tenant, and whether a slot is held. */
  function SeenReserve(ts: TenantState, ranFull: bool, v: EnqueueView): (TenantState, bool) {
    if v.reserved then (ts, true)
    else if ranFull then (ts, false)
    else (SeenPurge(ts, v.third, Full), v.freed && v.reservedAfter)
  }

  function SeenReject(cfg: Config, ts: TenantState, v: EnqueueView): (TenantState, bool) {
    var (ts1, ranFull1) := SeenMaybe(cfg, ts, v);
    var full := ts1.TotalLen() >= cfg.maxPerTenant;
    var ts2 := if full && !ranFull1 then SeenPurge(ts1, v.second, Full) else ts1;
    if full && ts2.TotalLen() >= cfg.maxPerTenant then (ts2, false) else SeenReserve(ts2, ranFull1 || full, v)
  }

  function SeenEvict(cfg: Config, ts: TenantState, v: EnqueueView, strategy: Strategy, incoming: Priority): (TenantState, bool) {
    var (ts1, ranFull) := SeenMaybe(cfg, ts, v);
    if ts1.TotalLen() < cfg.maxPerTenant && !v.globalFull then SeenReserve(ts1, ranFull, v)
    else
      match EvictFrom(ts1, incoming)
      case None => (ts1, false)
      case Some(p) =>
        var ts2 := Evict(ts1, p, strategy).0;
        if v.victimPending then (ts2, true) else SeenReserve(ts2, ranFull, v)
  }

  function SeenAdmit(cfg: Config, ts: TenantState, v: EnqueueView, t: Tenant, task: Task): (TenantState, bool) {
    match PolicyFor(cfg, t)
    case Reject => SeenReject(cfg, ts, v)
    case Timeout(_) => SeenReject(cfg, ts, v)
    case DropOldest => SeenEvict(cfg, ts, v, Oldest, task.priority)
    case DropNewest => SeenEvict(cfg, ts, v, Newest, task.priority)
  }

  function TenantIn(s: Shard, t: Tenant, quantum: int): TenantState {
    if t in s.tenants then s.tenants[t] else NewTenant(quantum)
  }

  /** The shard after an enqueue section, and whether the task was accepted. */
  function SeenEnqueue(cfg: Config, s: Shard, v: EnqueueView, t: Tenant, task: Task, quantum: int): (Shard, bool) {
    var (ts, admitted) := SeenAdmit(cfg, TenantIn(s, t, quantum), v, t, task);
    if !admitted then (s.(tenants := s.tenants[t := ts]), false)
    else
      var (ts', ring) := Join(ts, s.rings.At(task.priority), t, Entry(v.id, task));
      (Shard(s.tenants[t := ts'], s.rings.With(task.priority, ring)), true)
  }

  // ---------------------------------------------------------------- dequeue

  /** What one visit gets to see: which markers its front loop finds, and the race for a popped head. */
  datatype VisitView = VisitView(now: Time, seen: set<Id>, marked: bool, pending: bool)

  datatype SeenResult = SeenResult(state: TenantState, requeue: bool, served: Option<Entry>)

  function SeenTurn(ts: TenantState, p: Priority, v: VisitView): SeenResult {
    var q := ts.queues.At(p)[DeadPrefix(ts.queues.At(p), v.seen, v.now)..];
    var ts1 := ts.(queues := ts.queues.With(p, q));
    if q == [] then SeenResult(ts1.(active := ts.active.With(p, false)), false, None)
    else
      var cost, deficit := ChargeFor(q[0].task.cost), ts.deficits.At(p);
      if deficit < cost then
        SeenResult(ts1.(deficits := ts.deficits.With(p, WrapI64(deficit + ts.quantum))), true, None)
      else
        var requeue := |q| > 1;
        var ts2 := ts1.(queues := ts.queues.With(p, q[1..]), active := ts.active.With(p, ts.active.At(p) && requeue));
        if !v.marked && v.pending then SeenResult(ts2.(deficits := ts.deficits.With(p, deficit - cost)), requeue, Some(q[0]))
        else SeenResult(ts2, requeue, None)
  }

  datatype Handout = Handout(tenant: Tenant, entry: Entry, now: Time)

  function SeenVisit(s: Shard, p: Priority, v: VisitView): (Shard, Option<Handout>)
    requires s.rings.At(p) != []
  {
    var ring := s.rings.At(p);
    var t := ring[0];
    if t !in s.tenants then (s.(rings := s.rings.With(p, ring[1..])), None)
    else
      var r := SeenTurn(s.tenants[t], p, v);
      var ring' := if r.requeue then ring[1..] + [t] else ring[1..];
      (Shard(s.tenants[t := r.state], s.rings.With(p, ring')),
       if r.served.Some? then Some(Handout(t, r.served.value, v.now)) else None)
  }

  /** Visits of ring `p`, one per view, stopping at the first that serves. */
  function SeenPass(s: Shard, p: Priority, views: seq<VisitView>): (Shard, Option<Handout>)
    decreases |views|
  {
    if views == [] || s.rings.At(p) == [] then (s, None)
    else
      var (s1, served) := SeenVisit(s, p, views[0]);
      if served.Some? then (s1, served) else SeenPass(s1, p, views[1..])
  }

  function SeenDequeue(s: Shard, views: Three<seq<VisitView>>): (Shard, Option<Handout>) {
    var (h, high) := SeenPass(s, High, views.high);
    if high.Some? then (h, high)
    else
      var (n, normal) := SeenPass(h, Normal, views.normal);
      if normal.Some? then (n, normal) else SeenPass(n, Low, views.low)
  }

  /** As many views per ring as it has entries when the dequeue starts. */
  predicate ViewsFit(s: Shard, views: Three<seq<VisitView>>) {
    |views.high| == |s.rings.high| && |views.normal| == |s.rings.normal| && |views.low| == |s.rings.low|
  }

  // ---------------------------------------------------------------- sections run one after another

  function Marked(b: Books, now: Time): PurgeView {
    PurgeView(now, Three(b.cancelled, b.cancelled, b.cancelled), Three(b.cancelled, b.cancelled, b.cancelled))
  }

  lemma PurgeIsSeen(clock: Clock, d: Draft, reason: PurgeReason)
    ensures PurgeForEnqueue(clock, d, reason).0.state == SeenPurge(d.state, Marked(d.books, clock.now(d.samples)), reason)
  {
    hide RemovedIds, Reap, DeadPrefix, Live;
  }

  lemma ReserveIsSeen(cfg: Config, clock: Clock, d: Draft, ranFull: bool, v: EnqueueView) returns (v': EnqueueView)
    ensures v' == v.(third := v'.third, reserved := v'.reserved, freed := v'.freed, reservedAfter := v'.reservedAfter)
    ensures var a := ReserveOrPurge(cfg, clock, d, ranFull);
            SeenReserve(d.state, ranFull, v') == (a.draft.state, a.refusal.None?)
  {
    hide PurgeForEnqueue, SeenPurge;
    PurgeIsSeen(clock, d, Full);
    var (d1, released) := PurgeForEnqueue(clock, d, Full);
    v' := v.(third := Marked(d.books, clock.now(d.samples)), reserved := Reserve(cfg, d.books).Some?, freed := released > 0,
             reservedAfter := Reserve(cfg, d1.books).Some?);
  }

  lemma MaybeIsSeen(cfg: Config, clock: Clock, d: Draft, v: EnqueueView) returns (v': EnqueueView)
    ensures v' == v.(first := v'.first)
    ensures var (d1, ranFull) := MaybePurge(cfg, clock, d);
            SeenMaybe(cfg, d.state, v') == (d1.state, ranFull)
  {
    hide PurgeForEnqueue, SeenPurge;
    var d1 := d.(state := d.state.(attempts := d.state.attempts + 1));
    PurgeIsSeen(clock, d1, Periodic);
    PurgeIsSeen(clock, d1, NearLimit);
    PurgeIsSeen(clock, d1, Full);
    v' := v.(first := Marked(d.books, clock.now(d.samples)));
  }

  lemma RejectIsSeen(cfg: Config, clock: Clock, d: Draft, v: EnqueueView) returns (v': EnqueueView)
    ensures v'.id == v.id
    ensures var a := AdmitOrReject(cfg, clock, d);
            SeenReject(cfg, d.state, v') == (a.draft.state, a.refusal.None?)
  {
    hide PurgeForEnqueue, SeenPurge, MaybePurge, SeenMaybe, ReserveOrPurge, SeenReserve;
    var (d1, ranFull1) := MaybePurge(cfg, clock, d);
    v' := MaybeIsSeen(cfg, clock, d, v);
    var first := v'.first;
    var full := d1.state.TotalLen() >= cfg.maxPerTenant;
    PurgeIsSeen(clock, d1, Full);
    v' := v'.(second := Marked(d1.books, clock.now(d1.samples)));
    var d2 := if full && !ranFull1 then PurgeForEnqueue(clock, d1, Full).0 else d1;
    v' := ReserveIsSeen(cfg, clock, d2, ranFull1 || full, v');
    SameFirst(cfg, d.state, v', v.(first := first));
  }

  lemma SameFirst(cfg: Config, ts: TenantState, a: EnqueueView, b: EnqueueView)
    requires a.first == b.first
    ensures SeenMaybe(cfg, ts, a) == SeenMaybe(cfg, ts, b)
  {
    hide SeenPurge;
  }

  lemma EvictIsSeen(cfg: Config, clock: Clock, d: Draft, strategy: Strategy, incoming: Priority, v: EnqueueView) returns (v': EnqueueView)
    ensures v'.id == v.id
    ensures var a := AdmitOrEvict(cfg, clock, d, strategy, incoming);
            SeenEvict(cfg, d.state, v', strategy, incoming) == (a.draft.state, a.refusal.None?)
  {
    hide AdmitOrEvict, SeenEvict, PurgeForEnqueue, MaybePurge, SeenMaybe, TenantState.TotalLen;
    var (d1, ranFull) := MaybePurge(cfg, clock, d);
    v' := MaybeIsSeen(cfg, clock, d, v);
    v' := v'.(globalFull := d1.books.stats.queueLen >= cfg.maxGlobal);
    SameFirst(cfg, d.state, v', v.(first := v'.first));
    if d1.state.TotalLen() < cfg.maxPerTenant && !v'.globalFull {
      v' := RoomIsSeen(cfg, clock, d, strategy, incoming, v');
    } else {
      v' := VictimIsSeen(cfg, clock, d, strategy, incoming, v');
    }
  }

  lemma RoomIsSeen(cfg: Config, clock: Clock, d: Draft, strategy: Strategy, incoming: Priority, v: EnqueueView) returns (v': EnqueueView)
    requires SeenMaybe(cfg, d.state, v) == (MaybePurge(cfg, clock, d).0.state, MaybePurge(cfg, clock, d).1)
    requires var d1 := MaybePurge(cfg, clock, d).0;
             && v.globalFull == (d1.books.stats.queueLen >= cfg.maxGlobal)
             && d1.state.TotalLen() < cfg.maxPerTenant && !v.globalFull
    ensures v'.id == v.id
    ensures var a := AdmitOrEvict(cfg, clock, d, strategy, incoming);
            SeenEvict(cfg, d.state, v', strategy, incoming) == (a.draft.state, a.refusal.None?)
  {
    hide MaybePurge, SeenMaybe, ReserveOrPurge, SeenReserve, Evict, EvictFrom, Displace, TenantState.TotalLen;
    var (d1, ranFull) := MaybePurge(cfg, clock, d);
    v' := ReserveIsSeen(cfg, clock, d1, ranFull, v);
    SameFirst(cfg, d.state, v', v);
  }

  lemma VictimIsSeen(cfg: Config, clock: Clock, d: Draft, strategy: Strategy, incoming: Priority, v: EnqueueView) returns (v': EnqueueView)
    requires SeenMaybe(cfg, d.state, v) == (MaybePurge(cfg, clock, d).0.state, MaybePurge(cfg, clock, d).1)
    requires var d1 := MaybePurge(cfg, clock, d).0;
             && v.globalFull == (d1.books.stats.queueLen >= cfg.maxGlobal)
             && !(d1.state.TotalLen() < cfg.maxPerTenant && !v.globalFull)
    ensures v'.id == v.id
    ensures var a := AdmitOrEvict(cfg, clock, d, strategy, incoming);
            SeenEvict(cfg, d.state, v', strategy, incoming) == (a.draft.state, a.refusal.None?)
  {
    hide MaybePurge, SeenMaybe, ReserveOrPurge, SeenReserve, Evict, EvictFrom, Displace, TenantState.TotalLen;
    var (d1, ranFull) := MaybePurge(cfg, clock, d);
    v' := v;
    var from := EvictFrom(d1.state, incoming);
    if from.Some? {
      VictimLane(d1.state, incoming);
      var (ts, e) := Evict(d1.state, from.value, strategy);
      v' := v'.(victimPending := e.id in d1.books.pending);
      if e.id !in d1.books.pending {
        v' := ReserveIsSeen(cfg, clock, Draft(ts, Displace(d1.books, e.id), d1.samples), ranFull, v');
      }
    }
    SameFirst(cfg, d.state, v', v);
  }

  lemma VictimLane(ts: TenantState, incoming: Priority)
    ensures EvictFrom(ts, incoming).Some? ==> ts.queues.At(EvictFrom(ts, incoming).value) != []
  {
  }

  /** An enqueue section of the sequential scheduler is one of these, whatever the books. */
  lemma EnqueueIsSection(cfg: Config, clock: Clock, w: World, t: Tenant, task: Task) returns (v: EnqueueView)
    requires w.shards != []
    ensures var i := ShardIndex(|w.shards|, t);
            var a := AdmissionOf(cfg, clock, w, t, task);
            && (a.refusal.None? ==> v.id == a.draft.books.nextId + 1)
            && SeenEnqueue(cfg, w.shards[i], v, t, task, AsI64(QuantumFor(w.quanta, t)))
               == (Enqueue(cfg, clock, w, t, task).shards[i], a.refusal.None?)
  {
    hide AdmitOrReject, AdmitOrEvict, SeenReject, SeenEvict, Join, Accept, RecordReject, QuantumFor, AsI64;
    var d := Draft(HomeState(w, t), w.books, w.samples);
    var a := AdmissionOf(cfg, clock, w, t, task);
    var any := Marked(w.books, 0);
    v := EnqueueView(any, any, any, false, false, false, false, false, a.draft.books.nextId + 1);
    match PolicyFor(cfg, t)
    case Reject => v := RejectIsSeen(cfg, clock, d, v);
    case Timeout(_) => v := RejectIsSeen(cfg, clock, d, v);
    case DropOldest => v := EvictIsSeen(cfg, clock, d, Oldest, task.priority, v);
    case DropNewest => v := EvictIsSeen(cfg, clock, d, Newest, task.priority, v);
  }

  lemma TurnIsSeen(clock: Clock, ts: TenantState, b: Books, samples: nat, t: Tenant, p: Priority) returns (v: VisitView)
    ensures v.now == clock.now(samples)
    ensures var turn := TakeTurn(clock, ts, b, samples, t, p);
            SeenTurn(ts, p, v) == SeenResult(turn.state, turn.requeue, turn.served)
  {
    hide Reap, ChargeFor, QueueTime, Dispatch, WrapI64, DeadPrefix;
    var now := clock.now(samples);
    var (ts1, b1) := DropDead(ts, b, p, now);
    v := VisitView(now, b.cancelled, false, false);
    var q := ts1.queues.At(p);
    if q != [] {
      v := VisitView(now, b.cancelled, q[0].id in b1.cancelled, q[0].id in b1.pending);
    }
  }

  lemma {:induction false} PassIsSection(clock: Clock, w: World, i: nat, p: Priority, n: nat) returns (views: seq<VisitView>)
    requires i < |w.shards| && n <= |w.shards[i].rings.At(p)|
    ensures |views| == n
    ensures SeenPass(w.shards[i], p, views).0 == Pass(clock, w, i, p, n).world.shards[i]
    ensures SeenPass(w.shards[i], p, views).1.Some? <==> Pass(clock, w, i, p, n).served.Some?
    decreases n
  {
    hide TakeTurn, SeenTurn;
    views := [];
    if n > 0 {
      var s := w.shards[i];
      var t := s.rings.At(p)[0];
      var v := VisitView(0, {}, false, false);
      if t in s.tenants {
        v := TurnIsSeen(clock, s.tenants[t], w.books, w.samples, t, p);
      }
      var w1 := VisitRing(clock, w, i, p).world;
      RingAfter(clock, w, i, p);
      var rest := PassIsSection(clock, w1, i, p, n - 1);
      views := [v] + rest;
      assert views[1..] == rest;
    }
  }

  /** A dequeue section of the sequential scheduler is one of these, whatever the books. */
  lemma DequeueIsSection(clock: Clock, w: World, i: nat) returns (views: Three<seq<VisitView>>)
    requires i < |w.shards|
    ensures ViewsFit(w.shards[i], views)
    ensures SeenDequeue(w.shards[i], views).0 == DequeueShard(clock, w, i).world.shards[i]
    ensures SeenDequeue(w.shards[i], views).1.Some? <==> DequeueShard(clock, w, i).served.Some?
  {
    hide Pass, SeenPass;
    var high := PassIsSection(clock, w, i, High, |w.shards[i].rings.high|);
    var h := FullPass(clock, w, i, High).world;
    PassKeepsRings(clock, w, i, High, |w.shards[i].rings.high|);
    var normal := PassIsSection(clock, h, i, Normal, |h.shards[i].rings.normal|);
    var n := FullPass(clock, h, i, Normal).world;
    PassKeepsRings(clock, h, i, Normal, |h.shards[i].rings.normal|);
    var low := PassIsSection(clock, n, i, Low, |n.shards[i].rings.low|);
    views := Three(high, normal, low);
  }

  lemma {:induction false} PassKeepsRings(clock: Clock, w: World, i: nat, p: Priority, n: nat)
    requires i < |w.shards|
    ensures forall p2: Priority :: p2 != p ==> Pass(clock, w, i, p, n).world.shards[i].rings.At(p2) == w.shards[i].rings.At(p2)
    ensures p == High ==> Pass(clock, w, i, p, n).world.shards[i].rings.normal == w.shards[i].rings.normal
    ensures p != Low ==> Pass(clock, w, i, p, n).world.shards[i].rings.low == w.shards[i].rings.low
    decreases n
  {
    hide VisitRing;
    if n > 0 && CanVisit(w, i, p) {
      RingAfter(clock, w, i, p);
      PassKeepsRings(clock, VisitRing(clock, w, i, p).world, i, p, n - 1);
    }
    var s, s' := w.shards[i], Pass(clock, w, i, p, n).world.shards[i];
    assert s.rings.At(Normal) == s.rings.normal && s'.rings.At(Normal) == s'.rings.normal;
    assert s.rings.At(Low) == s.rings.low && s'.rings.At(Low) == s'.rings.low;
  }
}
