/** What a lock section keeps of its own shard, whatever it is told about ids and slots. */
module LocalSafety {
  import opened Types
  import opened World
  import opened Invariant
  import opened EnqueueProofs
  import opened Preservation
  import opened Service
  import opened Sections

  ghost predicate LaneLocal(ts: TenantState, t: Tenant, p: Priority, ring: seq<Tenant>, nextId: nat) {
    && Increasing(ts.queues.At(p))
    && (forall e :: e in ts.queues.At(p) ==> e.task.priority == p && 1 <= e.id <= nextId)
    && Listed(ts, t, p, ring)
  }

  ghost predicate TenantLocal(cfg: Config, ts: TenantState, t: Tenant, rings: Three<seq<Tenant>>, nextId: nat) {
    && ts.TotalLen() <= cfg.maxPerTenant
    && forall p: Priority :: LaneLocal(ts, t, p, rings.At(p), nextId)
  }

  /** A shard on its own: queued work is flagged, flagged tenants are listed, queues ascend by id, limits hold. */
  ghost predicate ShardLocal(cfg: Config, s: Shard, nextId: nat) {
    && (forall p: Priority, t :: t in s.rings.At(p) ==> t in s.tenants)
    && forall t :: t in s.tenants ==> TenantLocal(cfg, s.tenants[t], t, s.rings, nextId)
  }

  /** No queue of the shard gained an entry. */
  ghost predicate OnlyLoses(s: Shard, s': Shard) {
    && s'.tenants.Keys == s.tenants.Keys
    && forall t, p: Priority, e :: t in s.tenants && e in s'.tenants[t].queues.At(p) ==> e in s.tenants[t].queues.At(p)
  }

  // ---------------------------------------------------------------- admission

  ghost predicate Good(ts: TenantState) {
    forall p: Priority :: Increasing(ts.queues.At(p)) && (ts.queues.At(p) != [] ==> ts.active.At(p))
  }

  /** Entries and flags may only go, order stays, and queued work stays flagged. */
  ghost predicate Kept(ts: TenantState, ts': TenantState) {
    && Good(ts')
    && ts'.TotalLen() <= ts.TotalLen()
    && (forall p: Priority :: ts'.active.At(p) ==> ts.active.At(p))
    && (forall p: Priority, e :: e in ts'.queues.At(p) ==> e in ts.queues.At(p))
  }

  lemma KeptTrans(a: TenantState, b: TenantState, c: TenantState)
    requires Kept(a, b) && Kept(b, c)
    ensures Kept(a, c)
  {
    hide Good;
  }

  lemma SeenIsSublist(q: seq<Entry>, front: set<Id>, scan: set<Id>, now: Time, budget: nat)
    requires Increasing(q)
    ensures Increasing(SeenQueue(q, front, scan, now, budget))
    ensures forall e :: e in SeenQueue(q, front, scan, now, budget) ==> e in q
    ensures |SeenQueue(q, front, scan, now, budget)| <= |q|
  {
    var rest := q[DeadPrefix(q, front, now)..];
    var b := Min(budget, |rest|);
    LiveIsSublist(rest[..b], scan, now);
    LiveIsShorter(rest[..b], scan, now);
    SublistConcat(rest, Live(rest[..b], scan, now), b);
  }

  lemma PurgeKept(ts: TenantState, v: PurgeView, reason: PurgeReason)
    requires Good(ts)
    ensures Kept(ts, SeenPurge(ts, v, reason))
  {
    hide SeenQueue, Increasing;
    var q, budget := ts.queues, ScanBudget(reason);
    assert Increasing(q.At(High)) && Increasing(q.At(Normal)) && Increasing(q.At(Low));
    SeenIsSublist(q.high, v.front.high, v.scan.high, v.now, budget);
    SeenIsSublist(q.normal, v.front.normal, v.scan.normal, v.now, budget);
    SeenIsSublist(q.low, v.front.low, v.scan.low, v.now, budget);
    var ts' := SeenPurge(ts, v, reason);
    forall p: Priority ensures Increasing(ts'.queues.At(p)) && (ts'.queues.At(p) != [] ==> ts'.active.At(p)) {
      if ts'.queues.At(p) != [] {
        assert ts'.queues.At(p)[0] in ts.queues.At(p);
        assert ts.active.At(p);
      }
    }
  }

  lemma KeptItself(ts: TenantState)
    requires Good(ts)
    ensures Kept(ts, ts) && Kept(ts, ts.(attempts := ts.attempts + 1))
  {
    hide Increasing;
    var ts' := ts.(attempts := ts.attempts + 1);
    forall p: Priority ensures Increasing(ts'.queues.At(p)) && (ts'.queues.At(p) != [] ==> ts'.active.At(p)) {
      assert Increasing(ts.queues.At(p));
    }
  }

  lemma MaybeKept(cfg: Config, ts: TenantState, v: EnqueueView)
    requires Good(ts)
    ensures Kept(ts, SeenMaybe(cfg, ts, v).0)
  {
    hide SeenPurge, Good;
    KeptItself(ts);
    var ts1 := ts.(attempts := ts.attempts + 1);
    KeptIsGood(ts, ts1);
    var reason := PurgeReasonFor(cfg, ts1.TotalLen(), ts1.attempts);
    if reason.Some? {
      PurgeKept(ts1, v.first, reason.value);
      KeptTrans(ts, ts1, SeenPurge(ts1, v.first, reason.value));
    }
  }

  lemma KeptIsGood(ts: TenantState, ts': TenantState)
    requires Kept(ts, ts')
    ensures Good(ts') && ts'.TotalLen() <= ts.TotalLen()
  {
  }

  lemma ReserveKept(ts: TenantState, ranFull: bool, v: EnqueueView)
    requires Good(ts)
    ensures Kept(ts, SeenReserve(ts, ranFull, v).0)
  {
    hide SeenPurge;
    KeptItself(ts);
    PurgeKept(ts, v.third, Full);
  }

  lemma RejectKept(cfg: Config, ts: TenantState, v: EnqueueView)
    requires Good(ts)
    ensures Kept(ts, SeenReject(cfg, ts, v).0)
    ensures SeenReject(cfg, ts, v).1 ==> SeenReject(cfg, ts, v).0.TotalLen() < cfg.maxPerTenant
  {
    hide SeenPurge, SeenMaybe, SeenReserve, Good, Kept, TenantState.TotalLen;
    var (ts1, ranFull1) := SeenMaybe(cfg, ts, v);
    MaybeKept(cfg, ts, v);
    KeptIsGood(ts, ts1);
    var full := ts1.TotalLen() >= cfg.maxPerTenant;
    var ts2 := ts1;
    if full && !ranFull1 {
      ts2 := SeenPurge(ts1, v.second, Full);
      PurgeKept(ts1, v.second, Full);
      KeptTrans(ts, ts1, ts2);
      KeptIsGood(ts1, ts2);
    }
    ReserveKept(ts2, ranFull1 || full, v);
    KeptTrans(ts, ts2, SeenReserve(ts2, ranFull1 || full, v).0);
    KeptIsGood(ts2, SeenReserve(ts2, ranFull1 || full, v).0);
  }

  lemma VictimKept(ts: TenantState, p: Priority, strategy: Strategy)
    requires Good(ts) && ts.queues.At(p) != []
    ensures Kept(ts, Evict(ts, p, strategy).0) && Evict(ts, p, strategy).0.TotalLen() < ts.TotalLen()
  {
    hide Increasing;
    var ts' := Evict(ts, p, strategy).0;
    EvictedQueue(ts.queues.At(p));
    assert Increasing(ts.queues.At(p));
    forall p2: Priority ensures Increasing(ts'.queues.At(p2)) && (ts'.queues.At(p2) != [] ==> ts'.active.At(p2)) {
      assert Increasing(ts.queues.At(p2)) && (ts.queues.At(p2) != [] ==> ts.active.At(p2));
    }
  }

  lemma EvictedQueue(q: seq<Entry>)
    requires q != []
    ensures Increasing(q) ==> Increasing(q[1..]) && Increasing(q[..|q| - 1])
    ensures forall e :: e in q[1..] || e in q[..|q| - 1] ==> e in q
  {
  }

  lemma EvictKept(cfg: Config, ts: TenantState, v: EnqueueView, strategy: Strategy, incoming: Priority)
    requires Good(ts) && ts.TotalLen() <= cfg.maxPerTenant
    ensures Kept(ts, SeenEvict(cfg, ts, v, strategy, incoming).0)
    ensures SeenEvict(cfg, ts, v, strategy, incoming).1 ==> SeenEvict(cfg, ts, v, strategy, incoming).0.TotalLen() < cfg.maxPerTenant
  {
    hide SeenMaybe, SeenReserve, Good, Kept, TenantState.TotalLen, Evict, EvictFrom;
    var (ts1, ranFull) := SeenMaybe(cfg, ts, v);
    MaybeKept(cfg, ts, v);
    KeptIsGood(ts, ts1);
    if ts1.TotalLen() < cfg.maxPerTenant && !v.globalFull {
      ReserveKept(ts1, ranFull, v);
      KeptTrans(ts, ts1, SeenReserve(ts1, ranFull, v).0);
      KeptIsGood(ts1, SeenReserve(ts1, ranFull, v).0);
    } else if EvictFrom(ts1, incoming).Some? {
      VictimLane(ts1, incoming);
      var p := EvictFrom(ts1, incoming).value;
      var ts2 := Evict(ts1, p, strategy).0;
      VictimKept(ts1, p, strategy);
      KeptTrans(ts, ts1, ts2);
      KeptIsGood(ts1, ts2);
      ReserveKept(ts2, ranFull, v);
      KeptTrans(ts, ts2, SeenReserve(ts2, ranFull, v).0);
      KeptIsGood(ts2, SeenReserve(ts2, ranFull, v).0);
    }
  }

  lemma AdmitKept(cfg: Config, ts: TenantState, v: EnqueueView, t: Tenant, task: Task)
    requires Good(ts) && ts.TotalLen() <= cfg.maxPerTenant
    ensures Kept(ts, SeenAdmit(cfg, ts, v, t, task).0)
    ensures SeenAdmit(cfg, ts, v, t, task).1 ==> SeenAdmit(cfg, ts, v, t, task).0.TotalLen() < cfg.maxPerTenant
  {
    hide SeenReject, SeenEvict, Good, Kept, TenantState.TotalLen;
    RejectKept(cfg, ts, v);
    EvictKept(cfg, ts, v, Oldest, task.priority);
    EvictKept(cfg, ts, v, Newest, task.priority);
  }

  lemma LocalIsGood(cfg: Config, s: Shard, t: Tenant, quantum: int, nextId: nat)
    requires ShardLocal(cfg, s, nextId)
    ensures var ts := TenantIn(s, t, quantum);
            Good(ts) && ts.TotalLen() <= cfg.maxPerTenant && forall p: Priority :: LaneLocal(ts, t, p, s.rings.At(p), nextId)
  {
    var ts := TenantIn(s, t, quantum);
    if t in s.tenants {
      assert TenantLocal(cfg, ts, t, s.rings, nextId);
      forall p: Priority ensures Increasing(ts.queues.At(p)) && (ts.queues.At(p) != [] ==> ts.active.At(p)) {
        assert LaneLocal(ts, t, p, s.rings.At(p), nextId);
      }
    }
  }

  lemma KeptLane(ts: TenantState, ts': TenantState, t: Tenant, p: Priority, ring: seq<Tenant>, nextId: nat)
    requires Kept(ts, ts') && LaneLocal(ts, t, p, ring, nextId)
    ensures LaneLocal(ts', t, p, ring, nextId)
  {
    assert Increasing(ts'.queues.At(p)) && (ts'.queues.At(p) != [] ==> ts'.active.At(p));
  }

  lemma JoinedLocal(ts: TenantState, t: Tenant, p: Priority, rings: Three<seq<Tenant>>, nextId: nat, id: Id, task: Task)
    requires LaneLocal(ts, t, p, rings.At(p), nextId) && id > nextId
    ensures var (ts', ring) := Join(ts, rings.At(task.priority), t, Entry(id, task));
            LaneLocal(ts', t, p, rings.With(task.priority, ring).At(p), id)
  {
  }

  lemma OtherTenant(cfg: Config, ts: TenantState, t: Tenant, rings: Three<seq<Tenant>>, rings': Three<seq<Tenant>>, nextId: nat, nextId': nat)
    requires TenantLocal(cfg, ts, t, rings, nextId) && nextId <= nextId'
    requires forall p: Priority :: t in rings.At(p) ==> t in rings'.At(p)
    ensures TenantLocal(cfg, ts, t, rings', nextId')
  {
    forall p: Priority ensures LaneLocal(ts, t, p, rings'.At(p), nextId') {
      assert LaneLocal(ts, t, p, rings.At(p), nextId);
    }
  }

  /** An enqueue section keeps its shard; accepted, it leaves a ring entry; refused, the rings are as before. */
  lemma EnqueueLocal(cfg: Config, s: Shard, v: EnqueueView, t: Tenant, task: Task, quantum: int, nextId: nat)
    requires ShardLocal(cfg, s, nextId) && v.id > nextId
    ensures var (s', accepted) := SeenEnqueue(cfg, s, v, t, task, quantum);
            && ShardLocal(cfg, s', if accepted then v.id else nextId)
            && s'.tenants.Keys == s.tenants.Keys + {t}
            && (accepted ==> !RingsEmpty(s')) && (!accepted ==> s'.rings == s.rings)
            && (forall x, p: Priority, e :: x in s'.tenants && e in s'.tenants[x].queues.At(p) ==>
                  e.id == v.id || (x in s.tenants && e in s.tenants[x].queues.At(p)))
  {
    hide SeenAdmit, Join, LaneLocal, Kept, Good, TenantState.TotalLen;
    var ts := TenantIn(s, t, quantum);
    var (ts1, admitted) := SeenAdmit(cfg, ts, v, t, task);
    LocalIsGood(cfg, s, t, quantum, nextId);
    AdmitKept(cfg, ts, v, t, task);
    KeptIsGood(ts, ts1);
    forall p: Priority ensures LaneLocal(ts1, t, p, s.rings.At(p), nextId) {
      KeptLane(ts, ts1, t, p, s.rings.At(p), nextId);
    }
    KeptEntries(ts, ts1);
    var s' := SeenEnqueue(cfg, s, v, t, task, quantum).0;
    if admitted {
      var (ts2, ring) := Join(ts1, s.rings.At(task.priority), t, Entry(v.id, task));
      JoinedRing(ts1, s.rings.At(task.priority), t, Entry(v.id, task));
      JoinedLen(ts1, s.rings.At(task.priority), t, Entry(v.id, task));
      JoinedEntries(ts1, s.rings.At(task.priority), t, Entry(v.id, task));
      forall p: Priority ensures LaneLocal(ts2, t, p, s'.rings.At(p), v.id) {
        JoinedLocal(ts1, t, p, s.rings, nextId, v.id, task);
      }
      assert TenantLocal(cfg, ts2, t, s'.rings, v.id);
      ListedAfterJoin(ts2, t, task.priority, s'.rings, v.id);
    } else {
      assert TenantLocal(cfg, ts1, t, s'.rings, nextId);
    }
    hide TenantLocal;
    forall x | x in s'.tenants ensures TenantLocal(cfg, s'.tenants[x], x, s'.rings, if admitted then v.id else nextId) {
      if x != t {
        assert TenantLocal(cfg, s.tenants[x], x, s.rings, nextId);
        OtherTenant(cfg, s.tenants[x], x, s.rings, s'.rings, nextId, if admitted then v.id else nextId);
      }
    }
    forall p: Priority, x | x in s'.rings.At(p) ensures x in s'.tenants {
      assert x == t || x in s.rings.At(p);
    }
  }

  lemma KeptEntries(ts: TenantState, ts': TenantState)
    requires Kept(ts, ts')
    ensures forall p: Priority, e :: e in ts'.queues.At(p) ==> e in ts.queues.At(p)
  {
  }

  lemma JoinedEntries(ts: TenantState, ring: seq<Tenant>, t: Tenant, e: Entry)
    ensures var ts' := Join(ts, ring, t, e).0;
            && e in ts'.queues.At(e.task.priority)
            && forall p: Priority, x :: x in ts'.queues.At(p) ==> x == e || x in ts.queues.At(p)
  {
  }

  lemma ListedAfterJoin(ts: TenantState, t: Tenant, p: Priority, rings: Three<seq<Tenant>>, nextId: nat)
    requires LaneLocal(ts, t, p, rings.At(p), nextId) && ts.queues.At(p) != []
    ensures !(rings.high == [] && rings.normal == [] && rings.low == [])
  {
  }

  // ---------------------------------------------------------------- dequeue

  /** A visit keeps its shard, takes entries only, and serves an unexpired head older than all it leaves. */
  lemma TurnLocal(cfg: Config, ts: TenantState, t: Tenant, p: Priority, v: VisitView, rings: Three<seq<Tenant>>, nextId: nat)
    requires TenantLocal(cfg, ts, t, rings, nextId) && rings.At(p) != []
    ensures var r := SeenTurn(ts, p, v);
            && TenantLocal(cfg, r.state, t, rings.With(p, if r.requeue then rings.At(p)[1..] + [t] else rings.At(p)[1..]), nextId)
            && (forall p2: Priority, e :: e in r.state.queues.At(p2) ==> e in ts.queues.At(p2))
            && (r.served.Some? ==>
                  && r.served.value in ts.queues.At(p) && !Expired(r.served.value.task.deadline, v.now)
                  && forall e :: e in r.state.queues.At(p) ==> r.served.value.id < e.id)
  {
    hide Increasing, SeenTurn, TenantState.TotalLen, DeadPrefix;
    var r := SeenTurn(ts, p, v);
    var q, k := ts.queues.At(p), DeadPrefix(ts.queues.At(p), v.seen, v.now);
    var rings' := rings.With(p, if r.requeue then rings.At(p)[1..] + [t] else rings.At(p)[1..]);
    assert LaneLocal(ts, t, p, rings.At(p), nextId);
    SeenTurnFacts(ts, p, v);
    SuffixOf(q, k);
    if k < |q| {
      SuffixOf(q, k + 1);
      HeadIsOldest(q, k);
    }
    forall p2: Priority ensures LaneLocal(r.state, t, p2, rings'.At(p2), nextId) {
      assert LaneLocal(ts, t, p2, rings.At(p2), nextId);
    }
    LenFromQueues(ts, r.state, p);
  }

  lemma SeenTurnFacts(ts: TenantState, p: Priority, v: VisitView)
    ensures var r := SeenTurn(ts, p, v);
            var q, k := ts.queues.At(p), DeadPrefix(ts.queues.At(p), v.seen, v.now);
            && (forall p2: Priority :: p2 != p ==> r.state.queues.At(p2) == ts.queues.At(p2) && r.state.active.At(p2) == ts.active.At(p2))
            && (r.state.queues.At(p) == q[k..] || (k < |q| && r.state.queues.At(p) == q[k + 1..]))
            && (r.state.active.At(p) ==> r.requeue)
            && (r.state.queues.At(p) != [] && ts.active.At(p) ==> r.state.active.At(p))
            && (r.served.Some? ==>
                  && k < |q| && r.served.value == q[k] && r.state.queues.At(p) == q[k + 1..]
                  && !Expired(q[k].task.deadline, v.now))
  {
    hide ChargeFor, WrapI64;
    var q, k := ts.queues.At(p), DeadPrefix(ts.queues.At(p), v.seen, v.now);
    if k < |q| {
      assert q[k..][1..] == q[k + 1..];
    }
  }

  lemma SuffixOf(q: seq<Entry>, k: nat)
    requires Increasing(q) && k <= |q|
    ensures Increasing(q[k..]) && forall e :: e in q[k..] ==> e in q
  {
  }

  lemma HeadIsOldest(q: seq<Entry>, k: nat)
    requires Increasing(q) && k < |q|
    ensures forall e :: e in q[k + 1..] ==> q[k].id < e.id
  {
  }

  /** The delivery, if any, of a batch of visits that took shard `s` to `s'`. */
  ghost predicate DeliversFrom(s: Shard, s': Shard, served: Option<Handout>) {
    served.Some? ==>
      var d := served.value;
      && d.tenant in s.tenants && d.tenant in s'.tenants
      && d.entry in s.tenants[d.tenant].queues.At(d.entry.task.priority)
      && !Expired(d.entry.task.deadline, d.now)
      && forall e :: e in s'.tenants[d.tenant].queues.At(d.entry.task.priority) ==> d.entry.id < e.id
  }

  lemma VisitLocal(cfg: Config, s: Shard, p: Priority, v: VisitView, nextId: nat)
    requires ShardLocal(cfg, s, nextId) && s.rings.At(p) != []
    ensures var (s', served) := SeenVisit(s, p, v);
            && ShardLocal(cfg, s', nextId) && OnlyLoses(s, s') && DeliversFrom(s, s', served)
  {
    hide SeenTurn, LaneLocal, TenantState.TotalLen, TenantLocal;
    var ring, t := s.rings.At(p), s.rings.At(p)[0];
    assert t in ring && t in s.tenants;
    TurnLocal(cfg, s.tenants[t], t, p, v, s.rings, nextId);
    var r := SeenTurn(s.tenants[t], p, v);
    ServedLane(cfg, s.tenants[t], t, p, s.rings, nextId, r.served);
    var s' := SeenVisit(s, p, v).0;
    assert ring == [t] + ring[1..];
    forall x | x in s'.tenants ensures TenantLocal(cfg, s'.tenants[x], x, s'.rings, nextId) {
      if x != t {
        assert TenantLocal(cfg, s.tenants[x], x, s.rings, nextId);
        OtherTenant(cfg, s.tenants[x], x, s.rings, s'.rings, nextId, nextId);
      }
    }
    forall p2: Priority, x | x in s'.rings.At(p2) ensures x in s'.tenants {
      assert x in s.rings.At(p2);
    }
  }

  lemma ServedLane(cfg: Config, ts: TenantState, t: Tenant, p: Priority, rings: Three<seq<Tenant>>, nextId: nat, served: Option<Entry>)
    requires TenantLocal(cfg, ts, t, rings, nextId) && (served.Some? ==> served.value in ts.queues.At(p))
    ensures served.Some? ==> served.value.task.priority == p
  {
    assert LaneLocal(ts, t, p, rings.At(p), nextId);
  }

  lemma LosesTrans(a: Shard, b: Shard, c: Shard, served: Option<Handout>)
    requires OnlyLoses(a, b) && OnlyLoses(b, c) && DeliversFrom(b, c, served)
    ensures OnlyLoses(a, c) && DeliversFrom(a, c, served)
  {
  }

  lemma {:induction false} PassLocal(cfg: Config, s: Shard, p: Priority, views: seq<VisitView>, nextId: nat)
    requires ShardLocal(cfg, s, nextId)
    ensures var (s', served) := SeenPass(s, p, views);
            && ShardLocal(cfg, s', nextId) && OnlyLoses(s, s') && DeliversFrom(s, s', served)
            && (s.rings.At(p) == [] ==> s' == s && served == None)
    decreases |views|
  {
    hide ShardLocal, SeenVisit, OnlyLoses, DeliversFrom;
    if views == [] || s.rings.At(p) == [] {
      NothingLost(s);
    } else {
      VisitLocal(cfg, s, p, views[0], nextId);
      var (s1, served) := SeenVisit(s, p, views[0]);
      if served.None? {
        PassLocal(cfg, s1, p, views[1..], nextId);
        LosesTrans(s, s1, SeenPass(s1, p, views[1..]).0, SeenPass(s1, p, views[1..]).1);
      }
    }
  }

  lemma NothingLost(s: Shard)
    ensures OnlyLoses(s, s) && DeliversFrom(s, s, None)
  {
  }

  /** A dequeue section keeps its shard, takes entries only, and finds nothing in a shard without ring entries. */
  lemma DequeueLocal(cfg: Config, s: Shard, views: Three<seq<VisitView>>, nextId: nat)
    requires ShardLocal(cfg, s, nextId)
    ensures var (s', served) := SeenDequeue(s, views);
            && ShardLocal(cfg, s', nextId) && OnlyLoses(s, s') && DeliversFrom(s, s', served)
            && (RingsEmpty(s) ==> s' == s && served == None)
  {
    hide ShardLocal, SeenPass, OnlyLoses, DeliversFrom;
    var (h, high) := SeenPass(s, High, views.high);
    PassLocal(cfg, s, High, views.high, nextId);
    if high.None? {
      var (n, normal) := SeenPass(h, Normal, views.normal);
      PassLocal(cfg, h, Normal, views.normal, nextId);
      LosesTrans(s, h, n, normal);
      if normal.None? {
        PassLocal(cfg, n, Low, views.low, nextId);
        LosesTrans(s, n, SeenPass(n, Low, views.low).0, SeenPass(n, Low, views.low).1);
      }
    }
  }
}
