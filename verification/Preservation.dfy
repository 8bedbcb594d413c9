/** Every move keeps the invariant, so every reachable world satisfies it. */
module Preservation {
  import opened Types
  import opened World
  import opened Invariant
  import opened EnqueueProofs

  // ---------------------------------------------------------------- one tenant changes

  /** To tenant `t`, the log and books read the same. */
  ghost predicate SameTenant(b: Books, b': Books, t: Tenant) {
    forall p: Priority ::
      && SameLane(b, b', t, p)
      && Refills(b'.history.log, t, p) == Refills(b.history.log, t, p)
      && Charged(b'.history.log, t, p) == Charged(b.history.log, t, p)
  }

  lemma SameTenantKeeps(cfg: Config, ts: TenantState, t: Tenant, b: Books, b': Books,
                        rings: Three<seq<Tenant>>, rings': Three<seq<Tenant>>)
    requires TenantInv(cfg, ts, t, b, rings) && SameTenant(b, b', t)
    requires forall p: Priority :: t in rings.At(p) ==> t in rings'.At(p)
    ensures TenantInv(cfg, ts, t, b', rings')
  {
    hide LaneOk, SameLane;
    assert SameLane(b, b', t, High) && SameLane(b, b', t, Normal) && SameLane(b, b', t, Low);
    SameLaneKeeps(ts.queues.high, t, High, b, b');
    SameLaneKeeps(ts.queues.normal, t, Normal, b, b');
    SameLaneKeeps(ts.queues.low, t, Low, b, b');
    forall p: Priority ensures DeficitOk(ts, t, p, b'.history.log) && Listed(ts, t, p, rings'.At(p)) {
      assert SameLane(b, b', t, p);
      assert DeficitOk(ts, t, p, b.history.log) && Listed(ts, t, p, rings.At(p));
    }
  }

  ghost predicate OnlyTenant(w: World, w': World, t: Tenant)
    requires w.shards != []
  {
    var i := ShardIndex(|w.shards|, t);
    && |w'.shards| == |w.shards|
    && (forall j :: 0 <= j < |w.shards| && j != i ==> w'.shards[j] == w.shards[j])
    && w'.shards[i].tenants.Keys == w.shards[i].tenants.Keys + {t}
    && (forall x :: x in w.shards[i].tenants && x != t ==> w'.shards[i].tenants[x] == w.shards[i].tenants[x])
    && (forall p: Priority, x :: x != t ==> (x in w'.shards[i].rings.At(p) <==> x in w.shards[i].rings.At(p)))
    && w'.quanta == w.quanta
    && (forall x :: x != t ==> SameTenant(w.books, w'.books, x))
  }

  lemma OtherStates(w: World, w': World, t: Tenant, x: Tenant)
    requires w.shards != [] && OnlyTenant(w, w', t) && x != t
    ensures HomeState(w', x) == HomeState(w, x)
  {
    hide SameTenant;
  }

  lemma OnlyTenantKeeps(cfg: Config, w: World, w': World, t: Tenant)
    requires Inv(cfg, w) && OnlyTenant(w, w', t)
    requires BooksOk(cfg, w'.books, 0) && TenantInvAt(cfg, w', t)
    ensures Inv(cfg, w')
  {
    hide BooksOk, TenantInv, SameTenant;
    var i := ShardIndex(|w.shards|, t);
    forall x ensures TenantInvAt(cfg, w', x) {
      if x != t {
        OtherStates(w, w', t, x);
        assert TenantInvAt(cfg, w, x);
        var j := ShardIndex(|w.shards|, x);
        SameTenantKeeps(cfg, HomeState(w, x), x, w.books, w'.books, w.shards[j].rings, w'.shards[j].rings);
      }
    }
    forall j, p: Priority, x | 0 <= j < |w'.shards| && x in w'.shards[j].rings.At(p) ensures x in w'.shards[j].tenants {
      if x != t {
        assert x in w.shards[j].rings.At(p);
      }
    }
  }

  lemma InvShards(cfg: Config, w: World)
    requires Inv(cfg, w)
    ensures w.shards != []
  {
  }

  lemma InvAtLane(cfg: Config, w: World, t: Tenant, p: Priority)
    requires Inv(cfg, w)
    ensures w.shards != []
    ensures LaneOk(HomeState(w, t).queues.At(p), t, p, w.books)
    ensures DeficitOk(HomeState(w, t), t, p, w.books.history.log)
    ensures Listed(HomeState(w, t), t, p, RingOf(w, t, p))
  {
    hide LaneOk, BooksOk, HomeState, Homed, RingsKnown, DeficitOk, Listed;
    assert TenantInvAt(cfg, w, t);
    LaneOfAll(HomeState(w, t), t, w.books);
    assert Listed(HomeState(w, t), t, p, w.shards[ShardIndex(|w.shards|, t)].rings.At(p));
  }

  // ---------------------------------------------------------------- enqueue

  lemma HomeDraftOk(cfg: Config, w: World, t: Tenant)
    requires Inv(cfg, w)
    ensures DraftOk(cfg, Draft(HomeState(w, t), w.books, w.samples), t, 0)
  {
    hide BooksOk, TenantOk, HomeState;
    assert TenantInvAt(cfg, w, t);
    var ts, rings := HomeState(w, t), w.shards[ShardIndex(|w.shards|, t)].rings;
    forall p: Priority | ts.queues.At(p) != [] ensures ts.active.At(p) {
      assert Listed(ts, t, p, rings.At(p));
    }
  }

  lemma ShrunkTenantInv(cfg: Config, d: Draft, d': Draft, t: Tenant, inHand: nat, rings: Three<seq<Tenant>>)
    requires TenantInv(cfg, d.state, t, d.books, rings)
    requires DraftOk(cfg, d', t, inHand) && OnlyShrinks(d, d', t)
    ensures TenantInv(cfg, d'.state, t, d'.books, rings)
  {
    hide BooksOk, TenantOk;
    forall p: Priority ensures DeficitOk(d'.state, t, p, d'.books.history.log) && Listed(d'.state, t, p, rings.At(p)) {
      assert DeficitOk(d.state, t, p, d.books.history.log) && Listed(d.state, t, p, rings.At(p));
    }
  }

  lemma ShrinksOthers(d: Draft, d': Draft, t: Tenant)
    requires OnlyShrinks(d, d', t)
    ensures forall x :: x != t ==> SameTenant(d.books, d'.books, x)
  {
    hide SameLane;
  }

  lemma RejectKeepsBooks(cfg: Config, b: Books, reason: Reason)
    requires BooksOk(cfg, b, 0)
    ensures BooksOk(cfg, RecordReject(b, reason), 0)
  {
    StatsOnlyKeepsFates(b, RecordReject(b, reason));
    hide OneFate;
  }

  lemma StatsOnlySame(b: Books, b1: Books, b2: Books, t: Tenant)
    requires SameTenant(b, b1, t) && b2 == b1.(stats := b2.stats)
    ensures SameTenant(b, b2, t)
  {
    forall p: Priority ensures SameLane(b, b2, t, p) {
      assert SameLane(b, b1, t, p);
    }
  }

  lemma StatsOnlyTenantInv(cfg: Config, ts: TenantState, t: Tenant, b: Books, b': Books, rings: Three<seq<Tenant>>)
    requires TenantInv(cfg, ts, t, b, rings) && b' == b.(stats := b'.stats)
    ensures TenantInv(cfg, ts, t, b', rings)
  {
    hide TenantOk;
    StatsOnlyKeepsTenant(ts, t, b, b');
  }

  lemma RefusedKeeps(cfg: Config, clock: Clock, w: World, t: Tenant, task: Task)
    requires Inv(cfg, w) && AdmissionOf(cfg, clock, w, t, task).refusal.Some?
    ensures Inv(cfg, Enqueue(cfg, clock, w, t, task))
  {
    hide Admit, BooksOk, TenantInv, SameTenant, RecordReject, OnlyShrinks, HomeState;
    var d := Draft(HomeState(w, t), w.books, w.samples);
    var a := AdmissionOf(cfg, clock, w, t, task);
    HomeDraftOk(cfg, w, t);
    AdmitKeeps(cfg, clock, d, t, task);
    var w' := Enqueue(cfg, clock, w, t, task);
    var rings := w.shards[ShardIndex(|w.shards|, t)].rings;
    assert TenantInvAt(cfg, w, t);
    ShrunkTenantInv(cfg, d, a.draft, t, 0, rings);
    ShrinksOthers(d, a.draft, t);
    assert BooksOk(cfg, a.draft.books, 0);
    RejectKeepsBooks(cfg, a.draft.books, a.refusal.value);
    assert w'.books == a.draft.books.(stats := w'.books.stats) by { RejectIsStatsOnly(a.draft.books, a.refusal.value); }
    StatsOnlyTenantInv(cfg, a.draft.state, t, a.draft.books, w'.books, rings);
    forall x | x != t ensures SameTenant(w.books, w'.books, x) {
      StatsOnlySame(w.books, a.draft.books, w'.books, x);
    }
    assert HomeState(w', t) == a.draft.state by { HomeOf(w', t); }
    OnlyTenantKeeps(cfg, w, w', t);
  }

  lemma HomeOf(w: World, t: Tenant)
    requires w.shards != [] && t in w.shards[ShardIndex(|w.shards|, t)].tenants
    ensures HomeState(w, t) == w.shards[ShardIndex(|w.shards|, t)].tenants[t]
  {
  }

  lemma RejectIsStatsOnly(b: Books, reason: Reason)
    ensures RecordReject(b, reason) == b.(stats := RecordReject(b, reason).stats)
  {
  }

  lemma AcceptKeepsOthers(cfg: Config, b: Books, t: Tenant, task: Task)
    requires BooksOk(cfg, b, 1)
    ensures forall x, p :: (x != t || p != task.priority) ==> SameLane(b, Accept(b, t, task), x, p)
  {
    hide CountersOk;
    var id := b.nextId + 1;
    assert id !in b.history.accepted;
  }

  lemma JoinedLane(cfg: Config, q: seq<Entry>, t: Tenant, b: Books, task: Task)
    requires BooksOk(cfg, b, 1) && LaneOk(q, t, task.priority, b)
    ensures LaneOk(q + [Entry(b.nextId + 1, task)], t, task.priority, Accept(b, t, task))
  {
    hide CountersOk;
    var e, b', p := Entry(b.nextId + 1, task), Accept(b, t, task), task.priority;
    assert e.id !in b.history.accepted;
    forall x | x in q ensures x.id <= b.nextId && EntryOk(x, t, p, b') {
      assert EntryOk(x, t, p, b);
    }
    var q' := q + [e];
    forall i, j | 0 <= i < j < |q'| ensures q'[i].id < q'[j].id {
      assert q'[i] in q;
    }
    forall id | Queued(b', id) && OfLane(b'.history, id, t, p) ensures id in Ids(q') {
      if id == e.id {
        assert e in q';
      } else {
        assert id in Ids(q);
        assert forall x :: x in q ==> x in q';
      }
    }
  }

  lemma JoinKeepsTenant(cfg: Config, d: Draft, t: Tenant, task: Task, ring: seq<Tenant>)
    requires DraftOk(cfg, d, t, 1)
    ensures var ts := Join(d.state, ring, t, Entry(d.books.nextId + 1, task)).0;
            TenantOk(ts, t, Accept(d.books, t, task))
  {
    hide LaneOk, SameLane, BooksOk, Accept;
    var b := d.books;
    AcceptKeepsOthers(cfg, b, t, task);
    LaneOfAll(d.state, t, b);
    var ts := Join(d.state, ring, t, Entry(b.nextId + 1, task)).0;
    forall p: Priority ensures LaneOk(ts.queues.At(p), t, p, Accept(b, t, task)) {
      assert LaneOk(d.state.queues.At(p), t, p, b);
      if p == task.priority {
        JoinedLane(cfg, d.state.queues.At(p), t, b, task);
      } else {
        SameLaneKeeps(d.state.queues.At(p), t, p, b, Accept(b, t, task));
      }
    }
    LanesMakeTenant(ts, t, Accept(b, t, task));
  }

  lemma JoinKeepsListed(ts: TenantState, t: Tenant, task: Task, id: Id, rings: Three<seq<Tenant>>, log: Log, p: Priority)
    requires DeficitOk(ts, t, p, log) && Listed(ts, t, p, rings.At(p))
    ensures var (ts', ring) := Join(ts, rings.At(task.priority), t, Entry(id, task));
            DeficitOk(ts', t, p, log) && Listed(ts', t, p, rings.With(task.priority, ring).At(p))
  {
  }

  lemma JoinedLen(ts: TenantState, ring: seq<Tenant>, t: Tenant, e: Entry)
    ensures Join(ts, ring, t, e).0.TotalLen() == ts.TotalLen() + 1
  {
  }

  lemma JoinKeepsTenantInv(cfg: Config, d: Draft, t: Tenant, task: Task, rings: Three<seq<Tenant>>)
    requires DraftOk(cfg, d, t, 1) && TenantInv(cfg, d.state, t, d.books, rings)
    requires d.state.TotalLen() < cfg.maxPerTenant
    ensures var (ts, ring) := Join(d.state, rings.At(task.priority), t, Entry(d.books.nextId + 1, task));
            TenantInv(cfg, ts, t, Accept(d.books, t, task), rings.With(task.priority, ring))
  {
    hide TenantOk, DraftOk, Join, DeficitOk, Listed;
    var e := Entry(d.books.nextId + 1, task);
    var (ts, ring) := Join(d.state, rings.At(task.priority), t, e);
    JoinKeepsTenant(cfg, d, t, task, rings.At(task.priority));
    JoinedLen(d.state, rings.At(task.priority), t, e);
    forall p: Priority
      ensures DeficitOk(ts, t, p, d.books.history.log) && Listed(ts, t, p, rings.With(task.priority, ring).At(p))
    {
      JoinKeepsListed(d.state, t, task, e.id, rings, d.books.history.log, p);
    }
  }

  lemma AcceptedKeeps(cfg: Config, clock: Clock, w: World, t: Tenant, task: Task)
    requires Inv(cfg, w) && AdmissionOf(cfg, clock, w, t, task).refusal.None?
    ensures Inv(cfg, Enqueue(cfg, clock, w, t, task))
  {
    hide Admit, BooksOk, TenantInv, SameTenant, OnlyShrinks, HomeState, Join, Accept;
    var d := Draft(HomeState(w, t), w.books, w.samples);
    var a := AdmissionOf(cfg, clock, w, t, task);
    HomeDraftOk(cfg, w, t);
    AdmitKeeps(cfg, clock, d, t, task);
    var w' := Enqueue(cfg, clock, w, t, task);
    var rings := w.shards[ShardIndex(|w.shards|, t)].rings;
    assert TenantInvAt(cfg, w, t);
    ShrunkTenantInv(cfg, d, a.draft, t, 1, rings);
    JoinKeepsTenantInv(cfg, a.draft, t, task, rings);
    assert BooksOk(cfg, a.draft.books, 1);
    AcceptKeepsBooks(cfg, a.draft.books, t, task);
    forall x | x != t ensures SameTenant(w.books, w'.books, x) {
      ShrinksOthers(d, a.draft, t);
      AcceptSame(cfg, w.books, a.draft.books, t, task, x);
    }
    assert HomeState(w', t) == Join(a.draft.state, rings.At(task.priority), t, Entry(a.draft.books.nextId + 1, task)).0 by { HomeOf(w', t); }
    JoinedRing(a.draft.state, rings.At(task.priority), t, Entry(a.draft.books.nextId + 1, task));
    OnlyTenantKeeps(cfg, w, w', t);
  }

  lemma JoinedRing(ts: TenantState, ring: seq<Tenant>, t: Tenant, e: Entry)
    ensures var ring' := Join(ts, ring, t, e).1;
            ring' == ring || ring' == ring + [t]
  {
  }

  lemma AcceptSame(cfg: Config, b0: Books, b: Books, t: Tenant, task: Task, x: Tenant)
    requires BooksOk(cfg, b, 1) && SameTenant(b0, b, x) && x != t
    ensures SameTenant(b0, Accept(b, t, task), x)
  {
    hide BooksOk;
    AcceptKeepsOthers(cfg, b, t, task);
    forall p: Priority ensures SameLane(b0, Accept(b, t, task), x, p) {
      assert SameLane(b0, b, x, p) && SameLane(b, Accept(b, t, task), x, p);
    }
  }

  lemma EnqueueKeeps(cfg: Config, clock: Clock, w: World, t: Tenant, task: Task)
    requires Inv(cfg, w)
    ensures Inv(cfg, Enqueue(cfg, clock, w, t, task))
  {
    hide Enqueue, BooksOk, TenantInvAt, Homed, RingsKnown;
    if AdmissionOf(cfg, clock, w, t, task).refusal.Some? {
      RefusedKeeps(cfg, clock, w, t, task);
    } else {
      AcceptedKeeps(cfg, clock, w, t, task);
    }
  }

  // ---------------------------------------------------------------- books or quanta alone change

  lemma BooksOnlyKeeps(cfg: Config, w: World, b: Books)
    requires Inv(cfg, w) && BooksOk(cfg, b, 0) && forall t :: SameTenant(w.books, b, t)
    ensures Inv(cfg, w.(books := b))
  {
    hide BooksOk, SameTenant, TenantInv;
    forall t ensures TenantInvAt(cfg, w.(books := b), t) {
      assert TenantInvAt(cfg, w, t);
      assert HomeState(w.(books := b), t) == HomeState(w, t);
      var rings := w.shards[ShardIndex(|w.shards|, t)].rings;
      SameTenantKeeps(cfg, HomeState(w, t), t, w.books, b, rings, rings);
    }
  }

  lemma CancelKeeps(cfg: Config, w: World, id: Id)
    requires Inv(cfg, w)
    ensures Inv(cfg, Cancel(w, id))
  {
    hide TenantInvAt, Homed, RingsKnown, BooksOk;
    CancelKeepsBooks(cfg, w, id);
    BooksOnlyKeeps(cfg, w, Cancel(w, id).books);
  }

  lemma GiveUpKeeps(cfg: Config, w: World)
    requires Inv(cfg, w)
    ensures Inv(cfg, w.(books := RecordReject(w.books, TimedOut)))
  {
    hide TenantInvAt, Homed, RingsKnown, BooksOk;
    RejectKeepsBooks(cfg, w.books, TimedOut);
    BooksOnlyKeeps(cfg, w, RecordReject(w.books, TimedOut));
  }

  /** The same tenants and rings, up to quanta. */
  ghost predicate SameButQuanta(w: World, w': World) {
    && w'.books == w.books
    && |w'.shards| == |w.shards|
    && forall i :: 0 <= i < |w.shards| ==>
         && w'.shards[i].rings == w.shards[i].rings
         && w'.shards[i].tenants.Keys == w.shards[i].tenants.Keys
         && forall t :: t in w.shards[i].tenants ==>
              w'.shards[i].tenants[t] == w.shards[i].tenants[t].(quantum := w'.shards[i].tenants[t].quantum)
  }

  lemma QuantumIrrelevant(cfg: Config, ts: TenantState, ts': TenantState, t: Tenant, b: Books, rings: Three<seq<Tenant>>)
    requires TenantInv(cfg, ts, t, b, rings) && ts' == ts.(quantum := ts'.quantum)
    ensures TenantInv(cfg, ts', t, b, rings)
  {
    hide LaneOk;
    forall p: Priority ensures DeficitOk(ts', t, p, b.history.log) && Listed(ts', t, p, rings.At(p)) {
      assert DeficitOk(ts, t, p, b.history.log) && Listed(ts, t, p, rings.At(p));
    }
  }

  lemma SameButQuantaKeeps(cfg: Config, w: World, w': World)
    requires Inv(cfg, w) && SameButQuanta(w, w')
    ensures Inv(cfg, w')
  {
    hide BooksOk, TenantInv;
    forall t ensures TenantInvAt(cfg, w', t) {
      assert TenantInvAt(cfg, w, t);
      var i := ShardIndex(|w.shards|, t);
      assert HomeState(w', t) == HomeState(w, t).(quantum := HomeState(w', t).quantum);
      QuantumIrrelevant(cfg, HomeState(w, t), HomeState(w', t), t, w.books, w.shards[i].rings);
    }
  }

  lemma RefreshKeeps(cfg: Config, w: World, q: Quanta, t: Tenant)
    requires Inv(cfg, w)
    ensures Inv(cfg, RefreshTenant(w.(quanta := q), t))
  {
    hide BooksOk, TenantInvAt, Homed, RingsKnown;
    SameButQuantaKeeps(cfg, w, RefreshTenant(w.(quanta := q), t));
  }

  lemma SetProviderKeeps(cfg: Config, w: World, provider: Option<Tenant -> nat>)
    requires Inv(cfg, w)
    ensures Inv(cfg, SetProvider(w, provider))
  {
    hide BooksOk, TenantInvAt, Homed, RingsKnown;
    SameButQuantaKeeps(cfg, w, SetProvider(w, provider));
  }

  // ---------------------------------------------------------------- ring visits

  lemma PrefixIds(q: seq<Entry>, k: nat)
    requires Increasing(q) && k <= |q|
    ensures Increasing(q[k..]) && (forall e :: e in q[k..] ==> e in q)
    ensures Ids(q) - Ids(q[k..]) <= Ids(q[..k]) && Ids(q[..k]) !! Ids(q[k..])
  {
    assert q == q[..k] + q[k..];
  }

  lemma RestUnmarked(q: seq<Entry>, c: set<Id>, k: nat)
    requires Increasing(q) && k <= |q|
    ensures forall e :: e in q[k..] ==> (e.id in c <==> e.id in c - Ids(q[..k]))
  {
    hide Increasing;
    PrefixIds(q, k);
    assert forall e :: e in q[k..] ==> e.id in Ids(q[k..]);
  }

  lemma ChargeFits(cost: nat)
    ensures ChargeFor(cost) <= I64_MAX
  {
  }

  /** The books after the dead prefix of a queue is dropped. */
  lemma PrefixDropKeeps(cfg: Config, ts: TenantState, b: Books, t: Tenant, p: Priority, k: nat)
    requires TenantOk(ts, t, b) && BooksOk(cfg, b, 0) && k <= |ts.queues.At(p)|
    ensures var b' := Reap(b, Ids(ts.queues.At(p)[..k]));
            && BooksOk(cfg, b', 0)
            && (forall p2: Priority :: LaneOk(if p2 == p then ts.queues.At(p)[k..] else ts.queues.At(p2), t, p2, b'))
            && (forall x :: x != t ==> SameTenant(b, b', x))
  {
    hide OneFate, CountersOk, LaneOk, SameLane;
    var q := ts.queues.At(p);
    var removed := Ids(q[..k]);
    var b' := Reap(b, removed);
    LaneOfAll(ts, t, b);
    assert LaneOk(q, t, p, b);
    LaneIncreases(q, t, p, b);
    ReapKeepsBooks(cfg, b, removed, 0);
    PrefixIds(q, k);
    LaneIdsOwn(q, t, p, b);
    forall p2: Priority ensures LaneOk(if p2 == p then q[k..] else ts.queues.At(p2), t, p2, b') {
      assert LaneOk(ts.queues.At(p2), t, p2, b);
      if p2 == p {
        ShrinkKeeps(q, q[k..], t, p, b, b', removed);
      } else {
        LanesDisjoint(q, p, ts.queues.At(p2), p2, t, b);
        assert removed <= Ids(q);
        LaneIncreases(ts.queues.At(p2), t, p2, b);
        ShrinkKeeps(ts.queues.At(p2), ts.queues.At(p2), t, p2, b, b', removed);
      }
    }
    assert removed <= Ids(q) by { hide LaneOk; }
    ReapIsLocal(b, removed, t);
  }

  lemma LaneIncreases(q: seq<Entry>, t: Tenant, p: Priority, b: Books)
    requires LaneOk(q, t, p, b)
    ensures Increasing(q)
  {
  }

  lemma LanePriorities(q: seq<Entry>, t: Tenant, p: Priority, b: Books)
    requires LaneOk(q, t, p, b)
    ensures forall k :: 0 <= k < |q| ==> q[k].task.priority == p
  {
    forall k | 0 <= k < |q| ensures q[k].task.priority == p {
      assert EntryOk(q[k], t, p, b);
    }
  }

  lemma LaneIdsOwn(q: seq<Entry>, t: Tenant, p: Priority, b: Books)
    requires LaneOk(q, t, p, b)
    ensures forall id :: id in Ids(q) ==> OfLane(b.history, id, t, p)
  {
  }

  /** Logging a visit of lane (t, p) that served nothing. */
  lemma LoggingKeeps(q: seq<Entry>, t: Tenant, p: Priority, b: Books, v: Visit)
    requires LaneOk(q, t, p, b) && (v.outcome.Served? ==> !At(v, t, p))
    ensures LaneOk(q, t, p, b.Logging(v))
  {
    hide LaneOk;
    SameLaneKeeps(q, t, p, b, b.Logging(v));
  }

  lemma LoggingIsLocal(b0: Books, b: Books, v: Visit, t: Tenant)
    requires SameTenant(b0, b, t) && v.tenant != t
    ensures SameTenant(b0, b.Logging(v), t)
  {
    forall p: Priority ensures SameLane(b0, b.Logging(v), t, p) {
      assert SameLane(b0, b, t, p);
    }
  }

  /** Logging the service of an id older than everything still queued in its lane. */
  lemma LoggingServed(q: seq<Entry>, t: Tenant, p: Priority, b: Books, v: Visit)
    requires LaneOk(q, t, p, b) && At(v, t, p) && v.outcome.Served?
    requires v.outcome.id <= b.nextId && forall e :: e in q ==> v.outcome.id < e.id
    ensures LaneOk(q, t, p, b.Logging(v))
  {
    forall e | e in q ensures EntryOk(e, t, p, b.Logging(v)) {
      assert EntryOk(e, t, p, b);
    }
  }

  lemma LoggingKeepsBooks(cfg: Config, b: Books, v: Visit)
    requires BooksOk(cfg, b, 0)
    ensures BooksOk(cfg, b.Logging(v), 0)
  {
  }

  /** The head of a queue whose dead prefix is gone is pending, unexpired and the oldest of its lane. */
  lemma HeadIsPending(cfg: Config, rest: seq<Entry>, t: Tenant, p: Priority, b: Books)
    requires BooksOk(cfg, b, 0) && LaneOk(rest, t, p, b) && rest != [] && rest[0].id !in b.cancelled
    ensures rest[0].id in b.pending && 1 <= rest[0].id <= b.nextId
    ensures Increasing(rest[1..]) && (forall e :: e in rest[1..] ==> e in rest && rest[0].id < e.id)
    ensures Ids(rest) - Ids(rest[1..]) <= {rest[0].id} && rest[0].id !in Ids(rest[1..])
    ensures OfLane(b.history, rest[0].id, t, p)
  {
    hide CountersOk;
    assert EntryOk(rest[0], t, p, b);
    assert rest == [rest[0]] + rest[1..];
  }

  lemma ServeKeeps(cfg: Config, ts: TenantState, b: Books, t: Tenant, p: Priority, queueTime: nat, v: Visit)
    requires BooksOk(cfg, b, 0) && (forall p2: Priority :: LaneOk(ts.queues.At(p2), t, p2, b))
    requires ts.queues.At(p) != [] && ts.queues.At(p)[0].id !in b.cancelled
    requires At(v, t, p) && v.outcome.Served? && v.outcome.id == ts.queues.At(p)[0].id
    ensures var rest := ts.queues.At(p);
            var b' := Dispatch(b, rest[0].id, queueTime).Logging(v);
            && BooksOk(cfg, b', 0)
            && (forall p2: Priority :: LaneOk(if p2 == p then rest[1..] else ts.queues.At(p2), t, p2, b'))
            && (forall x :: x != t ==> SameTenant(b, b', x))
  {
    hide OneFate, CountersOk, LaneOk, SameLane;
    var rest := ts.queues.At(p);
    var id := rest[0].id;
    var b1 := Dispatch(b, id, queueTime);
    assert LaneOk(rest, t, p, b);
    HeadIsPending(cfg, rest, t, p, b);
    DispatchKeepsBooks(cfg, b, id, queueTime);
    assert b1.cancelled == b.cancelled - {id};
    forall p2: Priority ensures LaneOk(if p2 == p then rest[1..] else ts.queues.At(p2), t, p2, b1.Logging(v)) {
      assert LaneOk(ts.queues.At(p2), t, p2, b);
      LaneIncreases(ts.queues.At(p2), t, p2, b);
      if p2 == p {
        ShrinkKeeps(rest, rest[1..], t, p, b, b1, {id});
        LoggingServed(rest[1..], t, p, b1, v);
      } else {
        LanesDisjoint(rest, p, ts.queues.At(p2), p2, t, b);
        assert rest[0] in rest && id in Ids(rest);
        ShrinkKeeps(ts.queues.At(p2), ts.queues.At(p2), t, p2, b, b1, {id});
        LoggingKeeps(ts.queues.At(p2), t, p2, b1, v);
      }
    }
    LoggingKeepsBooks(cfg, b1, v);
    RemovalIsLocal(b, b1, {id}, t);
    forall x | x != t ensures SameTenant(b, b1.Logging(v), x) {
      LoggingIsLocal(b, b1, v, x);
    }
  }

  /** What a turn leaves behind, whatever it did. */
  ghost predicate TurnOk(cfg: Config, ts: TenantState, b: Books, t: Tenant, p: Priority, turn: Turn) {
    var q := turn.state.queues;
    && BooksOk(cfg, turn.books, 0)
    && (forall p2: Priority :: LaneOk(q.At(p2), t, p2, turn.books))
    && (forall p2: Priority :: DeficitOk(turn.state, t, p2, turn.books.history.log))
    && (forall p2: Priority :: p2 != p ==> q.At(p2) == ts.queues.At(p2) && turn.state.active.At(p2) == ts.active.At(p2))
    && (q.At(p) != [] ==> turn.state.active.At(p))
    && (turn.state.active.At(p) ==> turn.requeue)
    && |q.At(p)| <= |ts.queues.At(p)|
    && (forall x :: x != t ==> SameTenant(b, turn.books, x))
  }

  /** What a lane needs before its turn. */
  ghost predicate TurnPre(cfg: Config, ts: TenantState, b: Books, t: Tenant, p: Priority) {
    && BooksOk(cfg, b, 0)
    && (forall p2: Priority :: LaneOk(ts.queues.At(p2), t, p2, b))
    && (forall p2: Priority :: DeficitOk(ts, t, p2, b.history.log))
    && (ts.queues.At(p) != [] ==> ts.active.At(p))
  }

  lemma QuietTurnKeeps(cfg: Config, clock: Clock, ts: TenantState, b: Books, samples: nat, t: Tenant, p: Priority)
    requires TurnPre(cfg, ts, b, t, p)
    requires ts.queues.At(p) != [] ==> ts.deficits.At(p) < ChargeFor(ts.queues.At(p)[0].task.cost)
    ensures TurnOk(cfg, ts, b, t, p, HeadTurn(clock, ts, b, samples, t, p))
  {
    hide BooksOk, LaneOk, SameTenant, ServeHead, ChargeFor, WrapI64;
    var turn := HeadTurn(clock, ts, b, samples, t, p);
    var v := turn.books.history.log.visit;
    forall p2: Priority ensures LaneOk(turn.state.queues.At(p2), t, p2, turn.books) {
      LoggingKeeps(ts.queues.At(p2), t, p2, b, v);
    }
    LoggingKeepsBooks(cfg, b, v);
    forall x | x != t ensures SameTenant(b, turn.books, x) {
      SameTenantRefl(b, x);
      LoggingIsLocal(b, b, v, x);
    }
    forall p2: Priority ensures DeficitOk(turn.state, t, p2, turn.books.history.log) {
      assert DeficitOk(ts, t, p2, b.history.log);
      WrapTwice(Refills(b.history.log, t, p2) - Charged(b.history.log, t, p2), ts.quantum);
    }
  }

  lemma ServingTurnKeeps(cfg: Config, clock: Clock, ts: TenantState, b: Books, samples: nat, t: Tenant, p: Priority)
    requires TurnPre(cfg, ts, b, t, p)
    requires ts.queues.At(p) != [] && ts.queues.At(p)[0].id !in b.cancelled
    requires ts.deficits.At(p) >= ChargeFor(ts.queues.At(p)[0].task.cost)
    ensures TurnOk(cfg, ts, b, t, p, ServeHead(clock, ts, b, samples, t, p))
    ensures ServeHead(clock, ts, b, samples, t, p).served == Some(ts.queues.At(p)[0])
  {
    hide BooksOk, LaneOk, SameTenant, Dispatch, ChargeFor, QueueTime, WrapI64;
    var turn := ServeHead(clock, ts, b, samples, t, p);
    assert LaneOk(ts.queues.At(p), t, p, b);
    HeadIsPending(cfg, ts.queues.At(p), t, p, b);
    var v := turn.books.history.log.visit;
    ServeKeeps(cfg, ts, b, t, p, v.outcome.queueTime, v);
    DispatchLog(b, ts.queues.At(p)[0].id, v.outcome.queueTime);
    forall p2: Priority ensures LaneOk(turn.state.queues.At(p2), t, p2, turn.books) {
      assert LaneOk(if p2 == p then ts.queues.At(p)[1..] else ts.queues.At(p2), t, p2, turn.books);
    }
    forall p2: Priority ensures DeficitOk(turn.state, t, p2, turn.books.history.log) {
      assert DeficitOk(ts, t, p2, b.history.log);
      WrapTwice(Refills(b.history.log, t, p2) - Charged(b.history.log, t, p2), 0 - ChargeFor(ts.queues.At(p)[0].task.cost));
    }
  }

  lemma DispatchLog(b: Books, id: Id, queueTime: nat)
    ensures Dispatch(b, id, queueTime).history.log == b.history.log
  {
  }

  lemma DropDeadKeeps(cfg: Config, ts: TenantState, b: Books, t: Tenant, p: Priority, now: Time)
    requires TurnPre(cfg, ts, b, t, p)
    ensures var (ts1, b1) := DropDead(ts, b, p, now);
            && TurnPre(cfg, ts1, b1, t, p)
            && (forall x :: x != t ==> SameTenant(b, b1, x))
            && (ts1.queues.At(p) != [] ==> ts1.queues.At(p)[0].id !in b1.cancelled && !Expired(ts1.queues.At(p)[0].task.deadline, now))
  {
    hide BooksOk, LaneOk, SameTenant;
    var q := ts.queues.At(p);
    var k := DeadPrefix(q, b.cancelled, now);
    LanesMakeTenant(ts, t, b);
    PrefixDropKeeps(cfg, ts, b, t, p, k);
    var (ts1, b1) := DropDead(ts, b, p, now);
    forall p2: Priority ensures LaneOk(ts1.queues.At(p2), t, p2, b1) {
      assert LaneOk(if p2 == p then q[k..] else ts.queues.At(p2), t, p2, b1);
    }
    forall p2: Priority ensures DeficitOk(ts1, t, p2, b1.history.log) {
      assert DeficitOk(ts, t, p2, b.history.log);
    }
  }

  lemma TurnOkAfterDrop(cfg: Config, ts: TenantState, b: Books, t: Tenant, p: Priority, now: Time, turn: Turn)
    requires var (ts1, b1) := DropDead(ts, b, p, now);
             TurnOk(cfg, ts1, b1, t, p, turn) && forall x :: x != t ==> SameTenant(b, b1, x)
    ensures TurnOk(cfg, ts, b, t, p, turn)
  {
    hide BooksOk, LaneOk, SameTenant, DeficitOk, Reap;
    var (ts1, b1) := DropDead(ts, b, p, now);
    forall x | x != t ensures SameTenant(b, turn.books, x) {
      SameTenantTrans(b, b1, turn.books, x);
    }
  }

  /** A turn keeps the tenant's lanes, deficits and flags; it logs one visit, and never discards. */
  lemma TurnKeeps(cfg: Config, clock: Clock, ts: TenantState, b: Books, samples: nat, t: Tenant, p: Priority)
    requires TurnPre(cfg, ts, b, t, p)
    ensures var turn := TakeTurn(clock, ts, b, samples, t, p);
            var log := turn.books.history.log;
            && TurnOk(cfg, ts, b, t, p, turn)
            && log.Then? && log.before == b.history.log && At(log.visit, t, p)
            && !log.visit.outcome.Discarded?
            && (turn.served.Some? <==> log.visit.outcome.Served?)
  {
    hide TurnPre, TurnOk, DropDead, SameTenant;
    var now := clock.now(samples);
    var (ts1, b1) := DropDead(ts, b, p, now);
    DropDeadKeeps(cfg, ts, b, t, p, now);
    DropDeadLog(ts, b, p, now);
    if ts1.queues.At(p) != [] && ts1.deficits.At(p) >= ChargeFor(ts1.queues.At(p)[0].task.cost) {
      ServingTurnKeeps(cfg, clock, ts1, b1, samples, t, p);
    } else {
      QuietTurnKeeps(cfg, clock, ts1, b1, samples, t, p);
    }
    TurnOkAfterDrop(cfg, ts, b, t, p, now, TakeTurn(clock, ts, b, samples, t, p));
  }

  /** A turn told in terms of the queue before it: what stays queued, what the deficit becomes, who is served. */
  lemma TurnSummary(cfg: Config, clock: Clock, ts: TenantState, b: Books, samples: nat, t: Tenant, p: Priority)
    requires TurnPre(cfg, ts, b, t, p)
    ensures var turn := TakeTurn(clock, ts, b, samples, t, p);
            var q, d := ts.queues.At(p), ts.deficits.At(p);
            var k := DeadPrefix(q, b.cancelled, clock.now(samples));
            && turn.state.quantum == ts.quantum
            && (forall p2: Priority :: p2 != p ==> turn.state.queues.At(p2) == ts.queues.At(p2) && turn.state.deficits.At(p2) == ts.deficits.At(p2))
            && turn.books.cancelled == b.cancelled - Ids(q[..k])
            && (k == |q| ==> turn.state.queues.At(p) == [] && turn.state.deficits.At(p) == d && turn.served == None)
            && (k < |q| && d < ChargeFor(q[k].task.cost) ==>
                  turn.state.queues.At(p) == q[k..] && turn.state.deficits.At(p) == WrapI64(d + ts.quantum) && turn.served == None)
            && (k < |q| && d >= ChargeFor(q[k].task.cost) ==>
                  turn.state.queues.At(p) == q[k + 1..] && turn.state.deficits.At(p) == d - ChargeFor(q[k].task.cost)
                  && turn.served == Some(q[k]))
  {
    hide BooksOk, LaneOk, DeficitOk, ChargeFor, QueueTime, Dispatch, TurnPre, WrapI64;
    var q := ts.queues.At(p);
    DropDeadKeeps(cfg, ts, b, t, p, clock.now(samples));
    var (ts1, b1) := DropDead(ts, b, p, clock.now(samples));
    if ts1.queues.At(p) != [] {
      DroppedHeadPending(cfg, ts1, b1, t, p);
      DispatchMarkers(b1, q[DeadPrefix(q, b.cancelled, clock.now(samples))].id);
    }
  }

  lemma DispatchMarkers(b: Books, id: Id)
    ensures forall queueTime: nat :: Dispatch(b, id, queueTime).cancelled == b.cancelled
  {
  }

  lemma DroppedHeadPending(cfg: Config, ts: TenantState, b: Books, t: Tenant, p: Priority)
    requires TurnPre(cfg, ts, b, t, p) && ts.queues.At(p) != [] && ts.queues.At(p)[0].id !in b.cancelled
    ensures ts.queues.At(p)[0].id in b.pending
  {
    hide LaneOk, DeficitOk;
    assert LaneOk(ts.queues.At(p), t, p, b);
    HeadIsPending(cfg, ts.queues.At(p), t, p, b);
  }

  lemma DropDeadLog(ts: TenantState, b: Books, p: Priority, now: Time)
    ensures DropDead(ts, b, p, now).1.history.log == b.history.log
  {
  }

  lemma SameTenantRefl(b: Books, t: Tenant)
    ensures SameTenant(b, b, t)
  {
  }

  lemma SameTenantTrans(b: Books, b1: Books, b2: Books, t: Tenant)
    requires SameTenant(b, b1, t) && SameTenant(b1, b2, t)
    ensures SameTenant(b, b2, t)
  {
    forall p: Priority ensures SameLane(b, b2, t, p) {
      assert SameLane(b, b1, t, p) && SameLane(b1, b2, t, p);
    }
  }

  ghost predicate CanVisit(w: World, i: nat, p: Priority) {
    i < |w.shards| && w.shards[i].rings.At(p) != []
  }

  lemma VisitIsStep(cfg: Config, clock: Clock, w: World, i: nat, p: Priority)
    requires w.shards != [] && CanVisit(w, i, p)
    ensures Step(cfg, clock, w, VisitMove(i, p)) == VisitRing(clock, w, i, p).world
  {
    hide VisitRing;
  }

  /** A visit pops the head of its ring, pushes at most that tenant back, and touches no other ring. */
  lemma RingAfter(clock: Clock, w: World, i: nat, p: Priority)
    requires CanVisit(w, i, p)
    ensures var ring, w' := w.shards[i].rings.At(p), VisitRing(clock, w, i, p).world;
            && (w'.shards[i].rings.At(p) == ring[1..] || w'.shards[i].rings.At(p) == ring[1..] + [ring[0]])
            && (forall p2: Priority :: p2 != p ==> w'.shards[i].rings.At(p2) == w.shards[i].rings.At(p2))
            && (forall i2 :: 0 <= i2 < |w.shards| && i2 != i ==> w'.shards[i2] == w.shards[i2])
            && |w'.shards| == |w.shards|
  {
    hide TakeTurn;
  }

  /** Under the invariant the tenant popped from a ring lives in that shard. */
  lemma RingHead(cfg: Config, w: World, i: nat, p: Priority)
    requires Inv(cfg, w) && CanVisit(w, i, p)
    ensures var t := w.shards[i].rings.At(p)[0];
            t in w.shards[i].tenants && ShardIndex(|w.shards|, t) == i && HomeState(w, t) == w.shards[i].tenants[t]
  {
    hide BooksOk, TenantInvAt;
    var t := w.shards[i].rings.At(p)[0];
    assert t in w.shards[i].rings.At(p);
  }

  lemma HomeTurnPre(cfg: Config, w: World, t: Tenant, p: Priority)
    requires Inv(cfg, w)
    ensures TurnPre(cfg, HomeState(w, t), w.books, t, p)
  {
    hide BooksOk, HomeState, LaneOk;
    assert TenantInvAt(cfg, w, t);
    var ts, rings := HomeState(w, t), w.shards[ShardIndex(|w.shards|, t)].rings;
    LaneOfAll(ts, t, w.books);
    assert Listed(ts, t, p, rings.At(p));
  }

  lemma TurnTenantInv(cfg: Config, ts: TenantState, b: Books, t: Tenant, p: Priority, turn: Turn, rings: Three<seq<Tenant>>)
    requires TenantInv(cfg, ts, t, b, rings) && TurnOk(cfg, ts, b, t, p, turn) && rings.At(p) != []
    ensures var ring := rings.At(p)[1..];
            TenantInv(cfg, turn.state, t, turn.books, rings.With(p, if turn.requeue then ring + [t] else ring))
  {
    hide BooksOk, LaneOk, SameTenant;
    LanesMakeTenant(turn.state, t, turn.books);
    var ring := rings.At(p)[1..];
    var rings' := rings.With(p, if turn.requeue then ring + [t] else ring);
    forall p2: Priority ensures Listed(turn.state, t, p2, rings'.At(p2)) {
      assert Listed(ts, t, p2, rings.At(p2));
    }
    LenFromQueues(ts, turn.state, p);
  }

  lemma LenFromQueues(ts: TenantState, ts': TenantState, p: Priority)
    requires forall p2: Priority :: p2 != p ==> ts'.queues.At(p2) == ts.queues.At(p2)
    requires |ts'.queues.At(p)| <= |ts.queues.At(p)|
    ensures ts'.TotalLen() <= ts.TotalLen()
  {
    assert p != High ==> ts'.queues.At(High) == ts.queues.At(High);
    assert p != Normal ==> ts'.queues.At(Normal) == ts.queues.At(Normal);
    assert p != Low ==> ts'.queues.At(Low) == ts.queues.At(Low);
  }

  /** Entries of different lanes have different ids. */
  lemma OtherLane(cfg: Config, w: World, x: Tenant, px: Priority, t: Tenant, p: Priority, k: nat)
    requires Inv(cfg, w) && (x != t || px != p) && k <= |HomeState(w, x).queues.At(px)|
    ensures var removed := Ids(HomeState(w, x).queues.At(px)[..k]);
            forall e :: e in HomeState(w, t).queues.At(p) ==> e.id !in removed
  {
    hide LaneOk, HomeState, BooksOk, TenantInvAt, Homed, RingsKnown;
    InvAtLane(cfg, w, x, px);
    InvAtLane(cfg, w, t, p);
    LaneIdsOwn(HomeState(w, x).queues.At(px), x, px, w.books);
    LaneIdsOwn(HomeState(w, t).queues.At(p), t, p, w.books);
    var q := HomeState(w, x).queues.At(px);
    assert forall id :: id in Ids(q[..k]) ==> id in Ids(q);
    assert forall e :: e in HomeState(w, t).queues.At(p) ==> e.id in Ids(HomeState(w, t).queues.At(p));
  }

  /** How a visit changes the queues, deficits and markers: the visited lane by its turn, the others not. */
  lemma VisitSummary(cfg: Config, clock: Clock, w: World, i: nat, p: Priority)
    requires Inv(cfg, w) && CanVisit(w, i, p)
    ensures var w' := VisitRing(clock, w, i, p).world;
            var t := w.shards[i].rings.At(p)[0];
            && TurnPre(cfg, HomeState(w, t), w.books, t, p)
            && HomeState(w', t) == TakeTurn(clock, HomeState(w, t), w.books, w.samples, t, p).state
            && w'.books == TakeTurn(clock, HomeState(w, t), w.books, w.samples, t, p).books
            && (forall x :: x != t ==> HomeState(w', x) == HomeState(w, x))
            && (forall x, p2: Priority, e :: (x != t || p2 != p) && e in HomeState(w, x).queues.At(p2) ==>
                  (e.id in w.books.cancelled <==> e.id in w'.books.cancelled))
  {
    hide BooksOk, TenantInvAt, TakeTurn, TurnPre, QuantumFor, AsI64, ChargeFor, WrapI64, DeadPrefix;
    var t := w.shards[i].rings.At(p)[0];
    RingHead(cfg, w, i, p);
    HomeTurnPre(cfg, w, t, p);
    TurnSummary(cfg, clock, HomeState(w, t), w.books, w.samples, t, p);
    var k := DeadPrefix(HomeState(w, t).queues.At(p), w.books.cancelled, clock.now(w.samples));
    assert k <= |HomeState(w, t).queues.At(p)|;
    forall x, p2: Priority, e | (x != t || p2 != p) && e in HomeState(w, x).queues.At(p2)
      ensures e.id in w.books.cancelled <==> e.id in VisitRing(clock, w, i, p).world.books.cancelled
    {
      OtherLane(cfg, w, t, p, x, p2, k);
    }
  }

  lemma VisitKeeps(cfg: Config, clock: Clock, w: World, i: nat, p: Priority)
    requires Inv(cfg, w) && CanVisit(w, i, p)
    ensures Inv(cfg, VisitRing(clock, w, i, p).world)
  {
    hide TakeTurn, TurnPre, SameTenant, TenantInv, HomeState, BooksOk;
    var t := w.shards[i].rings.At(p)[0];
    RingHead(cfg, w, i, p);
    HomeTurnPre(cfg, w, t, p);
    var ts := w.shards[i].tenants[t];
    TurnKeeps(cfg, clock, ts, w.books, w.samples, t, p);
    assert TenantInvAt(cfg, w, t);
    TurnTenantInv(cfg, ts, w.books, t, p, TakeTurn(clock, ts, w.books, w.samples, t, p), w.shards[i].rings);
    var w' := VisitRing(clock, w, i, p).world;
    HomeOf(w', t);
    OnlyTenantKeeps(cfg, w, w', t);
  }

  // ---------------------------------------------------------------- runs

  lemma StepKeeps(cfg: Config, clock: Clock, w: World, m: Move)
    requires Inv(cfg, w)
    ensures Inv(cfg, Step(cfg, clock, w, m))
  {
    hide BooksOk, TenantInvAt, Homed, RingsKnown, Enqueue, RecordReject, Cancel, VisitRing, RefreshTenant, SetProvider;
    match m
    case EnqueueMove(t, task) => EnqueueKeeps(cfg, clock, w, t, task);
    case GiveUpMove => GiveUpKeeps(cfg, w);
    case CancelMove(id) => CancelKeeps(cfg, w, id);
    case VisitMove(i, p) =>
      if CanVisit(w, i, p) {
        VisitKeeps(cfg, clock, w, i, p);
      }
    case SetQuantumMove(t, q) =>
      RefreshKeeps(cfg, w, w.quanta.(overrides := w.quanta.overrides[t := Max(q, 1)]), t);
    case ClearQuantumMove(t) =>
      RefreshKeeps(cfg, w, w.quanta.(overrides := w.quanta.overrides - {t}), t);
    case SetProviderMove(f) => SetProviderKeeps(cfg, w, f);
  }

  lemma FreshInv(cfg: Config, shards: nat, quanta: Quanta)
    ensures Inv(cfg, Fresh(shards, quanta))
  {
  }

  lemma {:induction false} RunKeeps(cfg: Config, clock: Clock, w: World, moves: seq<Move>)
    requires Inv(cfg, w)
    ensures Inv(cfg, Run(cfg, clock, w, moves))
    decreases |moves|
  {
    hide BooksOk, TenantInvAt, Homed, RingsKnown, Step;
    if moves != [] {
      StepKeeps(cfg, clock, w, moves[0]);
      RunKeeps(cfg, clock, Step(cfg, clock, w, moves[0]), moves[1..]);
    }
  }

  /** A world some run reaches. */
  ghost predicate Reachable(cfg: Config, clock: Clock, w: World) {
    exists shards: nat, quanta: Quanta, moves: seq<Move> :: w == Run(cfg, clock, Fresh(shards, quanta), moves)
  }

  lemma ReachableInv(cfg: Config, clock: Clock, w: World)
    requires Reachable(cfg, clock, w)
    ensures Inv(cfg, w)
  {
    hide BooksOk, TenantInvAt, Homed, RingsKnown, Step;
    var shards: nat, quanta: Quanta, moves: seq<Move> :| w == Run(cfg, clock, Fresh(shards, quanta), moves);
    FreshInv(cfg, shards, quanta);
    RunKeeps(cfg, clock, Fresh(shards, quanta), moves);
  }
}
