/** The shard-activation protocol, interleaved: enqueuers and dequeuers pass a shard's one token between the
    active-shard list and themselves, with other threads' steps in between. A lock section is one step on its
    shard only: what it learns of ids and slots is arbitrary, since other threads change those meanwhile. */
module ShardActivation {
  import opened Types
  import opened World
  import opened Invariant
  import opened EnqueueProofs
  import opened Preservation
  import opened Delivery
  import opened Service
  import opened Guarantees
  import opened BoundedWait
  import opened Sections
  import opened LocalSafety
  import opened Sums

  type Tid = nat

  /** The shared id sets and the slot counter. */
  datatype Ids = Ids(pending: set<Id>, markers: set<Id>, queueLen: nat)

  /** Where a thread is between two atomic steps. */
  datatype Pc =
    | Free
    | Swapping(shard: nat)   // enqueued into a shard whose rings were all empty; its flag not swapped yet
    | Pushing(shard: nat)    // the swap found the flag clear
    | Holding(shard: nat)    // popped from the list, lock not taken yet
    | Relisting(shard: nat)  // served, rings left non-empty, not pushed back yet
    | Marking(id: Id)        // a cancel that took the pending id, marker not set yet
    | Unslotting             // a cancel that set its marker, slot not released yet

  predicate Carrying(pc: Pc) {
    pc.Swapping? || pc.Pushing? || pc.Holding? || pc.Relisting?
  }

  /** `handouts` is history: the tasks handed out so far. */
  datatype Protocol = Protocol(shards: seq<Shard>, ids: Ids, nextId: nat, list: seq<nat>, flags: seq<bool>,
                               threads: map<Tid, Pc>, handouts: seq<Handout>) {
    function At(t: Tid, pc: Pc): Protocol {
      this.(threads := threads[t := pc])
    }

    ghost predicate Shaped() {
      && shards != [] && |flags| == |shards|
      && (forall k :: 0 <= k < |list| ==> list[k] < |flags|)
      && (forall t :: t in threads && Carrying(threads[t]) ==> threads[t].shard < |flags|)
    }
  }

  datatype Action =
    | Enqueuing(tenant: Tenant, task: Task, view: EnqueueView, quantum: int, after: Ids)  // an enqueue section
    | Swap
    | PushNew
    | Pop
    | Serve(views: Three<seq<VisitView>>, after: Ids)                                     // a dequeue section
    | Relist
    | CancelTake(id: Id)
    | CancelMark
    | CancelRelease
    | Requant(owner: Tenant, newQuantum: int)                                             // a quantum refresh section

  predicate Enabled(s: Protocol, t: Tid, a: Action)
    requires s.Shaped()
  {
    t in s.threads &&
    var pc := s.threads[t];
    match a
    case Enqueuing(_, _, view, _, _) => pc.Free? && view.id > s.nextId
    case Swap => pc.Swapping?
    case PushNew => pc.Pushing?
    case Pop => pc.Free? && s.list != []
    case Serve(views, _) => pc.Holding? && ViewsFit(s.shards[pc.shard], views)
    case Relist => pc.Relisting?
    case CancelTake(_) => pc.Free?
    case CancelMark => pc.Marking?
    case CancelRelease => pc.Unslotting?
    case Requant(_, _) => pc.Free?
  }

  function Requanted(s: Shard, t: Tenant, quantum: int): Shard {
    if t in s.tenants then s.(tenants := s.tenants[t := s.tenants[t].(quantum := quantum)]) else s
  }

  /** One atomic step of thread `t`. */
  function Do(cfg: Config, s: Protocol, t: Tid, a: Action): Protocol
    requires s.Shaped() && Enabled(s, t, a)
  {
    match a
    case Enqueuing(tenant, task, view, quantum, after) =>
      var i := ShardIndex(|s.shards|, tenant);
      var (shard, accepted) := SeenEnqueue(cfg, s.shards[i], view, tenant, task, quantum);
      s.(shards := s.shards[i := shard], ids := after, nextId := if accepted then view.id else s.nextId)
       .At(t, if RingsEmpty(s.shards[i]) && accepted then Swapping(i) else Free)
    case Swap =>
      var i := s.threads[t].shard;
      if s.flags[i] then s.At(t, Free) else s.(flags := s.flags[i := true]).At(t, Pushing(i))
    case PushNew => s.(list := s.list + [s.threads[t].shard]).At(t, Free)
    case Pop => s.(list := s.list[1..]).At(t, Holding(s.list[0]))
    case Serve(views, after) =>
      var i := s.threads[t].shard;
      var (shard, served) := SeenDequeue(s.shards[i], views);
      var s1 := s.(shards := s.shards[i := shard], ids := after,
                   handouts := if served.Some? then s.handouts + [served.value] else s.handouts);
      if RingsEmpty(shard) then s1.(flags := s.flags[i := false]).At(t, Free) else s1.At(t, Relisting(i))
    case Relist => s.(list := s.list + [s.threads[t].shard]).At(t, Free)
    case CancelTake(id) =>
      if id in s.ids.pending then s.(ids := s.ids.(pending := s.ids.pending - {id})).At(t, Marking(id)) else s
    case CancelMark => s.(ids := s.ids.(markers := s.ids.markers + {s.threads[t].id})).At(t, Unslotting)
    case CancelRelease => s.(ids := s.ids.(queueLen := SatSub(s.ids.queueLen, 1))).At(t, Free)
    case Requant(owner, quantum) =>
      var i := ShardIndex(|s.shards|, owner);
      s.(shards := s.shards[i := Requanted(s.shards[i], owner, quantum)])
  }

  // ---------------------------------------------------------------- tokens

  function TokenOf(pc: Pc, i: nat): nat {
    if Carrying(pc) && pc.shard == i then 1 else 0
  }

  ghost function TokensBy(threads: map<Tid, Pc>, i: nat): map<Tid, nat> {
    map t | t in threads :: TokenOf(threads[t], i)
  }

  /** Tokens of shard `i`: its places in the list, and the threads that have it in hand. */
  ghost function Tokens(s: Protocol, i: nat): nat {
    Count(s.list, i) + SumMap(TokensBy(s.threads, i))
  }

  /** A shard has one token while any of its rings is non-empty, and none otherwise; its flag is set
      except while the enqueuer that holds the token has not swapped it yet. */
  ghost predicate ShardOk(s: Protocol, i: nat)
    requires s.Shaped() && i < |s.flags|
  {
    && Tokens(s, i) == (if RingsEmpty(s.shards[i]) then 0 else 1)
    && (forall t :: t in s.threads && s.threads[t] == Swapping(i) ==> !s.flags[i])
    && (!s.flags[i] && !RingsEmpty(s.shards[i]) ==> exists t :: t in s.threads && s.threads[t] == Swapping(i))
    && (s.flags[i] ==> !RingsEmpty(s.shards[i]))
  }

  /** The ids handed to lane (t, p), first to last. */
  ghost function HandedTo(hs: seq<Handout>, t: Tenant, p: Priority): seq<Id> {
    if hs == [] then []
    else
      var d := hs[|hs| - 1];
      HandedTo(hs[..|hs| - 1], t, p) + if d.tenant == t && d.entry.task.priority == p then [d.entry.id] else []
  }

  /** Each lane is served in order, older than what it still holds, and nothing after its deadline. */
  ghost predicate HandoutsOk(s: Protocol) {
    && (forall t, p: Priority :: Ascending(HandedTo(s.handouts, t, p)))
    && (forall t, p: Priority, id :: id in HandedTo(s.handouts, t, p) ==> id <= s.nextId)
    && (forall i, t, p: Priority, id, e ::
          0 <= i < |s.shards| && t in s.shards[i].tenants && id in HandedTo(s.handouts, t, p) && e in s.shards[i].tenants[t].queues.At(p)
          ==> id < e.id)
    && (forall d :: d in s.handouts ==> !Expired(d.entry.task.deadline, d.now))
  }

  ghost predicate ShardsOk(cfg: Config, s: Protocol) {
    && (forall i :: 0 <= i < |s.shards| ==> ShardLocal(cfg, s.shards[i], s.nextId))
    && (forall i, t :: 0 <= i < |s.shards| && t in s.shards[i].tenants ==> ShardIndex(|s.shards|, t) == i)
  }

  ghost predicate Safe(cfg: Config, s: Protocol) {
    && s.Shaped()
    && ShardsOk(cfg, s)
    && HandoutsOk(s)
    && forall i :: 0 <= i < |s.flags| ==> ShardOk(s, i)
  }

  lemma TokensAfter(s: Protocol, t: Tid, pc: Pc, i: nat)
    requires t in s.threads
    ensures SumMap(TokensBy(s.At(t, pc).threads, i))
         == SumMap(TokensBy(s.threads, i)) + TokenOf(pc, i) - TokenOf(s.threads[t], i)
    ensures TokenOf(s.threads[t], i) <= SumMap(TokensBy(s.threads, i))
  {
    var m := TokensBy(s.threads, i);
    assert TokensBy(s.At(t, pc).threads, i) == m[t := TokenOf(pc, i)];
    SumWrite(m, t, TokenOf(pc, i));
    SumBounds(m, t);
  }

  /** Two threads with the same shard in hand would be two tokens. */
  lemma OneHolder(s: Protocol, t: Tid, u: Tid, i: nat)
    requires t in s.threads && u in s.threads && t != u
    ensures TokenOf(s.threads[t], i) + TokenOf(s.threads[u], i) <= SumMap(TokensBy(s.threads, i))
  {
    var m := TokensBy(s.threads, i);
    SumWithout(m, t);
    SumBounds(m - {t}, u);
  }

  // ---------------------------------------------------------------- one step keeps every shard's token

  /** A shard the step does not touch keeps its token, its flag and its work. */
  lemma Untouched(s: Protocol, s': Protocol, t: Tid, pc: Pc, i: nat)
    requires s.Shaped() && s'.Shaped() && i < |s.flags| == |s'.flags| && ShardOk(s, i)
    requires t in s.threads && s'.threads == s.threads[t := pc]
    requires TokenOf(pc, i) == TokenOf(s.threads[t], i) == 0
    requires Count(s'.list, i) == Count(s.list, i)
    requires s'.flags[i] == s.flags[i] && RingsEmpty(s'.shards[i]) == RingsEmpty(s.shards[i])
    ensures ShardOk(s', i)
  {
    hide RingsEmpty;
    TokensAfter(s, t, pc, i);
    assert s.At(t, pc).threads == s'.threads;
    if !s'.flags[i] && !RingsEmpty(s'.shards[i]) {
      var u :| u in s.threads && s.threads[u] == Swapping(i);
      assert s'.threads[u] == Swapping(i);
    }
  }

  /** The shard whose token thread `t` has in hand, or gives up, or takes up: nobody else can be swapping
      its flag. */
  lemma Touched(s: Protocol, s': Protocol, t: Tid, pc: Pc, i: nat)
    requires s.Shaped() && s'.Shaped() && i < |s.flags| == |s'.flags| && ShardOk(s, i)
    requires t in s.threads && s'.threads == s.threads[t := pc]
    requires Count(s'.list, i) + TokenOf(pc, i) + (if RingsEmpty(s.shards[i]) then 0 else 1)
          == Count(s.list, i) + TokenOf(s.threads[t], i) + (if RingsEmpty(s'.shards[i]) then 0 else 1)
    requires pc == Swapping(i) ==> !s'.flags[i]
    requires s'.flags[i] <==> !RingsEmpty(s'.shards[i]) && pc != Swapping(i)
    requires Tokens(s, i) == 0 || TokenOf(s.threads[t], i) + Count(s.list, i) >= 1
    ensures ShardOk(s', i)
  {
    hide RingsEmpty;
    TokensAfter(s, t, pc, i);
    assert s.At(t, pc).threads == s'.threads;
    forall u | u in s'.threads && u != t ensures s'.threads[u] != Swapping(i) {
      OneHolder(s, t, u, i);
      assert s'.threads[u] == s.threads[u];
    }
    assert s'.threads[t] == pc;
    assert forall u :: u in s'.threads && s'.threads[u] == Swapping(i) ==> u == t;
  }

  // ---------------------------------------------------------------- sections keep shards and hand-outs

  lemma EnqueuingKeepsShards(cfg: Config, s: Protocol, t: Tid, a: Action)
    requires Safe(cfg, s) && a.Enqueuing? && Enabled(s, t, a)
    ensures ShardsOk(cfg, Do(cfg, s, t, a)) && HandoutsOk(Do(cfg, s, t, a))
  {
    hide SeenEnqueue, ShardLocal, ShardOk, Ascending, RingsEmpty;
    var s', i := Do(cfg, s, t, a), ShardIndex(|s.shards|, a.tenant);
    EnqueueLocal(cfg, s.shards[i], a.view, a.tenant, a.task, a.quantum, s.nextId);
    forall j | 0 <= j < |s'.shards| ensures ShardLocal(cfg, s'.shards[j], s'.nextId) {
      if j != i {
        LaterIds(cfg, s.shards[j], s.nextId, s'.nextId);
      }
    }
    forall j, x, p: Priority, id, e | 0 <= j < |s'.shards| && x in s'.shards[j].tenants
        && id in HandedTo(s'.handouts, x, p) && e in s'.shards[j].tenants[x].queues.At(p)
      ensures id < e.id
    {
      assert id <= s.nextId;
    }
  }

  lemma LaterIds(cfg: Config, s: Shard, nextId: nat, later: nat)
    requires ShardLocal(cfg, s, nextId) && nextId <= later
    ensures ShardLocal(cfg, s, later)
  {
    hide LaneLocal, TenantState.TotalLen;
    forall t | t in s.tenants ensures TenantLocal(cfg, s.tenants[t], t, s.rings, later) {
      OtherTenant(cfg, s.tenants[t], t, s.rings, s.rings, nextId, later);
    }
  }

  lemma HandedOneMore(hs: seq<Handout>, d: Handout, t: Tenant, p: Priority)
    ensures HandedTo(hs + [d], t, p) == HandedTo(hs, t, p) + if d.tenant == t && d.entry.task.priority == p then [d.entry.id] else []
  {
    assert (hs + [d])[..|hs|] == hs;
  }

  lemma ServingKeepsShards(cfg: Config, s: Protocol, t: Tid, a: Action)
    requires Safe(cfg, s) && a.Serve? && Enabled(s, t, a)
    ensures ShardsOk(cfg, Do(cfg, s, t, a)) && HandoutsOk(Do(cfg, s, t, a))
  {
    hide SeenDequeue, ShardLocal, ShardOk, Ascending, RingsEmpty, HandedTo;
    var s', i := Do(cfg, s, t, a), s.threads[t].shard;
    DequeueLocal(cfg, s.shards[i], a.views, s.nextId);
    var served := SeenDequeue(s.shards[i], a.views).1;
    if served.Some? {
      var d := served.value;
      HandedEntry(cfg, s.shards[i], d, s.nextId);
      forall x, p: Priority ensures Ascending(HandedTo(s'.handouts, x, p)) {
        HandedOneMore(s.handouts, d, x, p);
        if d.tenant == x && d.entry.task.priority == p {
          OneMoreAscends(HandedTo(s.handouts, x, p), d.entry.id);
        }
        assert HandedTo(s.handouts, x, p) + [] == HandedTo(s.handouts, x, p);
      }
      forall x, p: Priority, id | id in HandedTo(s'.handouts, x, p)
        ensures id in HandedTo(s.handouts, x, p) || (x == d.tenant && p == d.entry.task.priority && id == d.entry.id)
      {
        HandedOneMore(s.handouts, d, x, p);
      }
    }
    forall j, x, p: Priority, id, e | 0 <= j < |s'.shards| && x in s'.shards[j].tenants
        && id in HandedTo(s'.handouts, x, p) && e in s'.shards[j].tenants[x].queues.At(p)
      ensures id < e.id
    {
      assert x in s.shards[j].tenants && e in s.shards[j].tenants[x].queues.At(p);
      if id !in HandedTo(s.handouts, x, p) {
        assert ShardIndex(|s.shards|, x) == j && ShardIndex(|s.shards|, x) == i;
      }
    }
  }

  lemma OneMoreAscends(ids: seq<Id>, id: Id)
    requires Ascending(ids) && forall x :: x in ids ==> x < id
    ensures Ascending(ids + [id])
  {
    assert forall k :: 0 <= k < |ids| ==> ids[k] in ids;
  }

  lemma HandedEntry(cfg: Config, s: Shard, d: Handout, nextId: nat)
    requires ShardLocal(cfg, s, nextId) && d.tenant in s.tenants && d.entry in s.tenants[d.tenant].queues.At(d.entry.task.priority)
    ensures d.entry.id <= nextId
  {
    assert TenantLocal(cfg, s.tenants[d.tenant], d.tenant, s.rings, nextId);
    assert LaneLocal(s.tenants[d.tenant], d.tenant, d.entry.task.priority, s.rings.At(d.entry.task.priority), nextId);
  }

  lemma RequantKeepsShards(cfg: Config, s: Protocol, t: Tid, a: Action)
    requires Safe(cfg, s) && a.Requant? && Enabled(s, t, a)
    ensures ShardsOk(cfg, Do(cfg, s, t, a)) && HandoutsOk(Do(cfg, s, t, a))
  {
    hide ShardOk, Ascending, RingsEmpty, HandedTo, LaneLocal, TenantState.TotalLen;
    var s', i := Do(cfg, s, t, a), ShardIndex(|s.shards|, a.owner);
    RequantLocal(cfg, s.shards[i], a.owner, a.newQuantum, s.nextId);
  }

  lemma RequantLocal(cfg: Config, s: Shard, t: Tenant, quantum: int, nextId: nat)
    requires ShardLocal(cfg, s, nextId)
    ensures ShardLocal(cfg, Requanted(s, t, quantum), nextId) && RingsEmpty(Requanted(s, t, quantum)) == RingsEmpty(s)
  {
    var s' := Requanted(s, t, quantum);
    forall x | x in s'.tenants ensures TenantLocal(cfg, s'.tenants[x], x, s'.rings, nextId) {
      assert TenantLocal(cfg, s.tenants[x], x, s.rings, nextId);
      forall p: Priority ensures LaneLocal(s'.tenants[x], x, p, s'.rings.At(p), nextId) {
        assert LaneLocal(s.tenants[x], x, p, s.rings.At(p), nextId);
      }
    }
  }

  // ---------------------------------------------------------------- every step is safe

  lemma EnqueuingKeeps(cfg: Config, s: Protocol, t: Tid, a: Action)
    requires Safe(cfg, s) && a.Enqueuing? && Enabled(s, t, a)
    ensures Safe(cfg, Do(cfg, s, t, a))
  {
    hide SeenEnqueue, ShardLocal, RingsEmpty, ShardOk, HandoutsOk, ShardsOk;
    var s' := Do(cfg, s, t, a);
    var i := ShardIndex(|s.shards|, a.tenant);
    EnqueuingKeepsShards(cfg, s, t, a);
    ShardOf(cfg, s, i);
    EnqueueLocal(cfg, s.shards[i], a.view, a.tenant, a.task, a.quantum, s.nextId);
    SameRings(s.shards[i], s'.shards[i]);
    RingsStay(cfg, s.shards[i], a.view, a.tenant, a.task, a.quantum);
    forall j | 0 <= j < |s'.flags| ensures ShardOk(s', j) {
      if s'.threads[t] == Swapping(j) {
        EnqueuerTakesToken(s, s', t, j);
      } else {
        Untouched(s, s', t, s'.threads[t], j);
      }
    }
  }

  lemma ShardOf(cfg: Config, s: Protocol, i: nat)
    requires ShardsOk(cfg, s) && i < |s.shards|
    ensures ShardLocal(cfg, s.shards[i], s.nextId)
  {
  }

  /** An enqueue empties no ring. */
  lemma RingsStay(cfg: Config, s: Shard, v: EnqueueView, t: Tenant, task: Task, quantum: int)
    ensures !RingsEmpty(s) ==> !RingsEmpty(SeenEnqueue(cfg, s, v, t, task, quantum).0)
  {
    hide SeenAdmit;
  }

  lemma EnqueuerTakesToken(s: Protocol, s': Protocol, t: Tid, i: nat)
    requires s.Shaped() && s'.Shaped() && i < |s.flags| && ShardOk(s, i)
    requires t in s.threads && s.threads[t].Free? && s'.threads == s.threads[t := Swapping(i)]
    requires s'.list == s.list && s'.flags == s.flags
    requires RingsEmpty(s.shards[i]) && !RingsEmpty(s'.shards[i])
    ensures ShardOk(s', i)
  {
    hide RingsEmpty;
    Touched(s, s', t, Swapping(i), i);
  }

  /** Steps that leave every shard alone keep what is known of shards and hand-outs. */
  lemma SameShards(cfg: Config, s: Protocol, s': Protocol)
    requires ShardsOk(cfg, s) && HandoutsOk(s) && s'.shards == s.shards && s'.nextId == s.nextId && s'.handouts == s.handouts
    ensures ShardsOk(cfg, s') && HandoutsOk(s')
  {
    hide ShardLocal, Ascending, HandedTo;
  }

  lemma SwapKeeps(cfg: Config, s: Protocol, t: Tid)
    requires Safe(cfg, s) && Enabled(s, t, Swap)
    ensures Safe(cfg, Do(cfg, s, t, Swap))
    ensures !s.flags[s.threads[t].shard]
  {
    hide ShardLocal, RingsEmpty, HandoutsOk, ShardsOk;
    var s' := Do(cfg, s, t, Swap);
    var i := s.threads[t].shard;
    assert ShardOk(s, i);
    SameShards(cfg, s, s');
    TokensAfter(s, t, Free, i);
    forall j | 0 <= j < |s'.flags| ensures ShardOk(s', j) {
      assert ShardOk(s, j);
      if i == j {
        Touched(s, s', t, Pushing(i), i);
      } else {
        Untouched(s, s', t, Pushing(i), j);
      }
    }
  }

  lemma PushKeeps(cfg: Config, s: Protocol, t: Tid, a: Action)
    requires Safe(cfg, s) && (a == PushNew || a == Relist) && Enabled(s, t, a)
    ensures Safe(cfg, Do(cfg, s, t, a))
  {
    hide ShardLocal, RingsEmpty, ShardOk, HandoutsOk, ShardsOk;
    var s' := Do(cfg, s, t, a);
    var i := s.threads[t].shard;
    SameShards(cfg, s, s');
    forall j | 0 <= j < |s'.flags| ensures ShardOk(s', j) {
      assert ShardOk(s, j);
      CountSnoc<nat>(s.list, i, j);
      if i == j {
        HolderIsFlagged(s, t, i);
        Touched(s, s', t, Free, i);
      } else {
        Untouched(s, s', t, Free, j);
      }
    }
  }

  /** A thread past the swap with shard `i` in hand: there is work, and the flag is set. */
  lemma HolderIsFlagged(s: Protocol, t: Tid, i: nat)
    requires s.Shaped() && i < |s.flags| && ShardOk(s, i)
    requires t in s.threads && TokenOf(s.threads[t], i) == 1 && !s.threads[t].Swapping?
    ensures s.flags[i] && !RingsEmpty(s.shards[i]) && Count(s.list, i) == 0
  {
    hide RingsEmpty;
    TokensAfter(s, t, Free, i);
    if !s.flags[i] {
      var u :| u in s.threads && s.threads[u] == Swapping(i);
      OneHolder(s, t, u, i);
    }
  }

  lemma ListedIsFlagged(s: Protocol, i: nat)
    requires s.Shaped() && i < |s.flags| && ShardOk(s, i) && Count(s.list, i) >= 1
    ensures s.flags[i] && !RingsEmpty(s.shards[i]) && Count(s.list, i) == 1
  {
    hide RingsEmpty;
    if !s.flags[i] {
      var u :| u in s.threads && s.threads[u] == Swapping(i);
      TokensAfter(s, u, Free, i);
    }
  }

  lemma PopKeeps(cfg: Config, s: Protocol, t: Tid)
    requires Safe(cfg, s) && Enabled(s, t, Pop)
    ensures Safe(cfg, Do(cfg, s, t, Pop))
  {
    hide ShardLocal, RingsEmpty, ShardOk, HandoutsOk, ShardsOk;
    var s' := Do(cfg, s, t, Pop);
    var i := s.list[0];
    SameShards(cfg, s, s');
    forall j | 0 <= j < |s'.flags| ensures ShardOk(s', j) {
      assert ShardOk(s, j);
      if i == j {
        ListedIsFlagged(s, i);
        Touched(s, s', t, Holding(i), i);
      } else {
        Untouched(s, s', t, Holding(i), j);
      }
    }
  }

  lemma ServeKeeps(cfg: Config, s: Protocol, t: Tid, a: Action)
    requires Safe(cfg, s) && a.Serve? && Enabled(s, t, a)
    ensures Safe(cfg, Do(cfg, s, t, a))
  {
    hide ShardLocal, RingsEmpty, ShardOk, SeenDequeue, HandoutsOk, ShardsOk;
    var s' := Do(cfg, s, t, a);
    var i := s.threads[t].shard;
    ServingKeepsShards(cfg, s, t, a);
    forall j | 0 <= j < |s'.flags| ensures ShardOk(s', j) {
      assert ShardOk(s, j);
      if i == j {
        HolderIsFlagged(s, t, i);
        Touched(s, s', t, s'.threads[t], i);
      } else {
        Untouched(s, s', t, s'.threads[t], j);
      }
    }
  }

  /** A cancel's steps and quantum refreshes pass no token. */
  lemma OtherKeeps(cfg: Config, s: Protocol, t: Tid, a: Action)
    requires Safe(cfg, s) && (a.CancelTake? || a.CancelMark? || a.CancelRelease? || a.Requant?) && Enabled(s, t, a)
    ensures Safe(cfg, Do(cfg, s, t, a))
  {
    hide ShardLocal, RingsEmpty, ShardOk, HandoutsOk, ShardsOk, Requanted;
    var s' := Do(cfg, s, t, a);
    if a.Requant? {
      RequantKeepsShards(cfg, s, t, a);
      var i := ShardIndex(|s.shards|, a.owner);
      ShardOf(cfg, s, i);
      RequantLocal(cfg, s.shards[i], a.owner, a.newQuantum, s.nextId);
    } else {
      SameShards(cfg, s, s');
    }
    assert s'.threads == s.threads[t := s'.threads[t]];
    forall j | 0 <= j < |s'.flags| ensures ShardOk(s', j) {
      Untouched(s, s', t, s'.threads[t], j);
    }
  }

  lemma StepIsSafe(cfg: Config, s: Protocol, t: Tid, a: Action)
    requires Safe(cfg, s) && Enabled(s, t, a)
    ensures Safe(cfg, Do(cfg, s, t, a))
  {
    hide ShardsOk, HandoutsOk, ShardOk, Do;
    match a
    case Enqueuing(_, _, _, _, _) => EnqueuingKeeps(cfg, s, t, a);
    case Swap => SwapKeeps(cfg, s, t);
    case PushNew => PushKeeps(cfg, s, t, a);
    case Pop => PopKeeps(cfg, s, t);
    case Serve(_, _) => ServeKeeps(cfg, s, t, a);
    case Relist => PushKeeps(cfg, s, t, a);
    case _ => OtherKeeps(cfg, s, t, a);
  }

  // ---------------------------------------------------------------- every interleaving

  function Start(shards: nat, tids: set<Tid>): (s: Protocol)
    ensures s.Shaped()
  {
    var n: nat := Max(shards, 1);
    Protocol(seq(n, _ => EMPTY_SHARD), Ids({}, {}, 0), 0, [], seq(n, _ => false), map t | t in tids :: Free, [])
  }

  ghost predicate OneStep(cfg: Config, s: Protocol, s': Protocol) {
    exists t: Tid, a: Action :: s.Shaped() && Enabled(s, t, a) && s' == Do(cfg, s, t, a)
  }

  /** `trace` is an interleaving: consecutive states are one enabled step of one thread apart. */
  ghost predicate Interleaving(cfg: Config, trace: seq<Protocol>) {
    && (exists shards: nat, tids: set<Tid> :: trace != [] && trace[0] == Start(shards, tids))
    && (forall k :: 0 <= k < |trace| - 1 ==> OneStep(cfg, trace[k], trace[k + 1]))
  }

  lemma StartIsSafe(cfg: Config, shards: nat, tids: set<Tid>)
    ensures Safe(cfg, Start(shards, tids))
  {
    var s := Start(shards, tids);
    forall i | 0 <= i < |s.flags| ensures ShardOk(s, i) {
      SumOfZeros(TokensBy(s.threads, i));
    }
  }

  lemma OneStepIsSafe(cfg: Config, s: Protocol, s': Protocol)
    requires Safe(cfg, s) && OneStep(cfg, s, s')
    ensures Safe(cfg, s')
  {
    hide ShardsOk, HandoutsOk, ShardOk, Do, Enabled;
    var t: Tid, a: Action :| Enabled(s, t, a) && s' == Do(cfg, s, t, a);
    StepIsSafe(cfg, s, t, a);
  }

  lemma {:induction false} InterleavingsAreSafe(cfg: Config, trace: seq<Protocol>, k: nat)
    requires Interleaving(cfg, trace) && k < |trace|
    ensures Safe(cfg, trace[k])
    decreases k
  {
    hide Safe, OneStep;
    if k == 0 {
      var shards: nat, tids: set<Tid> :| trace[0] == Start(shards, tids);
      StartIsSafe(cfg, shards, tids);
    } else {
      InterleavingsAreSafe(cfg, trace, k - 1);
      assert OneStep(cfg, trace[k - 1], trace[k - 1 + 1]);
      OneStepIsSafe(cfg, trace[k - 1], trace[k]);
    }
  }

  /** Shard-token safety: in every state of every interleaving, a shard's places in the active list plus
      the threads that have it in hand are one if any of its rings is non-empty and none otherwise, and an
      enqueuer about to swap the flag always finds it clear. */
  lemma OneToken(cfg: Config, trace: seq<Protocol>, k: nat, i: nat)
    requires Interleaving(cfg, trace) && k < |trace| && i < |trace[k].shards|
    ensures var s := trace[k];
            && Tokens(s, i) == (if RingsEmpty(s.shards[i]) then 0 else 1)
            && i < |s.flags|
            && (forall t :: t in s.threads && s.threads[t] == Swapping(i) ==> !s.flags[i])
  {
    hide ShardsOk, HandoutsOk, RingsEmpty, Tokens, Interleaving;
    InterleavingsAreSafe(cfg, trace, k);
    assert ShardOk(trace[k], i);
  }

  /** So no shard is listed twice, and once no thread is between steps the list and the flags are exact. */
  lemma ListIsExact(cfg: Config, trace: seq<Protocol>, k: nat, i: nat)
    requires Interleaving(cfg, trace) && k < |trace| && i < |trace[k].shards|
    ensures var s := trace[k];
            && Count(s.list, i) <= 1
            && i < |s.flags|
            && ((forall t :: t in s.threads ==> !Carrying(s.threads[t])) ==>
                  && (s.flags[i] <==> !RingsEmpty(s.shards[i]))
                  && Count(s.list, i) == if s.flags[i] then 1 else 0)
  {
    hide ShardsOk, HandoutsOk, RingsEmpty, Interleaving;
    InterleavingsAreSafe(cfg, trace, k);
    var s := trace[k];
    assert ShardOk(s, i);
    if forall t :: t in s.threads ==> !Carrying(s.threads[t]) {
      SumOfZeros(TokensBy(s.threads, i));
    }
  }

  /** What survives of the reachable-world theorems when lock sections of different shards, the steps of a
      cancel and every operation on ids and slots interleave: queued work is flagged and its tenant listed in
      its own shard's ring; no tenant holds more entries than the limit; queues ascend by id; each lane is
      served in order, older than what it still holds, and never after a deadline. */
  lemma InterleavedSafety(cfg: Config, trace: seq<Protocol>, k: nat, i: nat, t: Tenant, p: Priority)
    requires Interleaving(cfg, trace) && k < |trace| && i < |trace[k].shards| && t in trace[k].shards[i].tenants
    ensures var s := trace[k];
            var ts := s.shards[i].tenants[t];
            && ShardIndex(|s.shards|, t) == i
            && Listed(ts, t, p, s.shards[i].rings.At(p))
            && ts.TotalLen() <= cfg.maxPerTenant
            && Increasing(ts.queues.At(p))
            && Ascending(HandedTo(s.handouts, t, p))
            && (forall id, e :: id in HandedTo(s.handouts, t, p) && e in ts.queues.At(p) ==> id < e.id)
            && (forall d :: d in s.handouts ==> !Expired(d.entry.task.deadline, d.now))
  {
    hide Interleaving, ShardOk, Ascending, HandedTo, Listed, TenantState.TotalLen;
    InterleavingsAreSafe(cfg, trace, k);
    var s := trace[k];
    assert ShardLocal(cfg, s.shards[i], s.nextId);
    assert TenantLocal(cfg, s.shards[i].tenants[t], t, s.shards[i].rings, s.nextId);
    assert LaneLocal(s.shards[i].tenants[t], t, p, s.shards[i].rings.At(p), s.nextId);
  }

  /** No queued task is stranded: while tenant `t` has work at any priority, its shard's token is in the
      list or in some thread's hand. */
  lemma QueuedWorkHasToken(cfg: Config, trace: seq<Protocol>, k: nat, i: nat, t: Tenant, p: Priority)
    requires Interleaving(cfg, trace) && k < |trace| && i < |trace[k].shards| && t in trace[k].shards[i].tenants
    ensures trace[k].shards[i].tenants[t].queues.At(p) != [] ==> Tokens(trace[k], i) == 1
  {
    hide Interleaving, Tokens, RingsEmpty;
    InterleavedSafety(cfg, trace, k, i, t, p);
    OneToken(cfg, trace, k, i);
    NonEmptyRing(trace[k].shards[i], p);
  }

  lemma NonEmptyRing(s: Shard, p: Priority)
    ensures RingsEmpty(s) ==> s.rings.At(p) == []
  {
  }

  // ---------------------------------------------------------------- against the sequential scheduler

  /** The shards of a world, its ids and its next id, as a state of the protocol. */
  predicate Matches(s: Protocol, w: World) {
    s.shards == w.shards && s.nextId == w.books.nextId && s.ids == Ids(w.books.pending, w.books.cancelled, w.books.stats.queueLen)
  }

  /** Every enqueue of the sequential scheduler is a step of the protocol. */
  lemma EnqueueIsStep(cfg: Config, clock: Clock, s: Protocol, tid: Tid, w: World, t: Tenant, task: Task)
    requires Safe(cfg, s) && tid in s.threads && s.threads[tid].Free? && Inv(cfg, w) && Matches(s, w)
    ensures exists a: Action :: a.Enqueuing? && Enabled(s, tid, a) && Matches(Do(cfg, s, tid, a), Enqueue(cfg, clock, w, t, task))
  {
    hide BooksOk, TenantInvAt, Homed, RingsKnown, Enqueue, AdmissionOf, SeenEnqueue, ShardsOk, HandoutsOk, ShardOk, QuantumFor, AsI64;
    var w' := Enqueue(cfg, clock, w, t, task);
    var v := EnqueueIsSection(cfg, clock, w, t, task);
    EnqueueRings(cfg, clock, w, t, task);
    EnqueueIds(cfg, clock, w, t, task);
    if AdmissionOf(cfg, clock, w, t, task).refusal.Some? {
      v := WithId(cfg, w.shards[ShardIndex(|w.shards|, t)], v, t, task, AsI64(QuantumFor(w.quanta, t)), w.books.nextId + 1);
    }
    var a := Enqueuing(t, task, v, AsI64(QuantumFor(w.quanta, t)), Ids(w'.books.pending, w'.books.cancelled, w'.books.stats.queueLen));
    assert Enabled(s, tid, a);
    assert Do(cfg, s, tid, a).shards == w'.shards;
    assert Matches(Do(cfg, s, tid, a), w');
  }

  /** A refused enqueue draws no id. */
  lemma WithId(cfg: Config, s: Shard, v: EnqueueView, t: Tenant, task: Task, quantum: int, id: Id) returns (v': EnqueueView)
    requires !SeenEnqueue(cfg, s, v, t, task, quantum).1
    ensures v'.id == id && SeenEnqueue(cfg, s, v', t, task, quantum) == SeenEnqueue(cfg, s, v, t, task, quantum)
  {
    v' := v.(id := id);
    SameButId(cfg, TenantIn(s, t, quantum), v, v', t, task);
    hide SeenAdmit;
  }

  lemma SameButId(cfg: Config, ts: TenantState, a: EnqueueView, b: EnqueueView, t: Tenant, task: Task)
    requires b == a.(id := b.id)
    ensures SeenAdmit(cfg, ts, a, t, task) == SeenAdmit(cfg, ts, b, t, task)
  {
    hide SeenPurge, TenantState.TotalLen, Evict, EvictFrom;
  }

  lemma EnqueueIds(cfg: Config, clock: Clock, w: World, t: Tenant, task: Task)
    requires Inv(cfg, w)
    ensures var a, w' := AdmissionOf(cfg, clock, w, t, task), Enqueue(cfg, clock, w, t, task);
            && a.draft.books.nextId == w.books.nextId
            && w'.books.nextId == w.books.nextId + if a.refusal.None? then 1 else 0
  {
    hide BooksOk, TenantInvAt, Homed, RingsKnown, Admit, Join, HomeState;
    var d := Draft(HomeState(w, t), w.books, w.samples);
    HomeDraftOk(cfg, w, t);
    AdmitKeeps(cfg, clock, d, t, task);
  }

  /** Every shard dequeue of the sequential scheduler is a step of the protocol. */
  lemma DequeueIsStep(cfg: Config, clock: Clock, s: Protocol, tid: Tid, w: World)
    requires Safe(cfg, s) && tid in s.threads && s.threads[tid].Holding? && Inv(cfg, w) && Matches(s, w)
    ensures exists a: Action :: a.Serve? && Enabled(s, tid, a)
              && Matches(Do(cfg, s, tid, a), DequeueShard(clock, w, s.threads[tid].shard).world)
  {
    hide Inv, DequeueShard, SeenDequeue, ShardsOk, HandoutsOk, ShardOk;
    var i := s.threads[tid].shard;
    var w' := DequeueShard(clock, w, i).world;
    var views := DequeueIsSection(clock, w, i);
    DequeueStaysInShard(clock, w, i);
    DequeueKeepsNextId(cfg, clock, w, i);
    var a := Serve(views, Ids(w'.books.pending, w'.books.cancelled, w'.books.stats.queueLen));
    assert Enabled(s, tid, a);
    assert Do(cfg, s, tid, a).shards == w'.shards;
  }

  lemma DequeueKeepsNextId(cfg: Config, clock: Clock, w: World, i: nat)
    requires i < |w.shards|
    ensures DequeueShard(clock, w, i).world.books.nextId == w.books.nextId
  {
    hide Pass;
    var h := FullPass(clock, w, i, High).world;
    var n := FullPass(clock, h, i, Normal).world;
    PassKeepsNextId(clock, w, i, High, |w.shards[i].rings.At(High)|);
    PassKeepsNextId(clock, h, i, Normal, |h.shards[i].rings.At(Normal)|);
    PassKeepsNextId(clock, n, i, Low, |n.shards[i].rings.At(Low)|);
  }

  lemma {:induction false} PassKeepsNextId(clock: Clock, w: World, i: nat, p: Priority, n: nat)
    requires i < |w.shards|
    ensures Pass(clock, w, i, p, n).world.books.nextId == w.books.nextId
    decreases n
  {
    hide VisitRing;
    if n > 0 && CanVisit(w, i, p) {
      RingAfter(clock, w, i, p);
      VisitPending(clock, w, i, p);
      PassKeepsNextId(clock, VisitRing(clock, w, i, p).world, i, p, n - 1);
    }
  }

  /** The three steps of a cancel in a row are the cancel of the sequential scheduler; of an id that is not pending
      the first does nothing. */
  lemma CancelIsSteps(cfg: Config, s: Protocol, tid: Tid, w: World, id: Id)
    requires s.Shaped() && tid in s.threads && s.threads[tid].Free? && Matches(s, w)
    ensures var s1 := Do(cfg, s, tid, CancelTake(id));
            if id in w.books.pending then
              && s1.Shaped() && Enabled(s1, tid, CancelMark)
              && var s2 := Do(cfg, s1, tid, CancelMark);
                 && s2.Shaped() && Enabled(s2, tid, CancelRelease)
                 && var s3 := Do(cfg, s2, tid, CancelRelease);
                    Matches(s3, Cancel(w, id)) && s3.threads == s.threads && s3.list == s.list && s3.flags == s.flags
            else s1 == s && Cancel(w, id) == w
  {
    if id in w.books.pending {
      var s1 := Do(cfg, s, tid, CancelTake(id));
      var s2 := Do(cfg, s1, tid, CancelMark);
      var s3 := Do(cfg, s2, tid, CancelRelease);
      assert s3.threads == s.threads;
    }
  }

  /** List and flags read as those of the sequential scheduler. */
  ghost predicate SameList(s: Protocol, st: State) {
    s.list == st.activeShards && s.flags == st.shardActive
  }

  /** Popping a shard, its section, and pushing it back while it has work do to list and flags what one turn of the
      loop of `try_dequeue` does. */
  lemma TurnIsSteps(cfg: Config, s: Protocol, tid: Tid, st: State, a: Action)
    requires s.Shaped() && st.Shaped() && tid in s.threads && s.threads[tid].Free?
    requires SameList(s, st) && s.list != [] && s.shards == st.world.shards && a.Serve?
    ensures Enabled(s, tid, Pop)
    ensures var s1 := Do(cfg, s, tid, Pop);
            && s1.Shaped()
            && (Enabled(s1, tid, a) ==>
                  var s2 := Do(cfg, s1, tid, a);
                  var settled := Settled(st, s.list[0], st.world.(shards := s2.shards));
                  && s2.Shaped()
                  && (s2.threads[tid].Free? ==> SameList(s2, settled))
                  && (!s2.threads[tid].Free? ==>
                        Enabled(s2, tid, Relist) && SameList(Do(cfg, s2, tid, Relist), settled) && Do(cfg, s2, tid, Relist).threads[tid].Free?))
  {
    hide SeenDequeue, RingsEmpty, ViewsFit;
    var s1 := Do(cfg, s, tid, Pop);
    assert s.list[1..] + [] == s.list[1..];
    assert forall k :: 0 <= k < |s1.list| ==> s1.list[k] == s.list[k + 1];
  }

  /** Swapping the flag, and pushing the shard if it was clear, is the activation of the sequential scheduler. */
  lemma ActivationIsSteps(cfg: Config, s: Protocol, tid: Tid, st: State, i: nat)
    requires s.Shaped() && st.Shaped() && tid in s.threads && s.threads[tid] == Swapping(i) && i < |st.world.shards|
    requires SameList(s, st)
    ensures Enabled(s, tid, Swap)
    ensures var s1 := Do(cfg, s, tid, Swap);
            && s1.Shaped()
            && (s.flags[i] ==> SameList(s1, Activated(st, i)) && s1.threads[tid].Free?)
            && (!s.flags[i] ==>
                  Enabled(s1, tid, PushNew) && SameList(Do(cfg, s1, tid, PushNew), Activated(st, i)) && Do(cfg, s1, tid, PushNew).threads[tid].Free?)
  {
  }

  /** What does not survive: between the first two steps of a cancel an id is neither pending nor marked while
      its entry may still be queued. No run of the sequential scheduler reaches the world a cancel leaves
      there, so the theorems that read queued ids off the id sets say nothing about it. */
  lemma MidCancelIsUnreachable(cfg: Config, clock: Clock, w: World, id: Id)
    requires Reachable(cfg, clock, w) && id in w.books.pending
    ensures !Reachable(cfg, clock, w.(books := w.books.(pending := w.books.pending - {id})))
  {
    hide Reachable;
    var w' := w.(books := w.books.(pending := w.books.pending - {id}));
    SingleOutcome(cfg, clock, w, id);
    if Reachable(cfg, clock, w') {
      SingleOutcome(cfg, clock, w', id);
      assert false;
    }
  }
}
