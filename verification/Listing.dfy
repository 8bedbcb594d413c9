/** How often a tenant stands in a ring: exactly which enqueues list it a second time. */
module Listing {
  import opened Types
  import opened World
  import opened Invariant
  import opened EnqueueProofs
  import opened Preservation
  import opened Service
  import opened RoundRobin

  predicate AllDead(q: seq<Entry>, cancelled: set<Id>, now: Time) {
    forall k :: 0 <= k < |q| ==> Dead(q[k], cancelled, now)
  }

  /** Every entry of lane `p` of the draft is dead at its next clock reading. */
  predicate LaneDead(clock: Clock, d: Draft, p: Priority) {
    AllDead(d.state.queues.At(p), d.books.cancelled, clock.now(d.samples))
  }

  /** A purge runs before the enqueue looks at the limits. */
  predicate PurgesFirst(cfg: Config, d: Draft) {
    PurgeReasonFor(cfg, d.state.TotalLen(), d.state.attempts + 1).Some?
  }

  /** The draft once the victim of a Drop policy is out, if there is one and it was dead already, so that its
      slot is free and the newcomer needs another. */
  function WithoutDeadVictim(d: Draft, strategy: Strategy, incoming: Priority): Option<Draft> {
    match EvictFrom(d.state, incoming)
    case None => None
    case Some(p) =>
      var (ts, e) := Evict(d.state, p, strategy);
      if e.id in d.books.pending then None else Some(Draft(ts, Displace(d.books, e.id), d.samples))
  }

  /** What a purge for a slot finds, if one runs: the counter is at the limit, and no full purge ran yet. */
  function PurgedForSlot(cfg: Config, clock: Clock, d: Draft, t: Tenant, incoming: Priority): Option<Draft> {
    var (d1, ranFull) := MaybePurge(cfg, clock, d);
    if ranFull || d1.books.stats.queueLen < cfg.maxGlobal then None
    else
      match PolicyFor(cfg, t)
      case Reject => Some(d1)
      case Timeout(_) => Some(d1)
      case DropOldest => WithoutDeadVictim(d1, Oldest, incoming)
      case DropNewest => WithoutDeadVictim(d1, Newest, incoming)
  }

  /** The task finds its lane unflagged: its flag was clear before, or a purge of this enqueue runs when every
      entry the lane then has is dead. */
  predicate Unflagged(cfg: Config, clock: Clock, d: Draft, t: Tenant, p: Priority) {
    || !d.state.active.At(p)
    || (PurgesFirst(cfg, d) && LaneDead(clock, d, p))
    || (var d2 := PurgedForSlot(cfg, clock, d, t, p); d2.Some? && LaneDead(clock, d2.value, p))
  }

  /** A purge empties a queue if and only if all of it is dead. */
  lemma PurgeEmptiesExactly(q: seq<Entry>, cancelled: set<Id>, now: Time, budget: nat)
    ensures PurgedQueue(q, cancelled, now, budget) == [] <==> AllDead(q, cancelled, now)
  {
    var k := DeadPrefix(q, cancelled, now);
    var rest := q[k..];
    if k < |q| {
      assert rest[0] == q[k];
    } else {
      assert rest == [];
    }
  }

  lemma PurgeClears(clock: Clock, d: Draft, reason: PurgeReason, p: Priority)
    ensures PurgeForEnqueue(clock, d, reason).0.state.active.At(p) <==> d.state.active.At(p) && !LaneDead(clock, d, p)
  {
    hide PurgedQueue, RemovedIds, Reap, AllDead;
    PurgeEmptiesExactly(d.state.queues.At(p), d.books.cancelled, clock.now(d.samples), ScanBudget(reason));
  }

  lemma MaybeClears(cfg: Config, clock: Clock, d: Draft, p: Priority)
    ensures MaybePurge(cfg, clock, d).0.state.active.At(p) <==> d.state.active.At(p) && !(PurgesFirst(cfg, d) && LaneDead(clock, d, p))
    ensures MaybePurge(cfg, clock, d).0.state.TotalLen() >= cfg.maxPerTenant ==> MaybePurge(cfg, clock, d).1
  {
    hide PurgeForEnqueue, AllDead;
    var d1 := d.(state := d.state.(attempts := d.state.attempts + 1));
    var reason := PurgeReasonFor(cfg, d1.state.TotalLen(), d1.state.attempts);
    if reason.Some? {
      PurgeClears(clock, d1, reason.value, p);
      PurgeIsShorter(clock, d1, reason.value);
    }
  }

  lemma ReserveClears(cfg: Config, clock: Clock, d: Draft, ranFull: bool, p: Priority)
    requires ReserveOrPurge(cfg, clock, d, ranFull).refusal.None?
    ensures ReserveOrPurge(cfg, clock, d, ranFull).draft.state.active.At(p) <==>
            d.state.active.At(p) && !(!ranFull && d.books.stats.queueLen >= cfg.maxGlobal && LaneDead(clock, d, p))
  {
    hide PurgeForEnqueue, LaneDead;
    PurgeClears(clock, d, Full, p);
  }

  lemma RejectClears(cfg: Config, clock: Clock, d: Draft, p: Priority)
    requires AdmitOrReject(cfg, clock, d).refusal.None?
    ensures var (d1, ranFull) := MaybePurge(cfg, clock, d);
            AdmitOrReject(cfg, clock, d).draft.state.active.At(p) <==>
            d1.state.active.At(p) && !(!ranFull && d1.books.stats.queueLen >= cfg.maxGlobal && LaneDead(clock, d1, p))
  {
    hide PurgeForEnqueue, MaybePurge, LaneDead, ReserveOrPurge;
    var (d1, ranFull) := MaybePurge(cfg, clock, d);
    MaybeClears(cfg, clock, d, p);
    ReserveClears(cfg, clock, d1, ranFull, p);
  }

  lemma EvictClears(cfg: Config, clock: Clock, d: Draft, strategy: Strategy, incoming: Priority, p: Priority)
    requires AdmitOrEvict(cfg, clock, d, strategy, incoming).refusal.None?
    ensures var (d1, ranFull) := MaybePurge(cfg, clock, d);
            var d2 := WithoutDeadVictim(d1, strategy, incoming);
            AdmitOrEvict(cfg, clock, d, strategy, incoming).draft.state.active.At(p) <==>
            d1.state.active.At(p) &&
            !(!ranFull && d1.books.stats.queueLen >= cfg.maxGlobal && d2.Some? && LaneDead(clock, d2.value, p))
  {
    hide PurgeForEnqueue, MaybePurge, ReserveOrPurge, LaneDead;
    MaybeClears(cfg, clock, d, p);
    var (d1, ranFull) := MaybePurge(cfg, clock, d);
    if d1.state.TotalLen() < cfg.maxPerTenant && d1.books.stats.queueLen < cfg.maxGlobal {
      ReserveClears(cfg, clock, d1, ranFull, p);
    } else {
      var d2 := WithoutDeadVictim(d1, strategy, incoming);
      if d2.Some? {
        ReserveClears(cfg, clock, d2.value, ranFull, p);
      }
    }
  }

  /** What the flag of lane `p` is when the task joins. */
  lemma FlagAfter(cfg: Config, clock: Clock, d: Draft, t: Tenant, task: Task)
    requires Admit(cfg, clock, d, t, task).refusal.None?
    ensures !Admit(cfg, clock, d, t, task).draft.state.active.At(task.priority) <==> Unflagged(cfg, clock, d, t, task.priority)
  {
    hide AdmitOrReject, AdmitOrEvict, MaybePurge, LaneDead, WithoutDeadVictim, PurgesFirst;
    var p := task.priority;
    MaybeClears(cfg, clock, d, p);
    match PolicyFor(cfg, t)
    case Reject => RejectClears(cfg, clock, d, p);
    case Timeout(_) => RejectClears(cfg, clock, d, p);
    case DropOldest => EvictClears(cfg, clock, d, Oldest, p, p);
    case DropNewest => EvictClears(cfg, clock, d, Newest, p, p);
  }

  /** The enqueue is admitted and will find its lane unflagged. */
  predicate ListsAgain(cfg: Config, clock: Clock, w: World, t: Tenant, task: Task)
    requires w.shards != []
  {
    && AdmissionOf(cfg, clock, w, t, task).refusal.None?
    && Unflagged(cfg, clock, Draft(HomeState(w, t), w.books, w.samples), t, task.priority)
  }

  /** An enqueue lists its tenant once more exactly when it finds the lane unflagged, and changes no other
      listing. */
  lemma EnqueueListsExactly(cfg: Config, clock: Clock, w: World, t: Tenant, task: Task)
    requires Inv(cfg, w)
    ensures var w' := Enqueue(cfg, clock, w, t, task);
            && |w'.shards| == |w.shards|
            && RingOf(w', t, task.priority) == RingOf(w, t, task.priority) + (if ListsAgain(cfg, clock, w, t, task) then [t] else [])
            && (forall i, p: Priority :: 0 <= i < |w.shards| && (i != ShardIndex(|w.shards|, t) || p != task.priority) ==>
                  w'.shards[i].rings.At(p) == w.shards[i].rings.At(p))
  {
    hide BooksOk, TenantInvAt, Homed, RingsKnown, Admit, HomeState, Accept, RecordReject, Unflagged, TenantOk, OnlyShrinks;
    var d := Draft(HomeState(w, t), w.books, w.samples);
    var a := AdmissionOf(cfg, clock, w, t, task);
    HomeDraftOk(cfg, w, t);
    AdmitKeeps(cfg, clock, d, t, task);
    if a.refusal.None? {
      FlagAfter(cfg, clock, d, t, task);
      assert a.draft.state.queues.At(task.priority) != [] ==> a.draft.state.active.At(task.priority);
    }
  }

  /** In any world that keeps the invariant: an enqueue puts its tenant into its ring a second time if and
      only if it is admitted, the tenant is in that ring, and the lane's flag is clear or one of the enqueue's
      purges runs when every entry the lane then has is dead. */
  lemma SecondListingExactly(cfg: Config, clock: Clock, w: World, t: Tenant, task: Task)
    requires Inv(cfg, w) && NoDuplicates(RingOf(w, t, task.priority))
    ensures Enqueue(cfg, clock, w, t, task).shards != []
    ensures !NoDuplicates(RingOf(Enqueue(cfg, clock, w, t, task), t, task.priority)) <==>
            t in RingOf(w, t, task.priority) && ListsAgain(cfg, clock, w, t, task)
  {
    hide Inv, Enqueue, ListsAgain;
    InvShards(cfg, w);
    EnqueueListsExactly(cfg, clock, w, t, task);
    OneMoreListing(RingOf(w, t, task.priority), t);
  }

  lemma OneMoreListing(ring: seq<Tenant>, t: Tenant)
    requires NoDuplicates(ring)
    ensures NoDuplicates(ring + [t]) <==> t !in ring
    ensures ring + [] == ring
  {
    var ring' := ring + [t];
    if t in ring {
      var i :| 0 <= i < |ring| && ring[i] == t;
      assert ring'[i] == ring'[|ring|];
    }
  }

  // ---------------------------------------------------------------- over a run

  ghost predicate ListedOnce(w: World) {
    forall i, p: Priority :: 0 <= i < |w.shards| ==> NoDuplicates(w.shards[i].rings.At(p))
  }

  predicate AddsSecond(cfg: Config, clock: Clock, w: World, m: Move)
    requires w.shards != []
  {
    m.EnqueueMove? && m.tenant in RingOf(w, m.tenant, m.task.priority) && ListsAgain(cfg, clock, w, m.tenant, m.task)
  }

  lemma VisitKeepsOnce(clock: Clock, w: World, i: nat, p: Priority)
    requires CanVisit(w, i, p) && ListedOnce(w)
    ensures ListedOnce(VisitRing(clock, w, i, p).world)
  {
    hide VisitRing, NoDuplicates;
    RingAfter(clock, w, i, p);
    var ring, w' := w.shards[i].rings.At(p), VisitRing(clock, w, i, p).world;
    Rotated(ring);
    forall i2, p2: Priority | 0 <= i2 < |w'.shards| ensures NoDuplicates(w'.shards[i2].rings.At(p2)) {
      assert NoDuplicates(w.shards[i2].rings.At(p2));
    }
  }

  lemma Rotated(ring: seq<Tenant>)
    requires NoDuplicates(ring) && ring != []
    ensures NoDuplicates(ring[1..]) && NoDuplicates(ring[1..] + [ring[0]])
  {
  }

  lemma EnqueueOnceExactly(cfg: Config, clock: Clock, w: World, t: Tenant, task: Task)
    requires Inv(cfg, w) && ListedOnce(w)
    ensures ListedOnce(Enqueue(cfg, clock, w, t, task)) <==> !(t in RingOf(w, t, task.priority) && ListsAgain(cfg, clock, w, t, task))
  {
    hide BooksOk, TenantInvAt, Homed, RingsKnown, Enqueue, ListsAgain, NoDuplicates;
    var w', i0 := Enqueue(cfg, clock, w, t, task), ShardIndex(|w.shards|, t);
    assert NoDuplicates(w.shards[i0].rings.At(task.priority));
    EnqueueListsExactly(cfg, clock, w, t, task);
    SecondListingExactly(cfg, clock, w, t, task);
    assert RingOf(w', t, task.priority) == w'.shards[i0].rings.At(task.priority);
    forall i, p: Priority | 0 <= i < |w'.shards| && (i != i0 || p != task.priority) ensures NoDuplicates(w'.shards[i].rings.At(p)) {
      assert NoDuplicates(w.shards[i].rings.At(p));
    }
  }

  lemma StepOnceExactly(cfg: Config, clock: Clock, w: World, m: Move)
    requires Inv(cfg, w) && ListedOnce(w)
    ensures ListedOnce(Step(cfg, clock, w, m)) <==> !AddsSecond(cfg, clock, w, m)
  {
    hide BooksOk, TenantInvAt, Homed, RingsKnown, ListsAgain, NoDuplicates, Enqueue, VisitRing;
    match m
    case EnqueueMove(t, task) => EnqueueOnceExactly(cfg, clock, w, t, task);
    case VisitMove(i, p) =>
      if CanVisit(w, i, p) {
        VisitKeepsOnce(clock, w, i, p);
      }
    case _ =>
      MoveKeepsRings(cfg, clock, w, m);
      OnlyRings(w, Step(cfg, clock, w, m));
  }

  lemma OnlyRings(w: World, w': World)
    requires ListedOnce(w) && |w'.shards| == |w.shards| && forall i :: 0 <= i < |w.shards| ==> w'.shards[i].rings == w.shards[i].rings
    ensures ListedOnce(w')
  {
    hide NoDuplicates;
    forall i, p: Priority | 0 <= i < |w'.shards| ensures NoDuplicates(w'.shards[i].rings.At(p)) {
      assert NoDuplicates(w.shards[i].rings.At(p));
    }
  }

  /** Along the run no enqueue adds a second listing. */
  ghost predicate NeverAdds(cfg: Config, clock: Clock, w: World, moves: seq<Move>)
    requires w.shards != []
    decreases |moves|
  {
    moves == [] || (!AddsSecond(cfg, clock, w, moves[0]) && NeverAdds(cfg, clock, Step(cfg, clock, w, moves[0]), moves[1..]))
  }

  ghost predicate AlwaysOnce(cfg: Config, clock: Clock, w: World, moves: seq<Move>)
    requires w.shards != []
    decreases |moves|
  {
    ListedOnce(w) && (moves != [] ==> AlwaysOnce(cfg, clock, Step(cfg, clock, w, moves[0]), moves[1..]))
  }

  /** Over a run that starts without duplicates, every tenant stays listed at most once per ring throughout
      if and only if no enqueue of the run finds its tenant listed and its lane so. */
  lemma {:induction false} ListedOnceExactly(cfg: Config, clock: Clock, w: World, moves: seq<Move>)
    requires Inv(cfg, w) && ListedOnce(w)
    ensures AlwaysOnce(cfg, clock, w, moves) <==> NeverAdds(cfg, clock, w, moves)
    decreases |moves|
  {
    hide BooksOk, TenantInvAt, Homed, RingsKnown, ListedOnce, AddsSecond, Step;
    if moves != [] {
      StepKeeps(cfg, clock, w, moves[0]);
      StepOnceExactly(cfg, clock, w, moves[0]);
      var w1 := Step(cfg, clock, w, moves[0]);
      if ListedOnce(w1) {
        ListedOnceExactly(cfg, clock, w1, moves[1..]);
      }
    }
  }

  /** From a new scheduler on. */
  lemma ListedOnceFromFresh(cfg: Config, clock: Clock, shards: nat, quanta: Quanta, moves: seq<Move>)
    ensures AlwaysOnce(cfg, clock, Fresh(shards, quanta), moves) <==> NeverAdds(cfg, clock, Fresh(shards, quanta), moves)
  {
    hide Inv, AlwaysOnce, NeverAdds;
    FreshInv(cfg, shards, quanta);
    ListedOnceExactly(cfg, clock, Fresh(shards, quanta), moves);
  }
}
