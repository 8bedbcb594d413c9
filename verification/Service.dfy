/** The public operations on values: shard passes, `try_dequeue`, shutdown, and runs of operations. */
module Service {
  import opened Types
  import opened World
  import opened Invariant
  import opened EnqueueProofs
  import opened Preservation

  /** Up to `n` visits of ring `p` in shard `i`, stopping at the first task served. */
  function Pass(clock: Clock, w: World, i: nat, p: Priority, n: nat): (v: Visited)
    requires i < |w.shards|
    ensures |v.world.shards| == |w.shards|
    decreases n
  {
    if n == 0 || w.shards[i].rings.At(p) == [] then Visited(w, None)
    else
      var v := VisitRing(clock, w, i, p);
      if v.served.Some? then v else Pass(clock, v.world, i, p, n - 1)
  }

  function FullPass(clock: Clock, w: World, i: nat, p: Priority): (v: Visited)
    requires i < |w.shards|
    ensures |v.world.shards| == |w.shards|
  {
    Pass(clock, w, i, p, |w.shards[i].rings.At(p)|)
  }

  /** `try_dequeue_from_shard`: the rings in priority order, each entry present at its start visited once. */
  function DequeueShard(clock: Clock, w: World, i: nat): (v: Visited)
    requires i < |w.shards|
    ensures |v.world.shards| == |w.shards|
  {
    var h := FullPass(clock, w, i, High);
    if h.served.Some? then h
    else
      var n := FullPass(clock, h.world, i, Normal);
      if n.served.Some? then n else FullPass(clock, n.world, i, Low)
  }

  datatype Shutdown = Open | Drain | Immediate

  datatype State = State(world: World, activeShards: seq<nat>, shardActive: seq<bool>, shutdown: Shutdown) {
    ghost predicate Shaped() {
      && world.shards != []
      && |shardActive| == |world.shards|
      && forall i :: i in activeShards ==> i < |world.shards|
    }
  }

  datatype Dequeued = Delivered(tenant: Tenant, entry: Entry) | Empty | Closed

  /** The loop of `try_dequeue`: pop a shard, serve from it, put it back if it still has work. */
  function DequeueLoop(clock: Clock, s: State, remaining: nat): (r: (State, Option<(Tenant, Entry)>))
    requires s.Shaped()
    ensures r.0.Shaped() && |r.0.world.shards| == |s.world.shards| && r.0.shutdown == s.shutdown
    decreases remaining
  {
    if remaining == 0 || s.activeShards == [] then (s, None)
    else
      var i := s.activeShards[0];
      assert i in s.activeShards;
      var v := DequeueShard(clock, s.world, i);
      var s' := Settled(s, i, v.world);
      if v.served.Some? then (s', v.served) else DequeueLoop(clock, s', remaining - 1)
  }

  /** The popped shard `i` goes back to the list, or loses its flag. */
  function Settled(s: State, i: nat, w: World): (s': State)
    requires s.Shaped() && s.activeShards != [] && s.activeShards[0] == i && |w.shards| == |s.world.shards| && i < |w.shards|
    ensures s'.Shaped()
  {
    var busy := !RingsEmpty(w.shards[i]);
    assert forall j :: j in s.activeShards[1..] ==> j in s.activeShards;
    State(w, s.activeShards[1..] + (if busy then [i] else []),
          if busy then s.shardActive else s.shardActive[i := false], s.shutdown)
  }

  function ShouldReturnClosed(s: State): bool {
    s.shutdown == Immediate || (s.shutdown == Drain && s.world.books.stats.queueLen == 0)
  }

  function TryDequeue(clock: Clock, s: State): (r: (State, Dequeued))
    requires s.Shaped()
    ensures r.0.Shaped() && r.0.shutdown == s.shutdown && |r.0.world.shards| == |s.world.shards|
  {
    if s.shutdown == Immediate then (s, Closed)
    else
      var (s', served) := DequeueLoop(clock, s, |s.activeShards|);
      match served
      case Some(pair) => (s', Delivered(pair.0, pair.1))
      case None => (s', if ShouldReturnClosed(s') then Closed else Empty)
  }

  datatype Submitted = Enqueued(id: Id) | Rejected(reason: Reason) | NotOpen

  /** One enqueue attempt; the shard is activated when all its rings were empty before. */
  function Submit(cfg: Config, clock: Clock, s: State, t: Tenant, task: Task): (r: (State, Submitted))
    requires s.Shaped()
    ensures r.0.Shaped()
  {
    if s.shutdown != Open then (s, NotOpen)
    else
      var i := ShardIndex(|s.world.shards|, t);
      var wasEmpty := RingsEmpty(s.world.shards[i]);
      var a := AdmissionOf(cfg, clock, s.world, t, task);
      var s' := s.(world := Enqueue(cfg, clock, s.world, t, task));
      match a.refusal
      case Some(reason) => (s', Rejected(reason))
      case None => (if wasEmpty then Activated(s', i) else s', Enqueued(a.draft.books.nextId + 1))
  }

  function Activated(s: State, i: nat): State
    requires s.Shaped() && i < |s.world.shards|
  {
    if s.shardActive[i] then s
    else s.(shardActive := s.shardActive[i := true], activeShards := s.activeShards + [i])
  }

  /** Shutdown only ever tightens: Open, then Drain, then Immediate. */
  function Closing(current: Shutdown, target: Shutdown): Shutdown {
    if current == Immediate || target == Immediate then Immediate
    else if current == Open && target == Drain then Drain
    else current
  }

  datatype Op =
    | SubmitOp(tenant: Tenant, task: Task)
    | DequeueOp
    | CloseOp(target: Shutdown)
    | WorldOp(move: Move)

  /** Operations that are not shard bookkeeping: cancels, quantum changes, timeout give-ups. */
  predicate OpOk(op: Op) {
    op.WorldOp? ==> !op.move.EnqueueMove? && !op.move.VisitMove?
  }

  ghost predicate OpsOk(ops: seq<Op>) {
    forall k :: 0 <= k < |ops| ==> OpOk(ops[k])
  }

  function Perform(cfg: Config, clock: Clock, s: State, op: Op): (s': State)
    requires s.Shaped()
    ensures s'.Shaped()
  {
    match op
    case SubmitOp(t, task) => Submit(cfg, clock, s, t, task).0
    case DequeueOp => TryDequeue(clock, s).0
    case CloseOp(target) => s.(shutdown := Closing(s.shutdown, target))
    case WorldOp(m) => s.(world := Step(cfg, clock, s.world, m))
  }

  function PerformAll(cfg: Config, clock: Clock, s: State, ops: seq<Op>): (s': State)
    requires s.Shaped()
    ensures s'.Shaped()
    decreases |ops|
  {
    if ops == [] then s else PerformAll(cfg, clock, Perform(cfg, clock, s, ops[0]), ops[1..])
  }

  function FreshState(shards: nat, quanta: Quanta): (s: State)
    ensures s.Shaped()
  {
    var w := Fresh(shards, quanta);
    State(w, [], seq(|w.shards|, _ => false), Open)
  }

  // ---------------------------------------------------------------- shutdown

  /** How tight a shutdown state is. */
  function Tightness(d: Shutdown): nat {
    match d case Open => 0 case Drain => 1 case Immediate => 2
  }

  /** Closing picks the tighter of what is and what is asked for. */
  lemma ClosingIsTighter(current: Shutdown, target: Shutdown)
    ensures Tightness(Closing(current, target)) == Max(Tightness(current), Tightness(target))
  {
  }

  /** No operation ever loosens shutdown, and a close is as tight as it asked for ever after. */
  lemma {:induction false} ShutdownOnlyTightens(cfg: Config, clock: Clock, s: State, ops: seq<Op>)
    requires s.Shaped()
    ensures Tightness(PerformAll(cfg, clock, s, ops).shutdown) >= Tightness(s.shutdown)
    ensures forall k :: 0 <= k < |ops| && ops[k].CloseOp? ==>
              Tightness(PerformAll(cfg, clock, s, ops).shutdown) >= Tightness(ops[k].target)
    decreases |ops|
  {
    hide TryDequeue, Enqueue, AdmissionOf, Step;
    if ops != [] {
      var s1 := Perform(cfg, clock, s, ops[0]);
      if ops[0].CloseOp? {
        ClosingIsTighter(s.shutdown, ops[0].target);
      }
      ShutdownOnlyTightens(cfg, clock, s1, ops[1..]);
      forall k | 0 <= k < |ops| && ops[k].CloseOp?
        ensures Tightness(PerformAll(cfg, clock, s, ops).shutdown) >= Tightness(ops[k].target)
      {
        if k > 0 {
          assert ops[k] == ops[1..][k - 1];
        }
      }
    }
  }

  /** After any close nothing is accepted any more, and after an immediate one nothing is handed out. */
  lemma ClosedForGood(cfg: Config, clock: Clock, s: State, ops: seq<Op>, k: nat, t: Tenant, task: Task)
    requires s.Shaped() && k < |ops| && ops[k].CloseOp? && ops[k].target != Open
    ensures Submit(cfg, clock, PerformAll(cfg, clock, s, ops), t, task) == (PerformAll(cfg, clock, s, ops), NotOpen)
    ensures ops[k].target == Immediate ==>
              TryDequeue(clock, PerformAll(cfg, clock, s, ops)) == (PerformAll(cfg, clock, s, ops), Closed)
  {
    hide PerformAll, DequeueLoop, AdmissionOf;
    ShutdownOnlyTightens(cfg, clock, s, ops);
  }

  // ---------------------------------------------------------------- operations are runs of moves

  lemma {:induction false} RunConcat(cfg: Config, clock: Clock, w: World, a: seq<Move>, b: seq<Move>)
    requires w.shards != []
    ensures Run(cfg, clock, w, a + b) == Run(cfg, clock, Run(cfg, clock, w, a), b)
    decreases |a|
  {
    hide Step;
    if a == [] {
      assert a + b == b;
    } else {
      assert (a + b)[0] == a[0] && (a + b)[1..] == a[1..] + b;
      RunConcat(cfg, clock, Step(cfg, clock, w, a[0]), a[1..], b);
    }
  }

  lemma VisitIsMove(cfg: Config, clock: Clock, w: World, i: nat, p: Priority)
    requires w.shards != [] && CanVisit(w, i, p)
    ensures Run(cfg, clock, w, [VisitMove(i, p)]) == VisitRing(clock, w, i, p).world
  {
    hide VisitRing, Step;
    VisitIsStep(cfg, clock, w, i, p);
    assert [VisitMove(i, p)][1..] == [];
  }

  lemma {:induction false} PassIsRun(cfg: Config, clock: Clock, w: World, i: nat, p: Priority, n: nat) returns (moves: seq<Move>)
    requires i < |w.shards|
    ensures Pass(clock, w, i, p, n).world == Run(cfg, clock, w, moves)
    ensures forall k :: 0 <= k < |moves| ==> moves[k].VisitMove?
    decreases n
  {
    hide VisitRing, Step;
    moves := [];
    if n > 0 && CanVisit(w, i, p) {
      var v := VisitRing(clock, w, i, p);
      VisitIsMove(cfg, clock, w, i, p);
      if v.served.Some? {
        moves := [VisitMove(i, p)];
      } else {
        var rest := PassIsRun(cfg, clock, v.world, i, p, n - 1);
        moves := [VisitMove(i, p)] + rest;
        RunConcat(cfg, clock, w, [VisitMove(i, p)], rest);
      }
    }
  }

  lemma DequeueShardIsRun(cfg: Config, clock: Clock, w: World, i: nat) returns (moves: seq<Move>)
    requires i < |w.shards|
    ensures DequeueShard(clock, w, i).world == Run(cfg, clock, w, moves)
    ensures forall k :: 0 <= k < |moves| ==> moves[k].VisitMove?
  {
    hide Pass, Run;
    moves := PassIsRun(cfg, clock, w, i, High, |w.shards[i].rings.At(High)|);
    var h := FullPass(clock, w, i, High);
    if h.served.None? {
      var more := PassIsRun(cfg, clock, h.world, i, Normal, |h.world.shards[i].rings.At(Normal)|);
      RunConcat(cfg, clock, w, moves, more);
      moves := moves + more;
      var n := FullPass(clock, h.world, i, Normal);
      if n.served.None? {
        more := PassIsRun(cfg, clock, n.world, i, Low, |n.world.shards[i].rings.At(Low)|);
        RunConcat(cfg, clock, w, moves, more);
        moves := moves + more;
      }
    }
  }

  lemma {:induction false} DequeueLoopIsRun(cfg: Config, clock: Clock, s: State, remaining: nat) returns (moves: seq<Move>)
    requires s.Shaped()
    ensures DequeueLoop(clock, s, remaining).0.world == Run(cfg, clock, s.world, moves)
    ensures forall k :: 0 <= k < |moves| ==> moves[k].VisitMove?
    decreases remaining
  {
    hide DequeueShard, Step;
    moves := [];
    if remaining > 0 && s.activeShards != [] {
      var i := s.activeShards[0];
      assert i in s.activeShards;
      moves := DequeueShardIsRun(cfg, clock, s.world, i);
      var v := DequeueShard(clock, s.world, i);
      if v.served.None? {
        var more := DequeueLoopIsRun(cfg, clock, Settled(s, i, v.world), remaining - 1);
        RunConcat(cfg, clock, s.world, moves, more);
        moves := moves + more;
      }
    }
  }

  /** Every operation moves the world by a run of lock-section moves, so whatever holds of all runs of
      moves holds of all runs of operations. */
  lemma PerformIsRun(cfg: Config, clock: Clock, s: State, op: Op) returns (moves: seq<Move>)
    requires s.Shaped()
    ensures Perform(cfg, clock, s, op).world == Run(cfg, clock, s.world, moves)
  {
    hide Step, Enqueue, DequeueLoop;
    moves := [];
    match op
    case SubmitOp(t, task) =>
      if s.shutdown == Open {
        moves := [EnqueueMove(t, task)];
        SubmitIsMove(cfg, clock, s, t, task);
        assert moves[1..] == [];
      }
    case DequeueOp =>
      if s.shutdown != Immediate {
        moves := DequeueLoopIsRun(cfg, clock, s, |s.activeShards|);
      }
    case CloseOp(target) =>
    case WorldOp(m) =>
      moves := [m];
      assert moves[1..] == [];
  }

  lemma SubmitIsMove(cfg: Config, clock: Clock, s: State, t: Tenant, task: Task)
    requires s.Shaped() && s.shutdown == Open
    ensures Submit(cfg, clock, s, t, task).0.world == Step(cfg, clock, s.world, EnqueueMove(t, task))
  {
    hide Enqueue, AdmissionOf;
  }

  lemma {:induction false} PerformAllIsRun(cfg: Config, clock: Clock, s: State, ops: seq<Op>) returns (moves: seq<Move>)
    requires s.Shaped()
    ensures PerformAll(cfg, clock, s, ops).world == Run(cfg, clock, s.world, moves)
    decreases |ops|
  {
    hide Perform, Step;
    moves := [];
    if ops != [] {
      moves := PerformIsRun(cfg, clock, s, ops[0]);
      var more := PerformAllIsRun(cfg, clock, Perform(cfg, clock, s, ops[0]), ops[1..]);
      RunConcat(cfg, clock, s.world, moves, more);
      moves := moves + more;
    }
  }

  /** Every world the public operations reach is reachable by moves. */
  lemma OperationsReach(cfg: Config, clock: Clock, shards: nat, quanta: Quanta, ops: seq<Op>)
    ensures Reachable(cfg, clock, PerformAll(cfg, clock, FreshState(shards, quanta), ops).world)
  {
    hide PerformAll, Run;
    var moves := PerformAllIsRun(cfg, clock, FreshState(shards, quanta), ops);
  }

  // ---------------------------------------------------------------- the active-shard list

  /** A shard is listed, once, exactly while it is flagged, exactly while one of its rings is non-empty. */
  ghost predicate ListOk(s: State)
    requires s.Shaped()
  {
    && (forall i, j :: 0 <= i < j < |s.activeShards| ==> s.activeShards[i] != s.activeShards[j])
    && (forall i :: 0 <= i < |s.shardActive| ==> (s.shardActive[i] <==> i in s.activeShards))
    && (forall i :: 0 <= i < |s.shardActive| ==> (s.shardActive[i] <==> !RingsEmpty(s.world.shards[i])))
  }

  ghost predicate StateInv(cfg: Config, s: State) {
    s.Shaped() && Inv(cfg, s.world) && ListOk(s)
  }

  lemma VisitsStayInShard(clock: Clock, w: World, i: nat, p: Priority, n: nat)
    requires i < |w.shards|
    ensures forall j :: 0 <= j < |w.shards| && j != i ==> Pass(clock, w, i, p, n).world.shards[j] == w.shards[j]
    decreases n
  {
    hide TakeTurn;
    if n > 0 && CanVisit(w, i, p) {
      var v := VisitRing(clock, w, i, p);
      if v.served.None? {
        VisitsStayInShard(clock, v.world, i, p, n - 1);
      }
    }
  }

  lemma DequeueStaysInShard(clock: Clock, w: World, i: nat)
    requires i < |w.shards|
    ensures forall j :: 0 <= j < |w.shards| && j != i ==> DequeueShard(clock, w, i).world.shards[j] == w.shards[j]
  {
    hide Pass;
    var h := FullPass(clock, w, i, High);
    VisitsStayInShard(clock, w, i, High, |w.shards[i].rings.At(High)|);
    VisitsStayInShard(clock, h.world, i, Normal, |h.world.shards[i].rings.At(Normal)|);
    var n := FullPass(clock, h.world, i, Normal);
    VisitsStayInShard(clock, n.world, i, Low, |n.world.shards[i].rings.At(Low)|);
  }

  lemma SettledKeepsList(s: State, i: nat, w: World)
    requires s.Shaped() && ListOk(s) && s.activeShards != [] && s.activeShards[0] == i && i < |w.shards| == |s.world.shards|
    requires forall j :: 0 <= j < |w.shards| && j != i ==> w.shards[j] == s.world.shards[j]
    ensures ListOk(Settled(s, i, w))
  {
    hide RingsEmpty;
    var s' := Settled(s, i, w);
    var rest := s.activeShards[1..];
    assert s.activeShards == [i] + rest;
    assert i !in rest;
    assert i in s.activeShards;
  }

  lemma SettledShape(s: State, i: nat, w: World)
    requires s.Shaped() && s.activeShards != [] && s.activeShards[0] == i && i < |w.shards| == |s.world.shards|
    ensures var s' := Settled(s, i, w);
            && s'.world == w && |s'.activeShards| >= |s.activeShards| - 1
            && forall k :: 0 < k < |s.activeShards| ==> s'.activeShards[k - 1] == s.activeShards[k]
  {
  }

  lemma {:induction false} LoopKeepsList(clock: Clock, s: State, remaining: nat)
    requires s.Shaped() && ListOk(s)
    ensures ListOk(DequeueLoop(clock, s, remaining).0)
    decreases remaining
  {
    hide DequeueShard, ListOk, Settled;
    if remaining > 0 && s.activeShards != [] {
      var i := s.activeShards[0];
      assert i in s.activeShards;
      var v := DequeueShard(clock, s.world, i);
      DequeueStaysInShard(clock, s.world, i);
      SettledKeepsList(s, i, v.world);
      if v.served.None? {
        LoopKeepsList(clock, Settled(s, i, v.world), remaining - 1);
      }
    }
  }

  /** An accepted enqueue into a shard whose rings were all empty puts its tenant into a ring; any other
      enqueue leaves non-empty rings non-empty and other shards alone. */
  lemma EnqueueRings(cfg: Config, clock: Clock, w: World, t: Tenant, task: Task)
    requires Inv(cfg, w)
    ensures var i := ShardIndex(|w.shards|, t);
            var w' := Enqueue(cfg, clock, w, t, task);
            && |w'.shards| == |w.shards|
            && (forall j :: 0 <= j < |w.shards| && j != i ==> w'.shards[j] == w.shards[j])
            && (AdmissionOf(cfg, clock, w, t, task).refusal.Some? ==> w'.shards[i].rings == w.shards[i].rings)
            && (AdmissionOf(cfg, clock, w, t, task).refusal.None? ==> !RingsEmpty(w'.shards[i]))
            && (!RingsEmpty(w.shards[i]) ==> !RingsEmpty(w'.shards[i]))
  {
    hide Admit, BooksOk, TenantInvAt, Homed, RingsKnown, HomeState, RecordReject, Accept;
    var i := ShardIndex(|w.shards|, t);
    var a := AdmissionOf(cfg, clock, w, t, task);
    if a.refusal.None? {
      var d := Draft(HomeState(w, t), w.books, w.samples);
      HomeDraftOk(cfg, w, t);
      AdmitKeeps(cfg, clock, d, t, task);
      JoinFillsRing(cfg, d, a.draft, w.shards[i].rings.At(task.priority), t, Entry(a.draft.books.nextId + 1, task));
      InvAtLane(cfg, w, t, task.priority);
      var ring := Join(a.draft.state, w.shards[i].rings.At(task.priority), t, Entry(a.draft.books.nextId + 1, task)).1;
      assert ring != [];
      assert w.shards[i].rings.With(task.priority, ring).At(task.priority) != [];
    }
  }

  lemma JoinFillsRing(cfg: Config, d: Draft, d': Draft, ring: seq<Tenant>, t: Tenant, e: Entry)
    requires DraftOk(cfg, d', t, 1) && OnlyShrinks(d, d', t)
    ensures var ring' := Join(d'.state, ring, t, e).1;
            && (ring' == ring || ring' == ring + [t])
            && (d.state.active.At(e.task.priority) || ring' != [])
  {
    hide BooksOk, TenantOk, SameLane;
    assert d'.state.active.At(e.task.priority) ==> d.state.active.At(e.task.priority);
  }

  lemma SubmitKeeps(cfg: Config, clock: Clock, s: State, t: Tenant, task: Task)
    requires StateInv(cfg, s)
    ensures StateInv(cfg, Submit(cfg, clock, s, t, task).0)
  {
    hide BooksOk, TenantInvAt, Homed, RingsKnown, Enqueue, AdmissionOf, RingsEmpty;
    if s.shutdown == Open {
      EnqueueKeeps(cfg, clock, s.world, t, task);
      EnqueueRings(cfg, clock, s.world, t, task);
      var i := ShardIndex(|s.world.shards|, t);
      SameRings(s.world.shards[i], Enqueue(cfg, clock, s.world, t, task).shards[i]);
    }
  }

  lemma SameRings(a: Shard, b: Shard)
    ensures a.rings == b.rings ==> RingsEmpty(a) == RingsEmpty(b)
  {
  }

  lemma DequeueKeeps(cfg: Config, clock: Clock, s: State)
    requires StateInv(cfg, s)
    ensures StateInv(cfg, TryDequeue(clock, s).0)
  {
    hide Inv, ListOk, DequeueLoop, Run;
    if s.shutdown != Immediate {
      var moves := DequeueLoopIsRun(cfg, clock, s, |s.activeShards|);
      RunKeeps(cfg, clock, s.world, moves);
      LoopKeepsList(clock, s, |s.activeShards|);
    }
  }

  lemma MoveKeepsRings(cfg: Config, clock: Clock, w: World, m: Move)
    requires w.shards != [] && !m.EnqueueMove? && !m.VisitMove?
    ensures forall i :: 0 <= i < |w.shards| ==> Step(cfg, clock, w, m).shards[i].rings == w.shards[i].rings
  {
    hide QuantumFor, AsI64, RecordReject;
  }

  lemma PerformKeeps(cfg: Config, clock: Clock, s: State, op: Op)
    requires StateInv(cfg, s) && OpOk(op)
    ensures StateInv(cfg, Perform(cfg, clock, s, op))
  {
    hide Inv, TryDequeue, Submit, Step;
    match op
    case SubmitOp(t, task) => SubmitKeeps(cfg, clock, s, t, task);
    case DequeueOp => DequeueKeeps(cfg, clock, s);
    case CloseOp(target) =>
    case WorldOp(m) =>
      StepKeeps(cfg, clock, s.world, m);
      MoveKeepsRings(cfg, clock, s.world, m);
  }

  /** In every state the operations reach, the active-shard list is exact. */
  lemma {:induction false} PerformAllKeeps(cfg: Config, clock: Clock, s: State, ops: seq<Op>)
    requires StateInv(cfg, s) && forall i :: 0 <= i < |ops| ==> OpOk(ops[i])
    ensures StateInv(cfg, PerformAll(cfg, clock, s, ops))
    decreases |ops|
  {
    hide Inv, ListOk, Perform, OpOk;
    if ops != [] {
      PerformKeeps(cfg, clock, s, ops[0]);
      PerformAllKeeps(cfg, clock, Perform(cfg, clock, s, ops[0]), ops[1..]);
    }
  }

  lemma FreshStateOk(cfg: Config, shards: nat, quanta: Quanta)
    ensures StateInv(cfg, FreshState(shards, quanta))
  {
    hide Inv;
    FreshInv(cfg, shards, quanta);
  }
}
