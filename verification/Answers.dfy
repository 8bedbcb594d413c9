/** What the answers of the public operations mean, and which counters tell of them. */
module Answers {
  import opened Types
  import opened World
  import opened Invariant
  import opened EnqueueProofs
  import opened Preservation
  import opened Delivery
  import opened Service

  // ---------------------------------------------------------------- enqueue

  /** An accepted task has a fresh id, is pending under it and stands last in its lane; a refused one leaves no
      trace among the ids. */
  lemma SubmitAnswers(cfg: Config, clock: Clock, s: State, t: Tenant, task: Task)
    requires StateInv(cfg, s) && s.shutdown == Open
    ensures var (s', r) := Submit(cfg, clock, s, t, task);
            var h, h' := s.world.books.history, s'.world.books.history;
            && |s'.world.shards| == |s.world.shards|
            && (forall reason :: r == Rejected(reason) <==> AdmissionOf(cfg, clock, s.world, t, task).refusal == Some(reason))
            && (!r.Enqueued? ==> r.Rejected? && h'.accepted == h.accepted)
            && (r.Enqueued? ==>
                  var q := HomeState(s'.world, t).queues.At(task.priority);
                  && r.id !in h.accepted && h'.accepted == h.accepted[r.id := Accepted(t, task)]
                  && r.id in s'.world.books.pending
                  && q != [] && q[|q| - 1] == Entry(r.id, task))
  {
    hide Inv, ListOk, Admit, DraftOk, HomeState, RecordReject;
    var w := s.world;
    var d, a := Draft(HomeState(w, t), w.books, w.samples), AdmissionOf(cfg, clock, w, t, task);
    HomeDraftOk(cfg, w, t);
    AdmitKeeps(cfg, clock, d, t, task);
    AcceptedSame(d, a.draft, t);
    FreshId(cfg, w);
    match a.refusal
    case Some(reason) => RejectIsStatsOnly(a.draft.books, reason);
    case None => HomeOf(Submit(cfg, clock, s, t, task).0.world, t);
  }

  lemma AcceptedSame(d: Draft, d': Draft, t: Tenant)
    requires OnlyShrinks(d, d', t)
    ensures d'.books.history.accepted == d.books.history.accepted && d'.books.nextId == d.books.nextId
  {
  }

  lemma FreshId(cfg: Config, w: World)
    requires Inv(cfg, w)
    ensures w.books.nextId + 1 !in w.books.history.accepted
  {
    hide TenantInvAt, Homed, RingsKnown, CountersOk, Parts;
  }

  // ---------------------------------------------------------------- counted refusals

  /** How many submissions were refused for `reason` under a policy that does not wait. */
  ghost function Refusals(cfg: Config, clock: Clock, s: State, ops: seq<Op>, reason: Reason): nat
    requires s.Shaped()
    decreases |ops|
  {
    if ops == [] then 0
    else
      (if ops[0].SubmitOp? && !PolicyFor(cfg, ops[0].tenant).Timeout?
          && Submit(cfg, clock, s, ops[0].tenant, ops[0].task).1 == Rejected(reason) then 1 else 0)
      + Refusals(cfg, clock, Perform(cfg, clock, s, ops[0]), ops[1..], reason)
  }

  /** How many waiting calls gave up. */
  ghost function GiveUps(ops: seq<Op>): nat
    decreases |ops|
  {
    if ops == [] then 0 else (if ops[0] == WorldOp(GiveUpMove) then 1 else 0) + GiveUps(ops[1..])
  }

  ghost predicate SameRefusals(a: Stats, b: Stats) {
    b.rejectedGlobal == a.rejectedGlobal && b.rejectedTenant == a.rejectedTenant && b.timeoutRejected == a.timeoutRejected
  }

  lemma TurnRefuses(clock: Clock, ts: TenantState, b: Books, samples: nat, t: Tenant, p: Priority)
    ensures var b' := TakeTurn(clock, ts, b, samples, t, p).books;
            SameRefusals(b.stats, b'.stats) && b'.history.withdrawn == b.history.withdrawn
  {
    hide ChargeFor, DeadPrefix, Ids, WrapI64, QueueTime;
  }

  lemma VisitRefuses(clock: Clock, w: World, i: nat, p: Priority)
    requires CanVisit(w, i, p)
    ensures var b' := VisitRing(clock, w, i, p).world.books;
            SameRefusals(w.books.stats, b'.stats) && b'.history.withdrawn == w.books.history.withdrawn
  {
    hide TakeTurn;
    var s := w.shards[i];
    var t := s.rings.At(p)[0];
    if t in s.tenants {
      TurnRefuses(clock, s.tenants[t], w.books, w.samples, t, p);
    }
  }

  lemma {:induction false} VisitsRefuse(cfg: Config, clock: Clock, w: World, moves: seq<Move>)
    requires w.shards != [] && forall k :: 0 <= k < |moves| ==> moves[k].VisitMove?
    ensures SameRefusals(w.books.stats, Run(cfg, clock, w, moves).books.stats)
    decreases |moves|
  {
    hide VisitRing;
    if moves != [] {
      var m := moves[0];
      if CanVisit(w, m.shard, m.priority) {
        VisitRefuses(clock, w, m.shard, m.priority);
      }
      VisitsRefuse(cfg, clock, Step(cfg, clock, w, m), moves[1..]);
    }
  }

  /** One call under a policy that does not wait raises the counter of its reason if it is refused, and no other. */
  lemma SubmitCounts(cfg: Config, clock: Clock, s: State, t: Tenant, task: Task)
    requires s.Shaped()
    ensures var (s', r) := Submit(cfg, clock, s, t, task);
            var a, b := s.world.books.stats, s'.world.books.stats;
            var counted := r.Rejected? && !PolicyFor(cfg, t).Timeout?;
            && b.rejectedGlobal == a.rejectedGlobal + (if counted && r.reason == GlobalFull then 1 else 0)
            && b.rejectedTenant == a.rejectedTenant + (if counted && r.reason == TenantFull then 1 else 0)
            && b.timeoutRejected == a.timeoutRejected
  {
    hide AdmitOrReject, AdmitOrEvict, HomeState, Join;
    var d := Draft(HomeState(s.world, t), s.world.books, s.world.samples);
    RejectOnlyExpires(cfg, clock, d);
    EvictKeepsServices(cfg, clock, d, Oldest, task.priority);
    EvictKeepsServices(cfg, clock, d, Newest, task.priority);
    NeverTimedOut(cfg, clock, d, Oldest, task.priority);
    NeverTimedOut(cfg, clock, d, Newest, task.priority);
  }

  lemma NeverTimedOut(cfg: Config, clock: Clock, d: Draft, strategy: Strategy, incoming: Priority)
    ensures AdmitOrReject(cfg, clock, d).refusal != Some(TimedOut)
    ensures AdmitOrEvict(cfg, clock, d, strategy, incoming).refusal != Some(TimedOut)
  {
    hide PurgeForEnqueue, MaybePurge, EvictFrom, Evict;
  }

  lemma PerformCounts(cfg: Config, clock: Clock, s: State, op: Op)
    requires s.Shaped() && OpOk(op)
    ensures var a, b := s.world.books.stats, Perform(cfg, clock, s, op).world.books.stats;
            && b.rejectedGlobal == a.rejectedGlobal + Refusals(cfg, clock, s, [op], GlobalFull)
            && b.rejectedTenant == a.rejectedTenant + Refusals(cfg, clock, s, [op], TenantFull)
            && b.timeoutRejected == a.timeoutRejected + GiveUps([op])
  {
    hide Submit, DequeueLoop, Run, RefreshTenant;
    assert [op][1..] == [];
    match op
    case SubmitOp(t, task) => SubmitCounts(cfg, clock, s, t, task);
    case DequeueOp =>
      if s.shutdown != Immediate {
        var moves := DequeueLoopIsRun(cfg, clock, s, |s.activeShards|);
        VisitsRefuse(cfg, clock, s.world, moves);
      }
    case CloseOp(_) =>
    case WorldOp(m) => MoveCounts(cfg, clock, s.world, m);
  }

  lemma MoveCounts(cfg: Config, clock: Clock, w: World, m: Move)
    requires w.shards != [] && !m.EnqueueMove? && !m.VisitMove?
    ensures var a, b := w.books.stats, Step(cfg, clock, w, m).books.stats;
            && b.rejectedGlobal == a.rejectedGlobal && b.rejectedTenant == a.rejectedTenant
            && b.timeoutRejected == a.timeoutRejected + if m.GiveUpMove? then 1 else 0
  {
    hide QuantumFor, AsI64;
  }

  /** Over any calls the counters of refusals grow by exactly the calls so refused; a waiting call that gave up
      counts as timed out and as nothing else. */
  lemma {:induction false} RefusalsCounted(cfg: Config, clock: Clock, s: State, ops: seq<Op>)
    requires s.Shaped() && OpsOk(ops)
    ensures var a, b := s.world.books.stats, PerformAll(cfg, clock, s, ops).world.books.stats;
            && b.rejectedGlobal == a.rejectedGlobal + Refusals(cfg, clock, s, ops, GlobalFull)
            && b.rejectedTenant == a.rejectedTenant + Refusals(cfg, clock, s, ops, TenantFull)
            && b.timeoutRejected == a.timeoutRejected + GiveUps(ops)
    decreases |ops|
  {
    hide Perform, Submit, OpOk;
    if ops != [] {
      PerformCounts(cfg, clock, s, ops[0]);
      RefusalsCounted(cfg, clock, Perform(cfg, clock, s, ops[0]), ops[1..]);
      assert [ops[0]][1..] == [];
      assert Refusals(cfg, clock, Perform(cfg, clock, s, ops[0]), [], GlobalFull) == 0;
      assert Refusals(cfg, clock, Perform(cfg, clock, s, ops[0]), [], TenantFull) == 0;
      assert GiveUps([]) == 0;
    }
  }

  // ---------------------------------------------------------------- cancel

  lemma StepKeepsWithdrawn(cfg: Config, clock: Clock, w: World, m: Move)
    requires w.shards != []
    ensures w.books.history.withdrawn <= Step(cfg, clock, w, m).books.history.withdrawn
  {
    hide Admit, VisitRing, HomeState, Join, QuantumFor, AsI64;
    match m
    case EnqueueMove(t, task) => AdmitKeepsServices(cfg, clock, Draft(HomeState(w, t), w.books, w.samples), t, task);
    case VisitMove(i, p) =>
      if CanVisit(w, i, p) {
        VisitRefuses(clock, w, i, p);
      }
    case _ =>
  }

  lemma {:induction false} RunKeepsWithdrawn(cfg: Config, clock: Clock, w: World, moves: seq<Move>)
    requires w.shards != []
    ensures w.books.history.withdrawn <= Run(cfg, clock, w, moves).books.history.withdrawn
    decreases |moves|
  {
    hide Step;
    if moves != [] {
      StepKeepsWithdrawn(cfg, clock, w, moves[0]);
      RunKeepsWithdrawn(cfg, clock, Step(cfg, clock, w, moves[0]), moves[1..]);
    }
  }

  /** A cancel of a pending task gives its slot back at once and is final: whatever follows, the task is neither
      pending again nor handed out nor counted as expired or evicted. A cancel of anything else does nothing. */
  lemma CancelIsFinal(cfg: Config, clock: Clock, s: State, id: Id, ops: seq<Op>)
    requires StateInv(cfg, s) && OpsOk(ops)
    ensures var s1 := Perform(cfg, clock, s, WorldOp(CancelMove(id)));
            var b := PerformAll(cfg, clock, s1, ops).world.books;
            if id in s.world.books.pending then
              && s1.world.books.stats.queueLen == s.world.books.stats.queueLen - 1
              && id in b.history.withdrawn && id !in b.pending
              && id !in b.history.dispatched && id !in b.history.expired && id !in b.history.evicted
            else s1 == s
  {
    hide Inv, ListOk, Run, PerformAll;
    if id in s.world.books.pending {
      var s1 := Perform(cfg, clock, s, WorldOp(CancelMove(id)));
      SlotsCounted(cfg, s.world, id);
      PerformKeeps(cfg, clock, s, WorldOp(CancelMove(id)));
      var moves := PerformAllIsRun(cfg, clock, s1, ops);
      RunKeepsWithdrawn(cfg, clock, s1.world, moves);
      PerformAllKeeps(cfg, clock, s1, ops);
      WithdrawnOnly(cfg, PerformAll(cfg, clock, s1, ops).world, id);
    }
  }

  lemma SlotsCounted(cfg: Config, w: World, id: Id)
    requires Inv(cfg, w) && id in w.books.pending
    ensures w.books.stats.queueLen > 0
  {
    hide TenantInvAt, Homed, RingsKnown, OneFate;
    assert |w.books.pending| > 0;
  }

  lemma WithdrawnOnly(cfg: Config, w: World, id: Id)
    requires Inv(cfg, w) && id in w.books.history.withdrawn
    ensures var b := w.books;
            id !in b.pending && id !in b.history.dispatched && id !in b.history.expired && id !in b.history.evicted
  {
    hide TenantInvAt, Homed, RingsKnown, CountersOk;
    var b, h := w.books, w.books.history;
    PartsFacts(h.accepted.Keys, b.pending, h.dispatched, h.expired, h.evicted, h.withdrawn);
  }
}
