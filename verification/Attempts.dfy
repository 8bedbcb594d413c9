/** Attempts to enqueue, one by one: how they conclude, and what the Timeout policy makes of them. */
module Attempts {
  import opened Types
  import opened World
  import opened Invariant
  import opened EnqueueProofs
  import opened Preservation
  import opened Delivery
  import opened Limits
  import opened Service

  /** What an enqueue attempt leaves behind, before a refusal is counted. */
  function Concluded(s: State, t: Tenant, task: Task, a: Admission): (State, Submitted)
    requires s.Shaped()
  {
    var i := ShardIndex(|s.world.shards|, t);
    var shard := s.world.shards[i];
    match a.refusal
    case Some(reason) =>
      var shard' := shard.(tenants := shard.tenants[t := a.draft.state]);
      (s.(world := World(s.world.shards[i := shard'], a.draft.books, s.world.quanta, a.draft.samples)), Rejected(reason))
    case None =>
      var id := a.draft.books.nextId + 1;
      var (ts, ring) := Join(a.draft.state, shard.rings.At(task.priority), t, Entry(id, task));
      var shard' := Shard(shard.tenants[t := ts], shard.rings.With(task.priority, ring));
      var s' := s.(world := World(s.world.shards[i := shard'], Accept(a.draft.books, t, task), s.world.quanta, a.draft.samples));
      (if RingsEmpty(shard) then Activated(s', i) else s', Enqueued(id))
  }

  function Attempt(cfg: Config, clock: Clock, s: State, t: Tenant, task: Task): (State, Submitted)
    requires s.Shaped()
  {
    if s.shutdown != Open then (s, NotOpen) else Concluded(s, t, task, AdmissionOf(cfg, clock, s.world, t, task))
  }

  /** A refusal counted at once, as every policy but Timeout does. */
  function Counted(r: (State, Submitted)): (State, Submitted) {
    if r.1.Rejected? then (r.0.(world := r.0.world.(books := RecordReject(r.0.world.books, r.1.reason))), r.1) else r
  }

  lemma AttemptIsSubmit(cfg: Config, clock: Clock, s: State, t: Tenant, task: Task)
    requires s.Shaped()
    ensures Submit(cfg, clock, s, t, task)
         == if PolicyFor(cfg, t).Timeout? then Attempt(cfg, clock, s, t, task) else Counted(Attempt(cfg, clock, s, t, task))
  {
    hide AdmissionOf, Join, Accept, RecordReject;
  }

  /** The Timeout policy: attempts until one is not refused, at most `wakeups` after the first. */
  function Retry(cfg: Config, clock: Clock, s: State, t: Tenant, task: Task, wakeups: nat): (r: (State, Submitted))
    requires s.Shaped()
    ensures r.0.Shaped()
    ensures r.1.Rejected? ==> r.1.reason == TimedOut
    decreases wakeups
  {
    AttemptShaped(cfg, clock, s, t, task);
    var (s', r) := Attempt(cfg, clock, s, t, task);
    if !r.Rejected? then (s', r)
    else if wakeups == 0 then (s'.(world := s'.world.(books := RecordReject(s'.world.books, TimedOut))), Rejected(TimedOut))
    else Retry(cfg, clock, s', t, task, wakeups - 1)
  }

  lemma AttemptShaped(cfg: Config, clock: Clock, s: State, t: Tenant, task: Task)
    requires s.Shaped()
    ensures Attempt(cfg, clock, s, t, task).0.Shaped()
  {
    hide AdmissionOf, Join, Accept;
  }

  lemma {:induction false} PerformAllSnoc(cfg: Config, clock: Clock, s: State, ops: seq<Op>, op: Op)
    requires s.Shaped()
    ensures PerformAll(cfg, clock, s, ops + [op]) == Perform(cfg, clock, PerformAll(cfg, clock, s, ops), op)
    decreases |ops|
  {
    hide Perform;
    if ops == [] {
      assert ([] + [op])[1..] == [];
      assert PerformAll(cfg, clock, s, [op]) == PerformAll(cfg, clock, Perform(cfg, clock, s, op), []);
      assert [] + [op] == [op];
    } else {
      assert (ops + [op])[1..] == ops[1..] + [op];
      PerformAllSnoc(cfg, clock, Perform(cfg, clock, s, ops[0]), ops[1..], op);
    }
  }

  lemma PerformGiveUp(cfg: Config, clock: Clock, s: State)
    requires s.Shaped()
    ensures Perform(cfg, clock, s, WorldOp(GiveUpMove)) == s.(world := s.world.(books := RecordReject(s.world.books, TimedOut)))
  {
    hide RecordReject;
  }


  // ---------------------------------------------------------------- what waiting comes to

  /** The state after `k` attempts. */
  function Attempted(cfg: Config, clock: Clock, s: State, t: Tenant, task: Task, k: nat): (s': State)
    requires s.Shaped()
    ensures s'.Shaped()
  {
    PerformAll(cfg, clock, s, seq(k, _ => SubmitOp(t, task)))
  }

  /** The attempt after `k` others is refused. */
  ghost predicate RefusedAfter(cfg: Config, clock: Clock, s: State, t: Tenant, task: Task, k: nat)
    requires s.Shaped()
  {
    Submit(cfg, clock, Attempted(cfg, clock, s, t, task, k), t, task).1.Rejected?
  }

  ghost predicate AllRefused(cfg: Config, clock: Clock, s: State, t: Tenant, task: Task, last: nat)
    requires s.Shaped()
  {
    forall k: nat :: k <= last ==> RefusedAfter(cfg, clock, s, t, task, k)
  }

  lemma AttemptFirst(cfg: Config, clock: Clock, s: State, t: Tenant, task: Task, k: nat)
    requires s.Shaped()
    ensures var s1 := Submit(cfg, clock, s, t, task).0;
            Attempted(cfg, clock, s, t, task, k + 1) == Attempted(cfg, clock, s1, t, task, k)
  {
    hide Submit;
    var ops := seq(k + 1, _ => SubmitOp(t, task));
    assert ops[0] == SubmitOp(t, task) && ops[1..] == seq(k, _ => SubmitOp(t, task));
  }

  lemma NoneAttempted(cfg: Config, clock: Clock, s: State, t: Tenant, task: Task)
    requires s.Shaped()
    ensures Attempted(cfg, clock, s, t, task, 0) == s
  {
    assert seq(0, _ => SubmitOp(t, task)) == [];
  }

  /** The first attempt that is not refused decides. */
  lemma {:induction false} RetryDecides(cfg: Config, clock: Clock, s: State, t: Tenant, task: Task, wakeups: nat, k: nat)
    requires s.Shaped() && PolicyFor(cfg, t).Timeout? && k <= wakeups
    requires !RefusedAfter(cfg, clock, s, t, task, k) && (k > 0 ==> AllRefused(cfg, clock, s, t, task, k - 1))
    ensures Retry(cfg, clock, s, t, task, wakeups) == Submit(cfg, clock, Attempted(cfg, clock, s, t, task, k), t, task)
    decreases k
  {
    hide Submit, Attempt, Attempted;
    AttemptIsSubmit(cfg, clock, s, t, task);
    NoneAttempted(cfg, clock, s, t, task);
    if k > 0 {
      assert RefusedAfter(cfg, clock, s, t, task, 0);
      var s1 := Submit(cfg, clock, s, t, task).0;
      forall j: nat | j <= k ensures Attempted(cfg, clock, s, t, task, j + 1) == Attempted(cfg, clock, s1, t, task, j) {
        AttemptFirst(cfg, clock, s, t, task, j);
      }
      assert Attempted(cfg, clock, s, t, task, (k - 1) + 1) == Attempted(cfg, clock, s1, t, task, k - 1);
      forall j: nat | j < k - 1 ensures RefusedAfter(cfg, clock, s1, t, task, j) {
        assert RefusedAfter(cfg, clock, s, t, task, j + 1);
      }
      RetryDecides(cfg, clock, s1, t, task, wakeups - 1, k - 1);
    }
  }

  /** If all are refused the call gives up, and counts one timeout. */
  lemma {:induction false} RetryGivesUp(cfg: Config, clock: Clock, s: State, t: Tenant, task: Task, wakeups: nat)
    requires s.Shaped() && PolicyFor(cfg, t).Timeout? && AllRefused(cfg, clock, s, t, task, wakeups)
    ensures Retry(cfg, clock, s, t, task, wakeups) == GivenUp(Attempted(cfg, clock, s, t, task, wakeups + 1))
    decreases wakeups
  {
    hide Submit, Attempt, Attempted;
    AttemptIsSubmit(cfg, clock, s, t, task);
    NoneAttempted(cfg, clock, s, t, task);
    assert RefusedAfter(cfg, clock, s, t, task, 0);
    var s1 := Submit(cfg, clock, s, t, task).0;
    forall j: nat | j <= wakeups ensures Attempted(cfg, clock, s, t, task, j + 1) == Attempted(cfg, clock, s1, t, task, j) {
      AttemptFirst(cfg, clock, s, t, task, j);
    }
    assert Attempted(cfg, clock, s, t, task, wakeups + 1) == Attempted(cfg, clock, s1, t, task, wakeups);
    if wakeups == 0 {
      NoneAttempted(cfg, clock, s1, t, task);
    } else {
      forall j: nat | j <= wakeups - 1 ensures RefusedAfter(cfg, clock, s1, t, task, j) {
        assert RefusedAfter(cfg, clock, s, t, task, j + 1);
      }
      RetryGivesUp(cfg, clock, s1, t, task, wakeups - 1);
    }
  }

  /** Giving up: one more timeout, one more drop, and nothing else. */
  function GivenUp(s: State): (State, Submitted) {
    var stats := s.world.books.stats;
    (s.(world := s.world.(books := s.world.books.(stats := stats.(timeoutRejected := stats.timeoutRejected + 1, dropped := stats.dropped + 1)))),
     Rejected(TimedOut))
  }

  lemma {:induction false} FirstNotRefused(cfg: Config, clock: Clock, s: State, t: Tenant, task: Task, last: nat) returns (k: nat)
    requires s.Shaped() && !AllRefused(cfg, clock, s, t, task, last)
    ensures k <= last && !RefusedAfter(cfg, clock, s, t, task, k) && (k > 0 ==> AllRefused(cfg, clock, s, t, task, k - 1))
  {
    hide RefusedAfter;
    k := 0;
    while RefusedAfter(cfg, clock, s, t, task, k)
      invariant k <= last
      invariant k > 0 ==> AllRefused(cfg, clock, s, t, task, k - 1)
      decreases last - k
    {
      if k == last {
        assert false;
      }
      k := k + 1;
    }
  }

  // ---------------------------------------------------------------- which refusals are counted

  /** The counters of refusals and drops. */
  datatype Tallies = Tallies(dropped: nat, rejectedGlobal: nat, rejectedTenant: nat, timeoutRejected: nat)

  function TalliesOf(s: Stats): Tallies {
    Tallies(s.dropped, s.rejectedGlobal, s.rejectedTenant, s.timeoutRejected)
  }

  /** An attempt under the Timeout policy counts no refusal. */
  lemma AttemptCountsNothing(cfg: Config, clock: Clock, s: State, t: Tenant, task: Task)
    requires s.Shaped() && PolicyFor(cfg, t).Timeout?
    ensures TalliesOf(Submit(cfg, clock, s, t, task).0.world.books.stats) == TalliesOf(s.world.books.stats)
  {
    hide AdmitOrReject, Join, HomeState;
    RejectOnlyExpires(cfg, clock, Draft(HomeState(s.world, t), s.world.books, s.world.samples));
  }

  lemma {:induction false} AttemptsCountNothing(cfg: Config, clock: Clock, s: State, t: Tenant, task: Task, k: nat)
    requires s.Shaped() && PolicyFor(cfg, t).Timeout?
    ensures TalliesOf(Attempted(cfg, clock, s, t, task, k).world.books.stats) == TalliesOf(s.world.books.stats)
    decreases k
  {
    hide TalliesOf, Attempted, Submit;
    if k == 0 {
      NoneAttempted(cfg, clock, s, t, task);
    } else {
      var s1 := Submit(cfg, clock, s, t, task).0;
      AttemptCountsNothing(cfg, clock, s, t, task);
      AttemptFirst(cfg, clock, s, t, task, k - 1);
      AttemptsCountNothing(cfg, clock, s1, t, task, k - 1);
    }
  }

  /** What a call under the Timeout policy comes to, when the waiter wakes up `wakeups` times before its deadline:
      it times out if and only if the first attempt and one after each wake-up are all refused; otherwise state
      and answer are those of the first attempt that is not. Giving up raises two counters by one, and no other
      refusal of the call is counted. */
  ghost predicate WaitedFor(cfg: Config, clock: Clock, s: State, t: Tenant, task: Task, wakeups: nat, s': State, r: Submitted)
    requires s.Shaped()
  {
    var before, after := TalliesOf(s.world.books.stats), TalliesOf(s'.world.books.stats);
    && (r == Rejected(TimedOut) <==> AllRefused(cfg, clock, s, t, task, wakeups))
    && (AllRefused(cfg, clock, s, t, task, wakeups) ==>
          && (s', r) == GivenUp(Attempted(cfg, clock, s, t, task, wakeups + 1))
          && after == before.(timeoutRejected := before.timeoutRejected + 1, dropped := before.dropped + 1))
    && (forall k: nat :: k <= wakeups && !RefusedAfter(cfg, clock, s, t, task, k) && (k > 0 ==> AllRefused(cfg, clock, s, t, task, k - 1)) ==>
          (s', r) == Submit(cfg, clock, Attempted(cfg, clock, s, t, task, k), t, task) && after == before)
  }

  lemma RetryExactly(cfg: Config, clock: Clock, s: State, t: Tenant, task: Task, wakeups: nat)
    requires s.Shaped() && PolicyFor(cfg, t).Timeout?
    ensures var (s', r) := Retry(cfg, clock, s, t, task, wakeups);
            WaitedFor(cfg, clock, s, t, task, wakeups, s', r)
  {
    hide Submit, Retry, Attempted, AllRefused, PolicyFor;
    forall k: nat | k <= wakeups && !RefusedAfter(cfg, clock, s, t, task, k) && (k > 0 ==> AllRefused(cfg, clock, s, t, task, k - 1))
      ensures Retry(cfg, clock, s, t, task, wakeups) == Submit(cfg, clock, Attempted(cfg, clock, s, t, task, k), t, task)
      ensures TalliesOf(Retry(cfg, clock, s, t, task, wakeups).0.world.books.stats) == TalliesOf(s.world.books.stats)
    {
      RetryDecides(cfg, clock, s, t, task, wakeups, k);
      AttemptsCountNothing(cfg, clock, s, t, task, k);
      AttemptCountsNothing(cfg, clock, Attempted(cfg, clock, s, t, task, k), t, task);
    }
    if AllRefused(cfg, clock, s, t, task, wakeups) {
      RetryGivesUp(cfg, clock, s, t, task, wakeups);
      AttemptsCountNothing(cfg, clock, s, t, task, wakeups + 1);
    } else {
      var k := FirstNotRefused(cfg, clock, s, t, task, wakeups);
    }
  }
}
