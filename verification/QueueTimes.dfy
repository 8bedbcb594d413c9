/** What is recorded as a task's queue time, against the clock. */
module QueueTimes {
  import opened Types
  import opened Sums
  import opened World
  import opened Invariant
  import opened EnqueueProofs
  import opened Preservation
  import opened Delivery
  import opened Metrics
  import opened Service

  /** From `since` to `now`, not below zero, and clamped to a `u64`. */
  ghost predicate Between(waited: nat, since: Time, now: Time) {
    && (now <= since ==> waited == 0)
    && (0 < now - since <= U64_MAX ==> waited == now - since)
    && (U64_MAX < now - since ==> waited == U64_MAX)
  }

  /** From `w` to `w'`: one sample if a task was served, for the time from its submission to the last clock reading;
      and the sum of the samples moves with them. */
  ghost predicate Sampled(clock: Clock, w: World, w': World, served: Option<(Tenant, Entry)>) {
    var a, b := Waits(w.books.history.log), Waits(w'.books.history.log);
    var sum, sum' := w.books.stats.queueTimeSum, w'.books.stats.queueTimeSum;
    match served
    case None => b == a && sum' == sum
    case Some(pair) =>
      && w'.samples > 0 && |b| == |a| + 1 && b[..|a|] == a
      && Between(b[|a|], pair.1.task.enqueueTs, clock.now(w'.samples - 1))
      && sum' == sum + b[|a|]
  }

  lemma SampledThen(clock: Clock, a: World, b: World, c: World, served: Option<(Tenant, Entry)>)
    requires Sampled(clock, a, b, None) && Sampled(clock, b, c, served)
    ensures Sampled(clock, a, c, served)
  {
    hide Waits, Between;
  }

  lemma TurnSampled(clock: Clock, ts: TenantState, b: Books, samples: nat, t: Tenant, p: Priority)
    ensures var turn := TakeTurn(clock, ts, b, samples, t, p);
            var log := turn.books.history.log;
            && log.Then? && log.before == b.history.log
            && match turn.served
               case None => !log.visit.outcome.Served? && turn.books.stats.queueTimeSum == b.stats.queueTimeSum
               case Some(e) =>
                 && log.visit.outcome.Served?
                 && Between(log.visit.outcome.queueTime, e.task.enqueueTs, clock.now(samples + 1))
                 && turn.books.stats.queueTimeSum == b.stats.queueTimeSum + log.visit.outcome.queueTime
  {
    hide ChargeFor, DeadPrefix, Ids, WrapI64;
  }

  lemma VisitSampled(clock: Clock, w: World, i: nat, p: Priority)
    requires CanVisit(w, i, p)
    ensures Sampled(clock, w, VisitRing(clock, w, i, p).world, VisitRing(clock, w, i, p).served)
  {
    hide TakeTurn, Between;
    var s := w.shards[i];
    var t := s.rings.At(p)[0];
    if t in s.tenants {
      TurnSampled(clock, s.tenants[t], w.books, w.samples, t, p);
    }
  }

  lemma NothingSampled(clock: Clock, w: World)
    ensures Sampled(clock, w, w, None)
  {
  }

  lemma {:induction false} PassSampled(clock: Clock, w: World, i: nat, p: Priority, n: nat)
    requires i < |w.shards|
    ensures Sampled(clock, w, Pass(clock, w, i, p, n).world, Pass(clock, w, i, p, n).served)
    decreases n
  {
    hide Sampled, VisitRing;
    NothingSampled(clock, w);
    if n > 0 && CanVisit(w, i, p) {
      var v := VisitRing(clock, w, i, p);
      VisitSampled(clock, w, i, p);
      RingAfter(clock, w, i, p);
      if v.served.None? {
        PassSampled(clock, v.world, i, p, n - 1);
        SampledThen(clock, w, v.world, Pass(clock, v.world, i, p, n - 1).world, Pass(clock, v.world, i, p, n - 1).served);
      }
    }
  }

  lemma ShardSampled(clock: Clock, w: World, i: nat)
    requires i < |w.shards|
    ensures Sampled(clock, w, DequeueShard(clock, w, i).world, DequeueShard(clock, w, i).served)
  {
    hide Sampled, Pass;
    var h := FullPass(clock, w, i, High);
    PassSampled(clock, w, i, High, |w.shards[i].rings.At(High)|);
    if h.served.None? {
      var n := FullPass(clock, h.world, i, Normal);
      PassSampled(clock, h.world, i, Normal, |h.world.shards[i].rings.At(Normal)|);
      SampledThen(clock, w, h.world, n.world, n.served);
      if n.served.None? {
        var l := FullPass(clock, n.world, i, Low);
        PassSampled(clock, n.world, i, Low, |n.world.shards[i].rings.At(Low)|);
        SampledThen(clock, w, n.world, l.world, l.served);
      }
    }
  }

  lemma {:induction false} LoopSampled(clock: Clock, s: State, remaining: nat)
    requires s.Shaped()
    ensures Sampled(clock, s.world, DequeueLoop(clock, s, remaining).0.world, DequeueLoop(clock, s, remaining).1)
    decreases remaining
  {
    hide Sampled, DequeueShard;
    NothingSampled(clock, s.world);
    if remaining > 0 && s.activeShards != [] {
      var i := s.activeShards[0];
      assert i in s.activeShards;
      var v := DequeueShard(clock, s.world, i);
      ShardSampled(clock, s.world, i);
      if v.served.None? {
        var s1 := Settled(s, i, v.world);
        LoopSampled(clock, s1, remaining - 1);
        SampledThen(clock, s.world, v.world, DequeueLoop(clock, s1, remaining - 1).0.world, DequeueLoop(clock, s1, remaining - 1).1);
      }
    }
  }

  /** A call that delivers a task records one queue time: from the task's submission to the last clock reading of the
      call. Any other call records none. */
  lemma DeliverySampled(clock: Clock, s: State)
    requires s.Shaped()
    ensures var (s', r) := TryDequeue(clock, s);
            Sampled(clock, s.world, s'.world, if r.Delivered? then Some((r.tenant, r.entry)) else None)
  {
    hide Sampled, DequeueLoop;
    NothingSampled(clock, s.world);
    LoopSampled(clock, s, |s.activeShards|);
  }

  // ---------------------------------------------------------------- the sum of the queue times

  ghost predicate SumOk(w: World) {
    w.books.stats.queueTimeSum == SumSeq(Waits(w.books.history.log))
  }

  lemma {:induction false} SumSnoc(s: seq<nat>, x: nat)
    ensures SumSeq(s + [x]) == SumSeq(s) + x
  {
    if s == [] {
      assert [] + [x] == [x] && [x][1..] == [];
    } else {
      assert (s + [x])[1..] == s[1..] + [x];
      SumSnoc(s[1..], x);
    }
  }

  lemma SampledKeepsSum(clock: Clock, w: World, w': World, served: Option<(Tenant, Entry)>)
    requires SumOk(w) && Sampled(clock, w, w', served)
    ensures SumOk(w')
  {
    hide Waits, Between;
    var a, b := Waits(w.books.history.log), Waits(w'.books.history.log);
    if served.Some? {
      assert b == a + [b[|a|]];
      SumSnoc(a, b[|a|]);
    }
  }

  lemma EnqueueKeepsSum(cfg: Config, clock: Clock, w: World, t: Tenant, task: Task)
    requires w.shards != []
    ensures Enqueue(cfg, clock, w, t, task).books.stats.queueTimeSum == w.books.stats.queueTimeSum
  {
    hide Admit, HomeState, Join;
    AdmitKeepsServices(cfg, clock, Draft(HomeState(w, t), w.books, w.samples), t, task);
  }

  lemma StepKeepsSum(cfg: Config, clock: Clock, w: World, m: Move)
    requires Inv(cfg, w) && SumOk(w)
    ensures SumOk(Step(cfg, clock, w, m))
  {
    hide BooksOk, TenantInvAt, Homed, RingsKnown, VisitRing, Enqueue, RecordReject, Waits, Sampled, AsI64, QuantumFor;
    match m
    case VisitMove(i, p) =>
      if CanVisit(w, i, p) {
        VisitSampled(clock, w, i, p);
        SampledKeepsSum(clock, w, VisitRing(clock, w, i, p).world, VisitRing(clock, w, i, p).served);
      }
    case EnqueueMove(t, task) =>
      EnqueueKeepsSum(cfg, clock, w, t, task);
      OthersKeepLog(cfg, clock, w, m);
    case GiveUpMove => GiveUpKeepsSum(w.books);
    case _ =>
  }

  lemma GiveUpKeepsSum(b: Books)
    ensures RecordReject(b, TimedOut).stats.queueTimeSum == b.stats.queueTimeSum && RecordReject(b, TimedOut).history == b.history
  {
  }

  lemma {:induction false} RunKeepsSum(cfg: Config, clock: Clock, w: World, moves: seq<Move>)
    requires Inv(cfg, w) && SumOk(w)
    ensures SumOk(Run(cfg, clock, w, moves))
    decreases |moves|
  {
    hide BooksOk, TenantInvAt, Homed, RingsKnown, Step, SumOk;
    if moves != [] {
      StepKeeps(cfg, clock, w, moves[0]);
      StepKeepsSum(cfg, clock, w, moves[0]);
      RunKeepsSum(cfg, clock, Step(cfg, clock, w, moves[0]), moves[1..]);
    }
  }

  /** In every reachable world the sum of queue times is that of the recorded ones. */
  lemma QueueTimesAddUp(cfg: Config, clock: Clock, w: World)
    requires Reachable(cfg, clock, w)
    ensures w.books.stats.queueTimeSum == SumSeq(Waits(w.books.history.log))
  {
    hide Inv, Step, Run;
    var shards: nat, quanta: Quanta, moves: seq<Move> :| w == Run(cfg, clock, Fresh(shards, quanta), moves);
    FreshInv(cfg, shards, quanta);
    RunKeepsSum(cfg, clock, Fresh(shards, quanta), moves);
  }
}
