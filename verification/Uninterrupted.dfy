/** The atomic steps of one thread with nobody in between come to what the sequential operations do to the slot
    counter, the pending ids, the markers and the id counter. */
module Uninterrupted {
  import opened Types
  import opened World
  import SP = SlotProtocol

  /** The protocol state tells what the books do. */
  ghost predicate Tells(s: SP.State, b: Books) {
    s.queueLen == b.stats.queueLen && s.pending == b.pending && s.markers == b.cancelled && s.nextId == b.nextId
  }

  ghost predicate Resting(s: SP.State, t: SP.Tid) {
    t in s.threads && s.threads[t] == SP.Thread(SP.Idle, 0)
  }

  /** Thread `t` takes these steps, one after the other. */
  function Straight(max: nat, s: SP.State, t: SP.Tid, steps: seq<SP.Step>): SP.State
    decreases |steps|
  {
    if steps == [] then s else Straight(max, SP.Next(max, s, t, steps[0]), t, steps[1..])
  }

  function By(t: SP.Tid, steps: seq<SP.Step>): seq<(SP.Tid, SP.Step)> {
    seq(|steps|, k requires 0 <= k < |steps| => (t, steps[k]))
  }

  lemma {:induction false} StraightIsRun(max: nat, s: SP.State, t: SP.Tid, steps: seq<SP.Step>)
    ensures Straight(max, s, t, steps) == SP.Run(max, s, By(t, steps))
    decreases |steps|
  {
    hide SP.Next;
    if steps != [] {
      assert By(t, steps)[1..] == By(t, steps[1..]);
      StraightIsRun(max, SP.Next(max, s, t, steps[0]), t, steps[1..]);
    }
  }

  lemma StepThen(max: nat, s: SP.State, t: SP.Tid, step: SP.Step, steps: seq<SP.Step>)
    ensures Straight(max, s, t, [step] + steps) == Straight(max, SP.Next(max, s, t, step), t, steps)
  {
    hide SP.Next;
    assert ([step] + steps)[1..] == steps;
  }

  lemma Released(max: nat, s: SP.State, t: SP.Tid)
    requires t in s.threads && s.threads[t] == SP.Thread(SP.ToRelease, 1)
    ensures var s' := Straight(max, s, t, [SP.LoadForRelease, SP.TryRelease]);
            s' == s.(queueLen := SatSub(s.queueLen, 1)).At(t, SP.Idle, 0)
  {
    var s1 := SP.Next(max, s, t, SP.LoadForRelease);
    StepThen(max, s, t, SP.LoadForRelease, [SP.TryRelease]);
    StepThen(max, s1, t, SP.TryRelease, []);
    assert [SP.TryRelease] + [] == [SP.TryRelease] && [SP.LoadForRelease] + [SP.TryRelease] == [SP.LoadForRelease, SP.TryRelease];
  }

  /** A cancel. */
  lemma CancelStraight(max: nat, s: SP.State, t: SP.Tid, w: World, id: Id)
    requires Resting(s, t) && Tells(s, w.books)
    ensures var steps := [SP.Cancel(id)] + if id in s.pending then [SP.SetMarker] + [SP.LoadForRelease, SP.TryRelease] else [];
            var s' := SP.Run(max, s, By(t, steps));
            Resting(s', t) && Tells(s', Cancel(w, id).books) && s'.queued == s.queued
  {
    var steps := [SP.Cancel(id)] + if id in s.pending then [SP.SetMarker] + [SP.LoadForRelease, SP.TryRelease] else [];
    StraightIsRun(max, s, t, steps);
    var s1 := SP.Next(max, s, t, SP.Cancel(id));
    StepThen(max, s, t, SP.Cancel(id), if id in s.pending then [SP.SetMarker] + [SP.LoadForRelease, SP.TryRelease] else []);
    if id in s.pending {
      var s2 := SP.Next(max, s1, t, SP.SetMarker);
      StepThen(max, s1, t, SP.SetMarker, [SP.LoadForRelease, SP.TryRelease]);
      Released(max, s2, t);
    }
  }

  const ENQUEUE: seq<SP.Step> := [SP.BeginReserve, SP.TryReserve, SP.NextHandle, SP.Register, SP.Push]

  lemma EnqueueSteps(max: nat, s: SP.State, t: SP.Tid)
    ensures SP.Run(max, s, By(t, ENQUEUE)) ==
            SP.Next(max, SP.Next(max, SP.Next(max, SP.Next(max, SP.Next(max, s, t, SP.BeginReserve), t, SP.TryReserve), t, SP.NextHandle),
                                 t, SP.Register), t, SP.Push)
  {
    hide SP.Next;
    StraightIsRun(max, s, t, ENQUEUE);
    var s1 := SP.Next(max, s, t, SP.BeginReserve);
    var s2 := SP.Next(max, s1, t, SP.TryReserve);
    var s3 := SP.Next(max, s2, t, SP.NextHandle);
    var s4 := SP.Next(max, s3, t, SP.Register);
    assert [SP.BeginReserve] + [SP.TryReserve, SP.NextHandle, SP.Register, SP.Push] == ENQUEUE;
    assert [SP.TryReserve] + [SP.NextHandle, SP.Register, SP.Push] == [SP.TryReserve, SP.NextHandle, SP.Register, SP.Push];
    assert [SP.NextHandle] + [SP.Register, SP.Push] == [SP.NextHandle, SP.Register, SP.Push];
    assert [SP.Register] + [SP.Push] == [SP.Register, SP.Push] && [SP.Push] + [] == [SP.Push];
    StepThen(max, s, t, SP.BeginReserve, [SP.TryReserve, SP.NextHandle, SP.Register, SP.Push]);
    StepThen(max, s1, t, SP.TryReserve, [SP.NextHandle, SP.Register, SP.Push]);
    StepThen(max, s2, t, SP.NextHandle, [SP.Register, SP.Push]);
    StepThen(max, s3, t, SP.Register, [SP.Push]);
    StepThen(max, s4, t, SP.Push, []);
  }

  /** An enqueue that needs no purge: with a slot left it reserves, numbers, registers and queues; without one it
      changes nothing. */
  lemma EnqueueStraight(cfg: Config, s: SP.State, t: SP.Tid, b: Books, x: Tenant, task: Task)
    requires Resting(s, t) && Tells(s, b)
    ensures var s' := SP.Run(cfg.maxGlobal, s, By(t, ENQUEUE));
            && Resting(s', t)
            && match Reserve(cfg, b)
               case Some(b1) => Tells(s', Accept(b1, x, task)) && s'.queued == s.queued + {b.nextId + 1}
               case None => Tells(s', b) && s'.queued == s.queued
  {
    var max := cfg.maxGlobal;
    EnqueueSteps(max, s, t);
    var s1 := SP.Next(max, s, t, SP.BeginReserve);
    assert s1 == s.At(t, SP.Reserving(s.queueLen), 0);
    var s2 := SP.Next(max, s1, t, SP.TryReserve);
    if s.queueLen < max {
      var s3 := SP.Next(max, s2, t, SP.NextHandle);
      assert s3.threads[t] == SP.Thread(SP.Numbered(s.nextId + 1), 1);
      var s4 := SP.Next(max, s3, t, SP.Register);
      assert s4.threads[t] == SP.Thread(SP.Registered(s.nextId + 1), 0);
    } else {
      assert s2 == s1.At(t, SP.Idle, 0);
    }
  }

  /** What a thread that picked entry `id` does with it, given what it finds. */
  function Handling(s: SP.State, id: Id, purpose: SP.Purpose): seq<SP.Step> {
    [SP.Pick(id, purpose)] + [SP.LookForMarker] +
    (if id in s.markers && (purpose == SP.Heads || purpose == SP.Serve) then [SP.Discard] else [SP.TakePending]) +
    (if purpose == SP.Purge then [SP.EndPurge] else []) +
    (if id in s.pending && purpose != SP.Evict then [SP.LoadForRelease, SP.TryRelease] else [])
  }

  lemma HandledFirst(max: nat, s: SP.State, t: SP.Tid, id: Id, purpose: SP.Purpose)
    requires Resting(s, t) && id in s.queued && s.pending !! s.markers
    ensures var take := if id in s.markers && (purpose == SP.Heads || purpose == SP.Serve) then SP.Discard else SP.TakePending;
            var s' := SP.Next(max, SP.Next(max, SP.Next(max, s, t, SP.Pick(id, purpose)), t, SP.LookForMarker), t, take);
            && t in s'.threads
            && s'.threads[t] == (if id in s.pending then SP.Thread(SP.AfterWin(purpose), 1)
                                 else SP.Thread(SP.AfterLoss(purpose), 0))
            && s'.queueLen == s.queueLen && s'.pending == s.pending - {id} && s'.markers == s.markers - {id} && s'.nextId == s.nextId
            && s'.queued == s.queued - {id}
  {
    var s1 := SP.Next(max, s, t, SP.Pick(id, purpose));
    assert s1.threads[t] == SP.Thread(SP.Holding(id, purpose), 0);
    var s2 := SP.Next(max, s1, t, SP.LookForMarker);
    assert s2.threads[t].held == 0;
  }

  /** The steps of a thread that handles one entry: afterwards marker and id are gone, and if the id was pending its
      slot is given back, or kept for the newcomer if the entry was evicted. */
  lemma HandledStraight(max: nat, s: SP.State, t: SP.Tid, id: Id, purpose: SP.Purpose)
    requires Resting(s, t) && id in s.queued && s.pending !! s.markers
    ensures var s' := SP.Run(max, s, By(t, Handling(s, id, purpose)));
            && t in s'.threads
            && s'.threads[t] == (if id in s.pending && purpose == SP.Evict then SP.Thread(SP.Reserved, 1) else SP.Thread(SP.Idle, 0))
            && s'.queueLen == (if id in s.pending && purpose != SP.Evict then SatSub(s.queueLen, 1) else s.queueLen)
            && s'.pending == s.pending - {id} && s'.markers == s.markers - {id} && s'.nextId == s.nextId && s'.queued == s.queued - {id}
  {
    var steps := Handling(s, id, purpose);
    StraightIsRun(max, s, t, steps);
    var take := if id in s.markers && (purpose == SP.Heads || purpose == SP.Serve) then SP.Discard else SP.TakePending;
    var end := if purpose == SP.Purge then [SP.EndPurge] else [];
    var give := if id in s.pending && purpose != SP.Evict then [SP.LoadForRelease, SP.TryRelease] else [];
    assert steps == [SP.Pick(id, purpose)] + ([SP.LookForMarker] + ([take] + (end + give)));
    var s1 := SP.Next(max, s, t, SP.Pick(id, purpose));
    var s2 := SP.Next(max, s1, t, SP.LookForMarker);
    var s3 := SP.Next(max, s2, t, take);
    StepThen(max, s, t, SP.Pick(id, purpose), [SP.LookForMarker] + ([take] + (end + give)));
    StepThen(max, s1, t, SP.LookForMarker, [take] + (end + give));
    StepThen(max, s2, t, take, end + give);
    HandledFirst(max, s, t, id, purpose);
    HandledLast(max, s3, t, purpose, id in s.pending);
  }

  lemma HandledLast(max: nat, s: SP.State, t: SP.Tid, purpose: SP.Purpose, won: bool)
    requires t in s.threads
    requires s.threads[t] == if won then SP.Thread(SP.AfterWin(purpose), 1) else SP.Thread(SP.AfterLoss(purpose), 0)
    ensures var end := if purpose == SP.Purge then [SP.EndPurge] else [];
            var give := if won && purpose != SP.Evict then [SP.LoadForRelease, SP.TryRelease] else [];
            var s' := Straight(max, s, t, end + give);
            && t in s'.threads
            && s'.threads[t] == (if won && purpose == SP.Evict then SP.Thread(SP.Reserved, 1) else SP.Thread(SP.Idle, 0))
            && s'.queueLen == (if won && purpose != SP.Evict then SatSub(s.queueLen, 1) else s.queueLen)
            && s'.pending == s.pending && s'.markers == s.markers && s'.nextId == s.nextId && s'.queued == s.queued
  {
    var end := if purpose == SP.Purge then [SP.EndPurge] else [];
    var give := if won && purpose != SP.Evict then [SP.LoadForRelease, SP.TryRelease] else [];
    var s1 := s;
    if purpose == SP.Purge {
      s1 := SP.Next(max, s, t, SP.EndPurge);
      StepThen(max, s, t, SP.EndPurge, give);
    } else {
      assert end + give == give;
    }
    if won && purpose != SP.Evict {
      Released(max, s1, t);
    }
  }

  /** So an entry dropped by a purge or at the head of a lane is reaped, a served one dispatched, and an evicted one
      displaced, as the sequential operations do it. */
  lemma EntryStraight(max: nat, s: SP.State, t: SP.Tid, b: Books, id: Id, purpose: SP.Purpose, queueTime: nat)
    requires Resting(s, t) && id in s.queued && Tells(s, b) && b.pending !! b.cancelled
    ensures var s' := SP.Run(max, s, By(t, Handling(s, id, purpose)));
            t in s'.threads &&
            match purpose
            case Purge => Tells(s', Reap(b, {id}))
            case Heads => Tells(s', Reap(b, {id}))
            case Serve => id in b.pending ==> Tells(s', Dispatch(b, id, queueTime))
            case Evict => Tells(s', Displace(b, id)) && (id in b.pending ==> s'.threads[t] == SP.Thread(SP.Reserved, 1))
  {
    hide Handling, SP.Run;
    HandledStraight(max, s, t, id, purpose);
    if id in b.pending {
      assert {id} * b.pending == {id};
    } else {
      assert {id} * b.pending == {};
    }
  }
}
