/** What becomes of cancel markers under every interleaving: exactly which ones are never collected. */
module MarkerFate {
  import opened Types
  import opened SlotProtocol

  /** Some thread that held the entry of `id` lost the race for the id. */
  ghost predicate LostByHolder(events: seq<Event>, id: Id) {
    exists j :: 0 <= j < |events| && events[j].Lost? && events[j].id == id && events[j].who != ByCancel
  }

  ghost predicate Setting(s: State, t: Tid, id: Id) {
    t in s.threads && s.threads[t].pc == CancelWon(id)
  }

  ghost predicate Collecting(s: State, t: Tid, id: Id) {
    t in s.threads && s.threads[t].pc.Marked? && s.threads[t].pc.id == id
  }

  /** A marker for `id` is set, or a cancel that won is about to set it. */
  ghost predicate Owed(s: State, id: Id) {
    id in s.markers || exists t :: Setting(s, t, id)
  }

  /** An id's marker is about to be set, or set, or being collected: one of these at a time, and once. */
  ghost predicate OneMarker(s: State) {
    && (forall t, u, id :: Setting(s, t, id) && Setting(s, u, id) ==> t == u)
    && (forall t, id :: Setting(s, t, id) ==> id !in s.markers)
    && (forall t, u, id :: Setting(s, t, id) ==> !Collecting(s, u, id))
    && (forall u, id :: Collecting(s, u, id) ==> id !in s.markers)
  }

  /** An entry whose holder lost its id is gone for good. */
  ghost predicate LostIsGone(s: State) {
    forall id: Id :: LostByHolder(s.events, id) ==> !Somewhere(s, id) && id in s.taken
  }

  /** A marker that is set or about to be still has its entry, unless a holder of the entry lost the id. */
  ghost predicate OwedHasEntry(s: State) {
    forall id: Id :: Owed(s, id) ==> Somewhere(s, id) || LostByHolder(s.events, id)
  }

  ghost predicate MarkersOk(s: State) {
    OneMarker(s) && LostIsGone(s) && OwedHasEntry(s)
  }

  // ---------------------------------------------------------------- one step

  /** The other threads keep what they hold. */
  lemma OtherHands(max: nat, s: State, t: Tid, step: Step, id: Id)
    requires Enabled(s, t, step)
    ensures var s' := Next(max, s, t, step);
            && t in s.threads
            && (forall u :: u != t && u in s'.threads && InHand(s'.threads[u].pc) == Some(id) ==> Somewhere(s, id))
            && (forall u :: u != t && u in s.threads && InHand(s.threads[u].pc) == Some(id) ==> Somewhere(s', id))
  {
    hide Next, InHand;
    OnlyThread(max, s, t, step);
    var s' := Next(max, s, t, step);
    forall u | u != t && u in s'.threads && InHand(s'.threads[u].pc) == Some(id) ensures Somewhere(s, id) {
      assert InHand(s.threads[u].pc) == Some(id);
    }
    forall u | u != t && u in s.threads && InHand(s.threads[u].pc) == Some(id) ensures Somewhere(s', id) {
      assert InHand(s'.threads[u].pc) == Some(id);
    }
  }

  /** Entries appear only as fresh numbers. */
  lemma Appears(max: nat, s: State, t: Tid, step: Step, id: Id)
    requires Enabled(s, t, step) && Somewhere(Next(max, s, t, step), id) && !Somewhere(s, id)
    ensures id == s.nextId + 1
  {
    hide Next, Enabled, InHand;
    HandMoves(max, s, t, step);
    OtherHands(max, s, t, step, id);
  }

  /** Entries vanish only from a hand, by losing or winning the id or by discarding a marked entry. */
  lemma Vanishes(max: nat, s: State, t: Tid, step: Step, id: Id)
    requires Enabled(s, t, step) && Somewhere(s, id) && !Somewhere(Next(max, s, t, step), id)
    ensures InHand(s.threads[t].pc) == Some(id) && (step == TakePending || step == Discard)
  {
    hide Next, InHand;
    OtherHands(max, s, t, step, id);
    NewlyPending(max, s, t, step, id);
    LetGo(max, s, t, step, id);
  }

  lemma LetGo(max: nat, s: State, t: Tid, step: Step, id: Id)
    requires Enabled(s, t, step)
    ensures var s' := Next(max, s, t, step);
            t in s'.threads &&
            (InHand(s.threads[t].pc) == Some(id) ==>
               step == TakePending || step == Discard || InHand(s'.threads[t].pc) == Some(id) || id in s'.queued)
  {
  }

  /** What a step adds to the events: nothing, an event of a cancel, or that of the entry in hand. */
  lemma EventsAfter(max: nat, s: State, t: Tid, step: Step)
    requires Enabled(s, t, step)
    ensures var s' := Next(max, s, t, step);
            match step
            case Cancel(_) => exists e: Event :: e.who == ByCancel && s'.events == s.events + [e]
            case TakePending =>
              InHand(s.threads[t].pc).Some? &&
              var id, who := InHand(s.threads[t].pc).value, ByHolder(s.threads[t].pc.purpose);
              s'.events == s.events + [if id in s.pending then Won(id, who) else Lost(id, who)]
            case _ => s'.events == s.events
  {
    if step.Cancel? {
      var id := step.id;
      var e := if id in s.pending then Won(id, ByCancel) else Lost(id, ByCancel);
      assert Next(max, s, t, step).events == s.events + [e];
    }
  }

  lemma LossesGrow(events: seq<Event>, e: Event, id: Id)
    ensures LostByHolder(events + [e], id) <==>
            LostByHolder(events, id) || (e.Lost? && e.id == id && e.who != ByCancel)
  {
    var all := events + [e];
    if LostByHolder(events, id) {
      var j :| 0 <= j < |events| && events[j].Lost? && events[j].id == id && events[j].who != ByCancel;
      assert all[j] == events[j];
    }
    if e.Lost? && e.id == id && e.who != ByCancel {
      assert all[|events|] == e;
    }
  }

  /** Losses by holders after a step: those before, and that of the entry in this thread's hand if its id was
      no longer pending. */
  lemma NewLoss(max: nat, s: State, t: Tid, step: Step, id: Id)
    requires Enabled(s, t, step)
    ensures var s' := Next(max, s, t, step);
            LostByHolder(s'.events, id) <==>
            LostByHolder(s.events, id) || (step == TakePending && InHand(s.threads[t].pc) == Some(id) && id !in s.pending)
  {
    hide Next, LostByHolder;
    EventsAfter(max, s, t, step);
    var s' := Next(max, s, t, step);
    match step
    case Cancel(_) =>
      var e: Event :| e.who == ByCancel && s'.events == s.events + [e];
      LossesGrow(s.events, e, id);
    case TakePending =>
      var own, who := InHand(s.threads[t].pc).value, ByHolder(s.threads[t].pc.purpose);
      LossesGrow(s.events, if own in s.pending then Won(own, who) else Lost(own, who), id);
    case _ =>
  }

  /** How setters, markers and collectors of one id change in a step. */
  lemma MarkerMoves(max: nat, s: State, t: Tid, step: Step)
    requires Enabled(s, t, step)
    ensures var s' := Next(max, s, t, step);
            && (forall u, id :: u != t ==> (Setting(s', u, id) <==> Setting(s, u, id)) && (Collecting(s', u, id) <==> Collecting(s, u, id)))
            && (forall id :: Setting(s', t, id) ==> step == Cancel(id) && id in s.pending)
            && (forall id :: Setting(s, t, id) ==> step == SetMarker && id in s'.markers)
            && (forall id :: Collecting(s', t, id) ==> step == LookForMarker && id in s.markers && id !in s'.markers)
            && (forall id: Id :: id in s'.markers && id !in s.markers ==> step == SetMarker && Setting(s, t, id))
            && (forall id: Id :: id in s.markers && id !in s'.markers ==> step == LookForMarker && InHand(s.threads[t].pc) == Some(id))
  {
    hide InHand;
    OnlyThread(max, s, t, step);
    OwnMarkerMoves(max, s, t, step);
  }

  lemma OwnMarkerMoves(max: nat, s: State, t: Tid, step: Step)
    requires Enabled(s, t, step)
    ensures var s' := Next(max, s, t, step);
            && (forall id :: Setting(s', t, id) ==> step == Cancel(id) && id in s.pending)
            && (forall id :: Setting(s, t, id) ==> step == SetMarker && id in s'.markers)
            && (forall id :: Collecting(s', t, id) ==> step == LookForMarker && id in s.markers && id !in s'.markers)
            && (forall id: Id :: id in s'.markers && id !in s.markers ==> step == SetMarker && Setting(s, t, id))
            && (forall id: Id :: id in s.markers && id !in s'.markers ==> step == LookForMarker && InHand(s.threads[t].pc) == Some(id))
  {
  }

  lemma SettersAreTaken(s: State)
    requires PcsOk(s)
    ensures forall t, id :: Setting(s, t, id) || Collecting(s, t, id) ==> id in s.taken
  {
    forall t, id | Setting(s, t, id) || Collecting(s, t, id) ensures id in s.taken {
      assert PcOk(s, s.threads[t].pc);
    }
  }

  lemma StepKeepsOneMarker(max: nat, s: State, t: Tid, step: Step)
    requires IdsOk(s) && PcsOk(s) && OnePlace(s) && OneMarker(s) && Enabled(s, t, step)
    ensures OneMarker(Next(max, s, t, step))
  {
    hide Next, Enabled, PcsOk, Setting;
    MarkerMoves(max, s, t, step);
    SettersAreTaken(s);
    CollectedOnce(s);
  }

  lemma CollectedOnce(s: State)
    requires OnePlace(s)
    ensures forall t, u, id :: Collecting(s, t, id) && Collecting(s, u, id) ==> t == u
  {
  }

  lemma StepKeepsLost(max: nat, s: State, t: Tid, step: Step)
    requires IdsOk(s) && PcsOk(s) && OnePlace(s) && LostIsGone(s) && Enabled(s, t, step)
    ensures LostIsGone(Next(max, s, t, step))
  {
    hide Next, Enabled, LostByHolder, Somewhere, PcsOk, OnePlace, IdsOk;
    var s' := Next(max, s, t, step);
    StepGrows(max, s, t, step);
    forall id: Id | LostByHolder(s'.events, id) ensures !Somewhere(s', id) && id in s'.taken {
      NewLoss(max, s, t, step, id);
      if LostByHolder(s.events, id) {
        TakenIsOld(s, id);
        if Somewhere(s', id) {
          Appears(max, s, t, step, id);
        }
      } else {
        LosesEntry(max, s, t, id);
      }
    }
  }

  lemma TakenIsOld(s: State, id: Id)
    requires IdsOk(s)
    ensures id in s.taken ==> id <= s.nextId
  {
  }

  lemma LosesEntry(max: nat, s: State, t: Tid, id: Id)
    requires IdsOk(s) && PcsOk(s) && OnePlace(s) && Enabled(s, t, TakePending)
    requires InHand(s.threads[t].pc) == Some(id) && id !in s.pending
    ensures var s' := Next(max, s, t, TakePending);
            !Somewhere(s', id) && id in s'.taken
  {
    var s' := Next(max, s, t, TakePending);
    assert PcOk(s, s.threads[t].pc);
    OnlyThread(max, s, t, TakePending);
  }

  lemma StepKeepsOwed(max: nat, s: State, t: Tid, step: Step)
    requires IdsOk(s) && PcsOk(s) && NoneLost(s) && OneMarker(s) && OwedHasEntry(s) && Enabled(s, t, step)
    ensures OwedHasEntry(Next(max, s, t, step))
  {
    hide Next, Enabled, LostByHolder, Somewhere, PcsOk, IdsOk, Setting, Collecting;
    var s' := Next(max, s, t, step);
    MarkerMoves(max, s, t, step);
    forall id: Id | Owed(s', id) ensures Somewhere(s', id) || LostByHolder(s'.events, id) {
      NewLoss(max, s, t, step, id);
      if Owed(s, id) {
        if Somewhere(s, id) && !Somewhere(s', id) {
          Vanishes(max, s, t, step, id);
          OwedIsLost(s, t, step, id);
        }
      } else {
        assert step == Cancel(id) && id in s.pending;
        if !Somewhere(s', id) {
          Vanishes(max, s, t, step, id);
        }
      }
    }
  }

  /** A thread that lets go of an entry whose marker is owed has found no marker, and loses the id. */
  lemma OwedIsLost(s: State, t: Tid, step: Step, id: Id)
    requires IdsOk(s) && PcsOk(s) && OneMarker(s) && Enabled(s, t, step) && Owed(s, id)
    requires InHand(s.threads[t].pc) == Some(id) && (step == TakePending || step == Discard)
    ensures step == TakePending && id !in s.pending
  {
    hide PcsOk, Collecting;
    SettersAreTaken(s);
    MarkedCollects(s, t, step, id);
  }

  lemma MarkedCollects(s: State, t: Tid, step: Step, id: Id)
    requires Enabled(s, t, step) && InHand(s.threads[t].pc) == Some(id)
    ensures s.threads[t].pc.Marked? ==> Collecting(s, t, id)
    ensures step == TakePending || step == Discard ==> s.threads[t].pc.Unmarked? || s.threads[t].pc.Marked?
    ensures step == Discard ==> s.threads[t].pc.Marked?
  {
  }

  lemma StepKeepsMarkers(max: nat, s: State, t: Tid, step: Step)
    requires Safe(max, s) && MarkersOk(s)
    ensures MarkersOk(Next(max, s, t, step))
  {
    hide SlotsOk, ThreadsOk, IdsOk, PcsOk, OnePlace, NoneLost, EventsOk, OneMarker, LostIsGone, OwedHasEntry, Next, Enabled;
    if Enabled(s, t, step) {
      StepKeepsOneMarker(max, s, t, step);
      StepKeepsLost(max, s, t, step);
      StepKeepsOwed(max, s, t, step);
    } else {
      Disabled(max, s, t, step);
    }
  }

  lemma {:induction false} RunKeepsMarkers(max: nat, s: State, steps: seq<(Tid, Step)>)
    requires Safe(max, s) && MarkersOk(s)
    ensures MarkersOk(Run(max, s, steps))
    decreases |steps|
  {
    hide Safe, MarkersOk, Next;
    if steps != [] {
      StepIsSafe(max, s, steps[0].0, steps[0].1);
      StepKeepsMarkers(max, s, steps[0].0, steps[0].1);
      RunKeepsMarkers(max, Next(max, s, steps[0].0, steps[0].1), steps[1..]);
    }
  }

  lemma ReachableMarkers(max: nat, s: State)
    requires Reachable(max, s)
    ensures Safe(max, s) && MarkersOk(s)
  {
    hide Safe, Run;
    ReachableIsSafe(max, s);
    var tids: set<Tid>, steps: seq<(Tid, Step)> :| s == Run(max, Start(tids), steps);
    StartIsSafe(max, tids);
    RunKeepsMarkers(max, Start(tids), steps);
  }

  // ---------------------------------------------------------------- exactly which markers are orphaned

  /** A set marker has its entry, in the queues or in a hand, if and only if no holder of that entry ever lost
      the race for its id. Otherwise the entry was dropped before the marker was set. */
  lemma MarkerHasEntryExactly(max: nat, s: State, id: Id)
    requires Reachable(max, s) && id in s.markers
    ensures Somewhere(s, id) <==> !LostByHolder(s.events, id)
  {
    hide Reachable, Safe, OneMarker, LostByHolder, Somewhere;
    ReachableMarkers(max, s);
    assert Owed(s, id);
  }

  /** The holder found no marker and can only take the id, which it will lose. */
  ghost predicate BoundToLose(s: State, u: Tid, id: Id) {
    u in s.threads && (s.threads[u].pc == Unmarked(id, Serve) || s.threads[u].pc == Unmarked(id, Evict))
  }

  /** A holder of the entry has lost the id, or is bound to. */
  ghost predicate TooLate(s: State, id: Id) {
    LostByHolder(s.events, id) || exists u :: BoundToLose(s, u, id)
  }

  lemma BoundAfter(max: nat, s: State, t: Tid, step: Step, u: Tid, id: Id)
    requires Enabled(s, t, step) && BoundToLose(s, u, id)
    ensures InHand(s.threads[u].pc) == Some(id)
    ensures BoundToLose(Next(max, s, t, step), u, id) || (t == u && step == TakePending)
  {
    hide Next, Enabled;
    OnlyThread(max, s, t, step);
    if t == u {
      BoundTakes(s, t, step, id);
    }
  }

  lemma BoundTakes(s: State, t: Tid, step: Step, id: Id)
    requires Enabled(s, t, step) && BoundToLose(s, t, id)
    ensures step == TakePending
  {
  }

  /** Once it is too late for a marker, it stays too late and the marker stays set. */
  lemma StepKeepsOrphan(max: nat, s: State, t: Tid, step: Step, id: Id)
    requires Safe(max, s) && MarkersOk(s) && id in s.markers && TooLate(s, id)
    ensures var s' := Next(max, s, t, step);
            id in s'.markers && TooLate(s', id)
  {
    hide SlotsOk, ThreadsOk, PcsOk, OnePlace, NoneLost, EventsOk, OneMarker, OwedHasEntry, Next, Enabled, LostByHolder, InHand, BoundToLose, Setting;
    if Enabled(s, t, step) {
      NewLoss(max, s, t, step, id);
      MarkerMoves(max, s, t, step);
      OrphanNotHeld(s, t, step, id);
      if u :| BoundToLose(s, u, id) {
        BoundAfter(max, s, t, step, u, id);
      }
    } else {
      Disabled(max, s, t, step);
    }
  }

  /** Nobody looks for a marker it is too late for. */
  lemma OrphanNotHeld(s: State, t: Tid, step: Step, id: Id)
    requires OnePlace(s) && LostIsGone(s) && TooLate(s, id) && Enabled(s, t, step)
    ensures InHand(s.threads[t].pc) == Some(id) ==> step != LookForMarker
  {
    hide LostByHolder;
  }

  lemma {:induction false} OrphanStays(max: nat, s: State, steps: seq<(Tid, Step)>, id: Id)
    requires Safe(max, s) && MarkersOk(s) && id in s.markers && TooLate(s, id)
    ensures id in Run(max, s, steps).markers
    decreases |steps|
  {
    hide Safe, MarkersOk, TooLate, Next;
    if steps != [] {
      var t, step := steps[0].0, steps[0].1;
      StepIsSafe(max, s, t, step);
      StepKeepsMarkers(max, s, t, step);
      StepKeepsOrphan(max, s, t, step, id);
      OrphanStays(max, Next(max, s, t, step), steps[1..], id);
    }
  }

  /** Some continuation collects the marker. */
  ghost predicate Collectable(max: nat, s: State, id: Id) {
    exists steps: seq<(Tid, Step)> :: id !in Run(max, s, steps).markers
  }

  lemma CollectLater(max: nat, s: State, t: Tid, step: Step, id: Id)
    requires Collectable(max, Next(max, s, t, step), id)
    ensures Collectable(max, s, id)
  {
    hide Next;
    var s' := Next(max, s, t, step);
    var steps: seq<(Tid, Step)> :| id !in Run(max, s', steps).markers;
    var all := [(t, step)] + steps;
    assert all[1..] == steps && id !in Run(max, s, all).markers;
  }

  lemma CollectedNow(max: nat, s: State, id: Id)
    requires id !in s.markers
    ensures Collectable(max, s, id)
  {
    assert id !in Run(max, s, []).markers;
  }

  /** A thread that has the entry in hand and is to look for the marker collects it. */
  lemma HolderCollects(max: nat, s: State, u: Tid, id: Id)
    requires u in s.threads && s.threads[u].pc.Holding? && s.threads[u].pc.id == id
    ensures Collectable(max, s, id)
  {
    hide Collectable;
    CollectedNow(max, Next(max, s, u, LookForMarker), id);
    CollectLater(max, s, u, LookForMarker, id);
  }

  /** Whoever set the marker can release its slot and then pick the queued entry itself. */
  lemma QueuedCollectable(max: nat, s: State, t: Tid, id: Id)
    requires t in s.threads && s.threads[t].pc == ToRelease && id in s.queued
    ensures Collectable(max, s, id)
  {
    hide Collectable;
    var loaded := Next(max, s, t, LoadForRelease);
    var idle := Next(max, loaded, t, TryRelease);
    HolderCollects(max, Next(max, idle, t, Pick(id, Purge)), t, id);
    CollectLater(max, idle, t, Pick(id, Purge), id);
    CollectLater(max, loaded, t, TryRelease, id);
    CollectLater(max, s, t, LoadForRelease, id);
  }

  /** Nor is it too late while a holder may still put its entry back, or has not looked yet. */
  lemma HeldCollectable(max: nat, s: State, t: Tid, u: Tid, id: Id)
    requires Safe(max, s) && MarkersOk(s) && id in s.markers && t in s.threads && s.threads[t].pc == ToRelease
    requires u in s.threads && InHand(s.threads[u].pc) == Some(id) && !BoundToLose(s, u, id)
    ensures Collectable(max, s, id)
  {
    hide Collectable, SlotsOk, ThreadsOk, OnePlace, NoneLost, EventsOk, LostIsGone, OwedHasEntry;
    assert PcOk(s, s.threads[u].pc);
    assert !Collecting(s, u, id);
    match s.threads[u].pc
    case Registered(_) =>
      QueuedCollectable(max, Next(max, s, u, Push), t, id);
      CollectLater(max, s, u, Push, id);
    case Holding(_, _) =>
      HolderCollects(max, s, u, id);
    case Unmarked(_, _) =>
      QueuedCollectable(max, Next(max, s, u, PutBack), t, id);
      CollectLater(max, s, u, PutBack, id);
    case _ =>
  }

  /** So a cancel's marker, at the step that sets it, can still be collected if and only if no holder of the
      entry has lost the id yet and none is past its look for a marker with only the id left to take.
      Otherwise the marker stays set in every continuation. */
  lemma SetMarkerCollectedExactly(max: nat, s: State, t: Tid, id: Id)
    requires Reachable(max, s) && Setting(s, t, id)
    ensures Collectable(max, Next(max, s, t, SetMarker), id) <==> !TooLate(s, id)
  {
    hide Reachable, LostByHolder, Safe, MarkersOk, Run, Collectable, Somewhere, BoundToLose;
    var s' := ReachNext(max, s, t, SetMarker);
    ReachableMarkers(max, s');
    MarkerHasEntryExactly(max, s', id);
    SetterReleases(max, s, t, id);
    if TooLate(s', id) {
      OrphanUncollectable(max, s', id);
    } else if id in s'.queued {
      QueuedCollectable(max, s', t, id);
    } else {
      var u := Holder(s', id);
      HeldCollectable(max, s', t, u, id);
    }
  }

  lemma OrphanUncollectable(max: nat, s: State, id: Id)
    requires Safe(max, s) && MarkersOk(s) && id in s.markers && TooLate(s, id)
    ensures !Collectable(max, s, id)
  {
    hide Safe, MarkersOk, TooLate, Run;
    forall steps: seq<(Tid, Step)> ensures id in Run(max, s, steps).markers {
      OrphanStays(max, s, steps, id);
    }
  }

  lemma Holder(s: State, id: Id) returns (u: Tid)
    requires Somewhere(s, id) && id !in s.queued
    ensures u in s.threads && InHand(s.threads[u].pc) == Some(id)
  {
    u :| u in s.threads && InHand(s.threads[u].pc) == Some(id);
  }

  lemma SetterReleases(max: nat, s: State, t: Tid, id: Id)
    requires Setting(s, t, id)
    ensures var s' := Next(max, s, t, SetMarker);
            && t in s'.threads && s'.threads[t].pc == ToRelease && id in s'.markers && s'.events == s.events
            && (forall u :: BoundToLose(s', u, id) <==> BoundToLose(s, u, id))
  {
  }
}
