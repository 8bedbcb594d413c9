/** The slot and pending-id protocol, interleaved: every atomic operation on the slot counter, the pending
    set and the marker set is one step of one thread, and any thread may step next. */
module SlotProtocol {
  import opened Types
  import opened Sums

  type Tid = nat

  /** Why a thread holds an entry: scanning it in a purge, dropping dead heads in a ring visit, popping an
      affordable head, or evicting it for a newcomer. */
  datatype Purpose = Purge | Heads | Serve | Evict

  datatype Winner = ByCancel | ByHolder(purpose: Purpose)

  /** Where a thread is between two atomic operations. */
  datatype Pc =
    | Idle
    | Reserving(seen: nat)               // in the CAS loop of try_reserve_slot
    | Reserved                           // with a slot for a newcomer
    | Numbered(id: Id)                   // next_handle done
    | Registered(id: Id)                 // register_pending done, entry not queued yet
    | Holding(id: Id, purpose: Purpose)  // entry in hand under the shard lock, marker not looked at
    | Unmarked(id: Id, purpose: Purpose)
    | Marked(id: Id, purpose: Purpose)   // marker found and taken
    | Collecting                         // between two entries of a purge
    | CancelWon(id: Id)                  // cancel took the pending id, marker not set yet
    | ToRelease
    | Releasing(seen: nat)               // in the CAS loop of release_reserved_slots

  /** A thread and the slots it answers for. */
  datatype Thread = Thread(pc: Pc, held: nat)

  /** The outcome of one `take_pending`. */
  datatype Event = Won(id: Id, who: Winner) | Lost(id: Id, who: Winner)

  /** `queueLen` is the slot counter; `queued` the entries in some tenant queue; the last two are history. */
  datatype State = State(queueLen: nat, pending: set<Id>, markers: set<Id>, nextId: nat, queued: set<Id>,
                         threads: map<Tid, Thread>, taken: map<Id, Winner>, events: seq<Event>) {
    function At(t: Tid, pc: Pc, held: nat): State {
      this.(threads := threads[t := Thread(pc, held)])
    }
  }

  datatype Step =
    | BeginReserve
    | TryReserve
    | NextHandle
    | Register
    | Push
    | Pick(id: Id, purpose: Purpose)
    | LookForMarker
    | PutBack
    | TakePending
    | Discard
    | EndPurge
    | LoadForRelease
    | TryRelease
    | Cancel(id: Id)
    | SetMarker

  /** Where a holder goes after it lost, or won, the race for its entry's id. */
  function AfterLoss(purpose: Purpose): Pc {
    if purpose == Purge then Collecting else Idle
  }

  function AfterWin(purpose: Purpose): Pc {
    match purpose
    case Purge => Collecting
    case Heads => ToRelease
    case Serve => ToRelease
    case Evict => Reserved
  }

  /** `take_pending(id)` by thread `t`. */
  function Taking(s: State, t: Tid, id: Id, who: Winner, won: Pc, lost: Pc): State
    requires t in s.threads
  {
    var held := s.threads[t].held;
    if id in s.pending then
      s.(pending := s.pending - {id}, taken := s.taken[id := who], events := s.events + [Won(id, who)]).At(t, won, held + 1)
    else s.(events := s.events + [Lost(id, who)]).At(t, lost, held)
  }

  predicate Enabled(s: State, t: Tid, step: Step) {
    t in s.threads &&
    var pc := s.threads[t].pc;
    match step
    case BeginReserve => pc.Idle?
    case TryReserve => pc.Reserving?
    case NextHandle => pc.Reserved?
    case Register => pc.Numbered?
    case Push => pc.Registered?
    case Pick(id, purpose) => id in s.queued && (pc.Idle? || (pc.Collecting? && purpose == Purge))
    case LookForMarker => pc.Holding?
    case PutBack => pc.Unmarked? && (pc.purpose == Purge || pc.purpose == Heads)
    case TakePending => pc.Unmarked? || (pc.Marked? && (pc.purpose == Purge || pc.purpose == Evict))
    case Discard => pc.Marked? && (pc.purpose == Heads || pc.purpose == Serve)
    case EndPurge => pc.Collecting?
    case LoadForRelease => pc.ToRelease?
    case TryRelease => pc.Releasing?
    case Cancel(id) => pc.Idle?
    case SetMarker => pc.CancelWon?
  }

  /** One atomic step of thread `t`. */
  function Do(max: nat, s: State, t: Tid, step: Step): State
    requires Enabled(s, t, step)
  {
    var pc, held := s.threads[t].pc, s.threads[t].held;
    match step
    case BeginReserve => s.At(t, Reserving(s.queueLen), held)
    case TryReserve =>
      if pc.seen >= max then s.At(t, Idle, held)
      else if s.queueLen == pc.seen then s.(queueLen := pc.seen + 1).At(t, Reserved, held + 1)
      else s.At(t, Reserving(s.queueLen), held)
    case NextHandle => s.(nextId := s.nextId + 1).At(t, Numbered(s.nextId + 1), held)
    case Register => s.(pending := s.pending + {pc.id}).At(t, Registered(pc.id), SatSub(held, 1))
    case Push => s.(queued := s.queued + {pc.id}).At(t, Idle, held)
    case Pick(id, purpose) => s.(queued := s.queued - {id}).At(t, Holding(id, purpose), held)
    case LookForMarker =>
      if pc.id in s.markers then s.(markers := s.markers - {pc.id}).At(t, Marked(pc.id, pc.purpose), held)
      else s.At(t, Unmarked(pc.id, pc.purpose), held)
    case PutBack => s.(queued := s.queued + {pc.id}).At(t, AfterLoss(pc.purpose), held)
    case TakePending => Taking(s, t, pc.id, ByHolder(pc.purpose), AfterWin(pc.purpose), AfterLoss(pc.purpose))
    case Discard => s.At(t, Idle, held)
    case EndPurge => s.At(t, if held == 0 then Idle else ToRelease, held)
    case LoadForRelease => s.At(t, Releasing(s.queueLen), held)
    case TryRelease =>
      if s.queueLen == pc.seen then s.(queueLen := SatSub(pc.seen, held)).At(t, Idle, 0)
      else s.At(t, Releasing(s.queueLen), held)
    case Cancel(id) => Taking(s, t, id, ByCancel, CancelWon(id), Idle)
    case SetMarker => s.(markers := s.markers + {pc.id}).At(t, ToRelease, held)
  }

  /** A step that is not enabled changes nothing. Any thread may pick any queued entry for any purpose at
      any time, which allows more interleavings than the shard locks do. */
  function Next(max: nat, s: State, t: Tid, step: Step): State {
    if Enabled(s, t, step) then Do(max, s, t, step) else s
  }

  /** A run: which thread does what, in which order. */
  function Run(max: nat, s: State, steps: seq<(Tid, Step)>): State
    decreases |steps|
  {
    if steps == [] then s else Run(max, Next(max, s, steps[0].0, steps[0].1), steps[1..])
  }

  function Start(tids: set<Tid>): State {
    State(0, {}, {}, 0, {}, map t | t in tids :: Thread(Idle, 0), map[], [])
  }

  // ---------------------------------------------------------------- invariants

  ghost function HeldBy(threads: map<Tid, Thread>): map<Tid, nat> {
    map t | t in threads :: threads[t].held
  }

  /** Slots in hand: reserved but not registered, taken but not released, or evicted to be reused. */
  ghost function SlotsInHand(s: State): nat {
    SumMap(HeldBy(s.threads))
  }

  /** The slot law. */
  ghost predicate SlotsOk(max: nat, s: State) {
    s.queueLen == |s.pending| + SlotsInHand(s) <= max
  }

  ghost predicate HeldOk(th: Thread) {
    match th.pc
    case Idle => th.held == 0
    case Reserving(_) => th.held == 0
    case Reserved => th.held == 1
    case Numbered(_) => th.held == 1
    case Registered(_) => th.held == 0
    case Holding(_, p) => p != Purge ==> th.held == 0
    case Unmarked(_, p) => p != Purge ==> th.held == 0
    case Marked(_, p) => p != Purge ==> th.held == 0
    case Collecting => true
    case CancelWon(_) => th.held == 1
    case ToRelease => th.held >= 1
    case Releasing(_) => th.held >= 1
  }

  ghost predicate ThreadsOk(s: State) {
    forall t :: t in s.threads ==> HeldOk(s.threads[t])
  }

  /** The id whose entry, or whose number, this thread alone has. */
  function InHand(pc: Pc): Option<Id> {
    match pc
    case Numbered(id) => Some(id)
    case Registered(id) => Some(id)
    case Holding(id, _) => Some(id)
    case Unmarked(id, _) => Some(id)
    case Marked(id, _) => Some(id)
    case _ => None
  }

  ghost predicate Known(s: State, id: Id) {
    id in s.pending || id in s.taken
  }

  /** Ids are handed out once; an id is pending or won, never both; a marker means a cancel won. */
  ghost predicate IdsOk(s: State) {
    && (forall id: Id :: id in s.pending ==> 1 <= id <= s.nextId)
    && (forall id: Id :: id in s.taken ==> 1 <= id <= s.nextId)
    && s.pending !! s.taken.Keys
    && (forall id: Id :: id in s.queued ==> Known(s, id))
    && (forall id: Id :: id in s.markers ==> id in s.taken && s.taken[id] == ByCancel)
  }

  ghost predicate PcOk(s: State, pc: Pc) {
    match pc
    case Numbered(id) => 1 <= id <= s.nextId && !Known(s, id)
    case Registered(id) => Known(s, id)
    case Holding(id, _) => Known(s, id)
    case Unmarked(id, _) => Known(s, id)
    case Marked(id, _) => id in s.taken && s.taken[id] == ByCancel
    case CancelWon(id) => id in s.taken && s.taken[id] == ByCancel
    case _ => true
  }

  ghost predicate PcsOk(s: State) {
    forall t :: t in s.threads ==> PcOk(s, s.threads[t].pc)
  }

  /** Every entry is in one place: one thread's hand, or the queues. */
  ghost predicate OnePlace(s: State) {
    && (forall t, u :: t in s.threads && u in s.threads && t != u && InHand(s.threads[t].pc).Some? ==>
          InHand(s.threads[t].pc) != InHand(s.threads[u].pc))
    && (forall t :: t in s.threads && InHand(s.threads[t].pc).Some? ==> InHand(s.threads[t].pc).value !in s.queued)
  }

  ghost predicate Somewhere(s: State, id: Id) {
    id in s.queued || exists t :: t in s.threads && InHand(s.threads[t].pc) == Some(id)
  }

  /** No pending id has lost its entry. */
  ghost predicate NoneLost(s: State) {
    forall id: Id :: id in s.pending ==> Somewhere(s, id)
  }

  ghost predicate WonIn(events: seq<Event>, id: Id) {
    exists i :: 0 <= i < |events| && events[i].Won? && events[i].id == id
  }

  ghost predicate WinnersAreTaken(taken: map<Id, Winner>, events: seq<Event>) {
    && (forall id: Id :: id in taken <==> WonIn(events, id))
    && (forall i :: 0 <= i < |events| && events[i].Won? ==>
          events[i].id in taken && taken[events[i].id] == events[i].who)
  }

  ghost predicate WonOnce(events: seq<Event>) {
    forall i, j :: 0 <= i < j < |events| && events[i].Won? && events[i].id == events[j].id ==> events[j].Lost?
  }

  ghost predicate LostToWinner(events: seq<Event>) {
    forall j :: 0 <= j < |events| && events[j].Lost? && events[j].who != ByCancel ==> WonIn(events[..j], events[j].id)
  }

  /** Each id is won at most once, by whom `taken` says; whoever held the entry and lost, lost to an
      earlier winner. */
  ghost predicate EventsOk(s: State) {
    WinnersAreTaken(s.taken, s.events) && WonOnce(s.events) && LostToWinner(s.events)
  }

  ghost predicate Safe(max: nat, s: State) {
    SlotsOk(max, s) && ThreadsOk(s) && IdsOk(s) && PcsOk(s) && OnePlace(s) && NoneLost(s) && EventsOk(s)
  }

  // ---------------------------------------------------------------- one step keeps them

  lemma HeldAfter(s: State, t: Tid, pc: Pc, held: nat)
    requires t in s.threads
    ensures SlotsInHand(s.At(t, pc, held)) == SlotsInHand(s) + held - s.threads[t].held
    ensures s.threads[t].held <= SlotsInHand(s)
  {
    var m := HeldBy(s.threads);
    assert HeldBy(s.At(t, pc, held).threads) == m[t := held];
    SumWrite(m, t, held);
    SumBounds(m, t);
  }

  lemma SameHeld(a: State, b: State)
    requires a.threads == b.threads
    ensures SlotsInHand(a) == SlotsInHand(b)
  {
  }

  lemma TakingKeepsSlots(max: nat, s: State, t: Tid, id: Id, who: Winner, won: Pc, lost: Pc)
    requires SlotsOk(max, s) && t in s.threads
    ensures SlotsOk(max, Taking(s, t, id, who, won, lost))
  {
    hide SlotsInHand;
    var s', held := Taking(s, t, id, who, won, lost), s.threads[t].held;
    HeldAfter(s, t, won, held + 1);
    HeldAfter(s, t, lost, held);
    SameHeld(s', if id in s.pending then s.At(t, won, held + 1) else s.At(t, lost, held));
  }

  lemma RegisterKeepsSlots(max: nat, s: State, t: Tid)
    requires SlotsOk(max, s) && Enabled(s, t, Register) && HeldOk(s.threads[t]) && PcOk(s, s.threads[t].pc)
    ensures SlotsOk(max, Next(max, s, t, Register))
  {
    hide SlotsInHand;
    var id: Id := s.threads[t].pc.id;
    HeldAfter(s, t, Registered(id), 0);
    SameHeld(Next(max, s, t, Register), s.At(t, Registered(id), 0));
  }

  lemma ReserveKeepsSlots(max: nat, s: State, t: Tid)
    requires SlotsOk(max, s) && Enabled(s, t, TryReserve) && HeldOk(s.threads[t])
    ensures SlotsOk(max, Next(max, s, t, TryReserve))
  {
    hide SlotsInHand;
    var s' := Next(max, s, t, TryReserve);
    var th := s'.threads[t];
    HeldAfter(s, t, th.pc, th.held);
    SameHeld(s', s.At(t, th.pc, th.held));
  }

  /** The CAS loop of a release never meets a counter smaller than what it gives back. */
  lemma ReleaseKeepsSlots(max: nat, s: State, t: Tid)
    requires SlotsOk(max, s) && Enabled(s, t, TryRelease) && HeldOk(s.threads[t])
    ensures SlotsOk(max, Next(max, s, t, TryRelease))
    ensures s.threads[t].held <= s.queueLen
  {
    hide SlotsInHand;
    var s' := Next(max, s, t, TryRelease);
    var th := s'.threads[t];
    HeldAfter(s, t, th.pc, th.held);
    SameHeld(s', s.At(t, th.pc, th.held));
  }

  predicate MovesSlots(step: Step) {
    step.TryReserve? || step.Register? || step.TakePending? || step.TryRelease? || step.Cancel?
  }

  lemma OthersKeepSlots(max: nat, s: State, t: Tid, step: Step)
    requires SlotsOk(max, s) && Enabled(s, t, step) && !MovesSlots(step)
    ensures SlotsOk(max, Next(max, s, t, step))
  {
    hide SlotsInHand;
    var s' := Next(max, s, t, step);
    var th := s'.threads[t];
    assert s'.threads == s.threads[t := th] && th.held == s.threads[t].held;
    assert s'.queueLen == s.queueLen && s'.pending == s.pending;
    HeldAfter(s, t, th.pc, th.held);
    SameHeld(s', s.At(t, th.pc, th.held));
  }

  lemma StepKeepsSlots(max: nat, s: State, t: Tid, step: Step)
    requires SlotsOk(max, s) && ThreadsOk(s) && PcsOk(s)
    ensures SlotsOk(max, Next(max, s, t, step))
  {
    hide SlotsOk, Taking, HeldOk, PcOk;
    if Enabled(s, t, step) {
      var pc := s.threads[t].pc;
      match step
      case TryReserve => ReserveKeepsSlots(max, s, t);
      case Register => RegisterKeepsSlots(max, s, t);
      case TakePending => TakingKeepsSlots(max, s, t, pc.id, ByHolder(pc.purpose), AfterWin(pc.purpose), AfterLoss(pc.purpose));
      case TryRelease => ReleaseKeepsSlots(max, s, t);
      case Cancel(id) => TakingKeepsSlots(max, s, t, id, ByCancel, CancelWon(id), Idle);
      case _ => OthersKeepSlots(max, s, t, step);
    }
  }

  lemma StepKeepsThreads(max: nat, s: State, t: Tid, step: Step)
    requires ThreadsOk(s)
    ensures ThreadsOk(Next(max, s, t, step))
  {
    hide HeldOk;
    var s' := Next(max, s, t, step);
    if Enabled(s, t, step) {
      OwnHeldOk(max, s, t, step);
      OnlyThread(max, s, t, step);
    }
  }

  lemma OwnHeldOk(max: nat, s: State, t: Tid, step: Step)
    requires Enabled(s, t, step) && HeldOk(s.threads[t])
    ensures t in Next(max, s, t, step).threads && HeldOk(Next(max, s, t, step).threads[t])
  {
  }

  lemma OnlyThread(max: nat, s: State, t: Tid, step: Step)
    requires Enabled(s, t, step)
    ensures var s' := Next(max, s, t, step);
            s'.threads.Keys == s.threads.Keys && forall u :: u in s.threads && u != t ==> s'.threads[u] == s.threads[u]
  {
  }

  /** What one step may do to what is known of ids: known ids stay known and winners stay winners; the
      only id that can become known is the one its thread has in hand. */
  lemma StepGrows(max: nat, s: State, t: Tid, step: Step)
    requires Enabled(s, t, step) && IdsOk(s)
    ensures var s' := Next(max, s, t, step);
            && s.nextId <= s'.nextId
            && (forall id: Id :: Known(s, id) ==> Known(s', id))
            && (forall id: Id :: Known(s', id) && !Known(s, id) ==> step == Register && InHand(s.threads[t].pc) == Some(id))
            && (forall id: Id :: id in s.taken ==> id in s'.taken && s'.taken[id] == s.taken[id])
  {
  }

  lemma StepKeepsIds(max: nat, s: State, t: Tid, step: Step)
    requires IdsOk(s) && PcsOk(s) && OnePlace(s)
    ensures IdsOk(Next(max, s, t, step))
  {
    hide PcsOk, InHand;
    if Enabled(s, t, step) {
      assert PcOk(s, s.threads[t].pc) by { OnePcOk(s, t); }
    }
  }

  lemma OnePcOk(s: State, t: Tid)
    requires PcsOk(s) && t in s.threads
    ensures PcOk(s, s.threads[t].pc)
  {
  }

  lemma OwnPcOk(max: nat, s: State, t: Tid, step: Step)
    requires Enabled(s, t, step) && IdsOk(s) && PcOk(s, s.threads[t].pc)
    ensures t in Next(max, s, t, step).threads && PcOk(Next(max, s, t, step), Next(max, s, t, step).threads[t].pc)
  {
  }

  lemma StepKeepsPcs(max: nat, s: State, t: Tid, step: Step)
    requires IdsOk(s) && PcsOk(s) && OnePlace(s)
    ensures PcsOk(Next(max, s, t, step))
  {
    hide IdsOk, PcOk, Next, Known;
    var s' := Next(max, s, t, step);
    if Enabled(s, t, step) {
      OwnPcOk(max, s, t, step);
      OnlyThread(max, s, t, step);
      StepGrows(max, s, t, step);
      forall u | u in s'.threads ensures PcOk(s', s'.threads[u].pc) {
        if u != t {
          OtherPcOk(s, s', s.threads[u].pc, InHand(s.threads[t].pc));
        }
      }
    } else {
      Disabled(max, s, t, step);
    }
  }

  lemma Disabled(max: nat, s: State, t: Tid, step: Step)
    requires !Enabled(s, t, step)
    ensures Next(max, s, t, step) == s
  {
  }

  lemma OtherPcOk(s: State, s': State, pc: Pc, hand: Option<Id>)
    requires PcOk(s, pc) && (hand.Some? ==> InHand(pc) != hand)
    requires s.nextId <= s'.nextId
    requires forall id: Id :: Known(s, id) ==> Known(s', id)
    requires forall id: Id :: Known(s', id) && !Known(s, id) ==> hand == Some(id)
    requires forall id: Id :: id in s.taken ==> id in s'.taken && s'.taken[id] == s.taken[id]
    ensures PcOk(s', pc)
  {
  }

  /** How the entry in a thread's hand changes in one step: it stays, goes to the queues, is dropped, is
      picked from the queues, or is a fresh number. */
  lemma HandMoves(max: nat, s: State, t: Tid, step: Step)
    requires Enabled(s, t, step)
    ensures var s' := Next(max, s, t, step);
            t in s'.threads &&
            var hand, hand' := InHand(s.threads[t].pc), InHand(s'.threads[t].pc);
            || (hand' == hand && s'.queued == s.queued)
            || (hand' == None && s'.queued == s.queued)
            || (hand' == None && hand.Some? && s'.queued == s.queued + {hand.value})
            || (hand' == Some(s.nextId + 1) && hand == None && s'.queued == s.queued)
            || (hand'.Some? && hand == None && hand'.value in s.queued && s'.queued == s.queued - {hand'.value})
  {
  }

  lemma HandsKnown(s: State, u: Tid)
    requires u in s.threads && IdsOk(s) && PcsOk(s) && InHand(s.threads[u].pc).Some?
    ensures InHand(s.threads[u].pc).value <= s.nextId
  {
    assert PcOk(s, s.threads[u].pc);
  }

  lemma StepKeepsPlaces(max: nat, s: State, t: Tid, step: Step)
    requires IdsOk(s) && PcsOk(s) && OnePlace(s)
    ensures OnePlace(Next(max, s, t, step))
  {
    hide PcOk, Next, Known, Enabled;
    if Enabled(s, t, step) {
      var s' := Next(max, s, t, step);
      OnlyThread(max, s, t, step);
      HandMoves(max, s, t, step);
      QueuedKnown(s, s.nextId + 1);
      forall u | u in s.threads && InHand(s.threads[u].pc).Some? ensures InHand(s.threads[u].pc).value <= s.nextId {
        HandsKnown(s, u);
      }
    } else {
      Disabled(max, s, t, step);
    }
  }

  lemma QueuedKnown(s: State, id: Id)
    requires IdsOk(s)
    ensures id in s.queued ==> id <= s.nextId
  {
  }

  /** Whoever lets go of an entry other than into the queues has just won its id, or found it won. */
  lemma DroppedIsTaken(max: nat, s: State, t: Tid, step: Step, id: Id)
    requires Enabled(s, t, step) && IdsOk(s) && PcOk(s, s.threads[t].pc)
    requires InHand(s.threads[t].pc) == Some(id)
    ensures var s' := Next(max, s, t, step);
            t in s'.threads && (id in s'.pending ==> InHand(s'.threads[t].pc) == Some(id) || id in s'.queued)
  {
  }

  lemma NewlyPending(max: nat, s: State, t: Tid, step: Step, id: Id)
    requires Enabled(s, t, step)
    ensures id in Next(max, s, t, step).pending ==>
              id in s.pending || (InHand(s.threads[t].pc) == Some(id) && step == Register)
    ensures id in s.queued ==>
              var s' := Next(max, s, t, step);
              id in s'.queued || (t in s'.threads && InHand(s'.threads[t].pc) == Some(id))
  {
  }

  lemma StepKeepsEntries(max: nat, s: State, t: Tid, step: Step)
    requires IdsOk(s) && PcsOk(s) && NoneLost(s)
    ensures NoneLost(Next(max, s, t, step))
  {
    hide IdsOk, PcOk, Next, Enabled;
    if Enabled(s, t, step) {
      var s' := Next(max, s, t, step);
      OnlyThread(max, s, t, step);
      forall id: Id | id in s'.pending ensures Somewhere(s', id) {
        StaysSomewhere(max, s, t, step, id);
      }
    } else {
      Disabled(max, s, t, step);
    }
  }

  lemma StaysSomewhere(max: nat, s: State, t: Tid, step: Step, id: Id)
    requires Enabled(s, t, step) && IdsOk(s) && PcsOk(s) && NoneLost(s)
    requires id in Next(max, s, t, step).pending
    ensures Somewhere(Next(max, s, t, step), id)
  {
    hide IdsOk, PcOk, Next, InHand;
    var s' := Next(max, s, t, step);
    OnlyThread(max, s, t, step);
    NewlyPending(max, s, t, step, id);
    if InHand(s.threads[t].pc) == Some(id) {
      DroppedIsTaken(max, s, t, step, id);
    } else {
      assert Somewhere(s, id);
      if id !in s.queued {
        var u :| u in s.threads && InHand(s.threads[u].pc) == Some(id);
        assert InHand(s'.threads[u].pc) == Some(id);
      }
    }
  }

  lemma WonInLonger(events: seq<Event>, e: Event, id: Id)
    ensures WonIn(events + [e], id) <==> WonIn(events, id) || (e.Won? && e.id == id)
  {
    var all := events + [e];
    if WonIn(events, id) {
      var i :| 0 <= i < |events| && events[i].Won? && events[i].id == id;
      assert all[i] == events[i];
    }
    if e.Won? && e.id == id {
      assert all[|events|] == e;
    }
  }

  lemma WonMore(taken: map<Id, Winner>, events: seq<Event>, id: Id, who: Winner)
    requires WinnersAreTaken(taken, events) && WonOnce(events) && id !in taken
    ensures WinnersAreTaken(taken[id := who], events + [Won(id, who)]) && WonOnce(events + [Won(id, who)])
  {
    hide WonIn;
    forall x: Id ensures WonIn(events + [Won(id, who)], x) <==> WonIn(events, x) || id == x {
      WonInLonger(events, Won(id, who), x);
    }
  }

  lemma LostMore(taken: map<Id, Winner>, events: seq<Event>, id: Id, who: Winner)
    requires WinnersAreTaken(taken, events) && WonOnce(events)
    ensures WinnersAreTaken(taken, events + [Lost(id, who)]) && WonOnce(events + [Lost(id, who)])
  {
    hide WonIn;
    forall x: Id ensures WonIn(events + [Lost(id, who)], x) <==> WonIn(events, x) {
      WonInLonger(events, Lost(id, who), x);
    }
  }

  lemma LostLonger(events: seq<Event>, e: Event)
    requires LostToWinner(events) && (e.Lost? && e.who != ByCancel ==> WonIn(events, e.id))
    ensures LostToWinner(events + [e])
  {
    hide WonIn;
    var all := events + [e];
    forall j | 0 <= j < |all| && all[j].Lost? && all[j].who != ByCancel ensures WonIn(all[..j], all[j].id) {
      assert all[..j] == events[..j];
      assert events[..|events|] == events;
    }
  }

  lemma TakingKeepsEvents(s: State, t: Tid, id: Id, who: Winner, won: Pc, lost: Pc)
    requires EventsOk(s) && IdsOk(s) && t in s.threads && (who != ByCancel ==> Known(s, id))
    ensures EventsOk(Taking(s, t, id, who, won, lost))
  {
    hide WonOnce, LostToWinner;
    if id in s.pending {
      WonMore(s.taken, s.events, id, who);
      LostLonger(s.events, Won(id, who));
    } else {
      LostMore(s.taken, s.events, id, who);
      LostLonger(s.events, Lost(id, who));
    }
  }

  lemma StepKeepsEvents(max: nat, s: State, t: Tid, step: Step)
    requires IdsOk(s) && PcsOk(s) && EventsOk(s)
    ensures EventsOk(Next(max, s, t, step))
  {
    hide EventsOk, Taking;
    if Enabled(s, t, step) {
      var pc := s.threads[t].pc;
      assert PcOk(s, pc);
      match step
      case TakePending => TakingKeepsEvents(s, t, pc.id, ByHolder(pc.purpose), AfterWin(pc.purpose), AfterLoss(pc.purpose));
      case Cancel(id) => TakingKeepsEvents(s, t, id, ByCancel, CancelWon(id), Idle);
      case _ => SameEvents(s, Next(max, s, t, step));
    }
  }

  lemma SameEvents(s: State, s': State)
    requires EventsOk(s) && s'.events == s.events && s'.taken == s.taken
    ensures EventsOk(s')
  {
  }

  lemma StepIsSafe(max: nat, s: State, t: Tid, step: Step)
    requires Safe(max, s)
    ensures Safe(max, Next(max, s, t, step))
  {
    hide SlotsOk, ThreadsOk, IdsOk, PcsOk, OnePlace, NoneLost, EventsOk, Next;
    StepKeepsSlots(max, s, t, step);
    StepKeepsThreads(max, s, t, step);
    StepKeepsIds(max, s, t, step);
    StepKeepsPcs(max, s, t, step);
    StepKeepsPlaces(max, s, t, step);
    StepKeepsEntries(max, s, t, step);
    StepKeepsEvents(max, s, t, step);
  }

  lemma {:induction false} RunIsSafe(max: nat, s: State, steps: seq<(Tid, Step)>)
    requires Safe(max, s)
    ensures Safe(max, Run(max, s, steps))
    decreases |steps|
  {
    hide Safe, Next;
    if steps != [] {
      StepIsSafe(max, s, steps[0].0, steps[0].1);
      RunIsSafe(max, Next(max, s, steps[0].0, steps[0].1), steps[1..]);
    }
  }

  lemma StartIsSafe(max: nat, tids: set<Tid>)
    ensures Safe(max, Start(tids))
  {
    SumOfZeros(HeldBy(Start(tids).threads));
  }

  // ---------------------------------------------------------------- what every interleaving guarantees

  /** A state some interleaving of some threads reaches. */
  ghost predicate Reachable(max: nat, s: State) {
    exists tids: set<Tid>, steps: seq<(Tid, Step)> :: s == Run(max, Start(tids), steps)
  }

  lemma ReachableIsSafe(max: nat, s: State)
    requires Reachable(max, s)
    ensures Safe(max, s)
  {
    hide Safe, Run;
    var tids: set<Tid>, steps: seq<(Tid, Step)> :| s == Run(max, Start(tids), steps);
    StartIsSafe(max, tids);
    RunIsSafe(max, Start(tids), steps);
  }

  /** The slot counter is the pending ids plus the slots in threads' hands, never above the limit, and no
      release ever meets a counter smaller than what it gives back: its saturating subtraction is exact. */
  lemma SlotLaw(max: nat, s: State)
    requires Reachable(max, s)
    ensures s.queueLen == |s.pending| + SlotsInHand(s) <= max
    ensures forall t :: t in s.threads ==> s.threads[t].held <= s.queueLen
    ensures forall t :: Enabled(s, t, TryRelease) && s.threads[t].pc.seen == s.queueLen ==>
              Next(max, s, t, TryRelease).queueLen == s.queueLen - s.threads[t].held
  {
    hide IdsOk, PcsOk, OnePlace, NoneLost, EventsOk, SlotsInHand;
    ReachableIsSafe(max, s);
    forall t | t in s.threads ensures s.threads[t].held <= s.queueLen {
      HeldAfter(s, t, Idle, 0);
    }
  }

  /** A counter at zero, which a draining scheduler takes for being empty, means that nothing is pending, that
      no thread holds a slot, and that none is on its way to register or to release one. */
  lemma EmptyCounterExactly(max: nat, s: State)
    requires Reachable(max, s)
    ensures s.queueLen == 0 <==> s.pending == {} && forall t :: t in s.threads ==> s.threads[t].held == 0
    ensures s.queueLen == 0 ==> forall t :: t in s.threads ==>
              !s.threads[t].pc.Reserved? && !s.threads[t].pc.Numbered? && !s.threads[t].pc.CancelWon? &&
              !s.threads[t].pc.ToRelease? && !s.threads[t].pc.Releasing?
  {
    hide IdsOk, PcsOk, OnePlace, NoneLost, EventsOk, SlotsInHand, Reachable;
    ReachableIsSafe(max, s);
    SlotLaw(max, s);
    if s.pending == {} && forall t :: t in s.threads ==> s.threads[t].held == 0 {
      SumOfZeros(HeldBy(s.threads));
      NoneInHand(s);
    }
  }

  lemma NoneInHand(s: State)
    requires SumMap(HeldBy(s.threads)) == 0
    ensures SlotsInHand(s) == 0
  {
  }

  /** Each id is won at most once over the whole run, whoever races for it. So a task whose cancel
      succeeded is never delivered, a delivered task's later cancel finds nothing, nothing is delivered
      twice; and a holder that loses its entry's id lost it to an earlier winner. */
  lemma OneWinner(max: nat, s: State, i: nat, j: nat)
    requires Reachable(max, s) && i < |s.events| && j < |s.events|
    ensures i < j && s.events[i].Won? && s.events[i].id == s.events[j].id ==> s.events[j].Lost?
    ensures s.events[i].Won? && s.events[j].Won? && s.events[i].id == s.events[j].id ==> i == j
    ensures s.events[j].Lost? && s.events[j].who != ByCancel ==> WonIn(s.events[..j], s.events[j].id)
  {
    hide SlotsOk, ThreadsOk, IdsOk, PcsOk, OnePlace, NoneLost, WinnersAreTaken, WonIn, Reachable;
    ReachableIsSafe(max, s);
  }

  /** A pending task's entry is in the queues or in exactly one thread's hand, and nowhere else. */
  lemma PendingIsSomewhereOnce(max: nat, s: State, id: Id)
    requires Reachable(max, s)
    ensures id in s.pending ==> Somewhere(s, id)
    ensures forall t, u :: t in s.threads && u in s.threads && InHand(s.threads[t].pc) == InHand(s.threads[u].pc) == Some(id) ==>
              t == u && id !in s.queued
  {
    hide SlotsOk, ThreadsOk, IdsOk, PcsOk, EventsOk, Reachable, Somewhere, InHand;
    ReachableIsSafe(max, s);
  }

  /** A marker found on an entry means its cancel had won: taking the pending id after it always loses. */
  lemma MarkedMeansCancelled(max: nat, s: State, t: Tid)
    requires Reachable(max, s) && t in s.threads && s.threads[t].pc.Marked?
    ensures var id := s.threads[t].pc.id;
            id !in s.pending && Next(max, s, t, TakePending).pending == s.pending
  {
    hide SlotsOk, ThreadsOk, OnePlace, NoneLost, EventsOk, Reachable;
    ReachableIsSafe(max, s);
    assert PcOk(s, s.threads[t].pc);
  }

  lemma {:induction false} RunSnoc(max: nat, s: State, steps: seq<(Tid, Step)>, last: (Tid, Step))
    ensures Run(max, s, steps + [last]) == Next(max, Run(max, s, steps), last.0, last.1)
    decreases |steps|
  {
    hide Next;
    if steps == [] {
      assert ([] + [last])[1..] == [] && [] + [last] == [last];
      assert Run(max, s, [last]) == Run(max, Next(max, s, last.0, last.1), []);
    } else {
      assert (steps + [last])[1..] == steps[1..] + [last];
      RunSnoc(max, Next(max, s, steps[0].0, steps[0].1), steps[1..], last);
    }
  }

  lemma ReachNext(max: nat, s: State, t: Tid, step: Step) returns (s': State)
    requires Reachable(max, s)
    ensures s' == Next(max, s, t, step) && Reachable(max, s')
  {
    hide Run, Next;
    var tids: set<Tid>, steps: seq<(Tid, Step)> :| s == Run(max, Start(tids), steps);
    RunSnoc(max, Start(tids), steps, (t, step));
    s' := Next(max, s, t, step);
  }

  const TWO_IDLE: map<Tid, Thread> := map[0 := Thread(Idle, 0), 1 := Thread(Idle, 0)]

  lemma OneTaskQueued() returns (s: State)
    ensures Reachable(1, s) && s == State(1, {1}, {}, 1, {1}, TWO_IDLE, map[], [])
  {
    hide Reachable;
    StartReached(1, {0, 1});
    s := ReachNext(1, Start({0, 1}), 0, BeginReserve);
    s := ReachNext(1, s, 0, TryReserve);
    assert s == State(1, {}, {}, 0, {}, TWO_IDLE[0 := Thread(Reserved, 1)], map[], []);
    s := ReachNext(1, s, 0, NextHandle);
    s := ReachNext(1, s, 0, Register);
    s := ReachNext(1, s, 0, Push);
  }

  lemma CancelledWhileHeld() returns (s: State)
    ensures Reachable(1, s)
    ensures s == State(1, {}, {}, 1, {}, TWO_IDLE[0 := Thread(Unmarked(1, Serve), 0)][1 := Thread(CancelWon(1), 1)],
                       map[1 := ByCancel], [Won(1, ByCancel)])
  {
    hide Reachable;
    s := OneTaskQueued();
    s := ReachNext(1, s, 1, Cancel(1));
    s := ReachNext(1, s, 0, Pick(1, Serve));
    s := ReachNext(1, s, 0, LookForMarker);
  }

  /** Unlike in the sequential scheduler a marker may outlive its entry: a cancel that won sets its marker
      only after the loser has already dropped the entry. */
  lemma MarkerMayOutliveEntry() returns (s: State)
    ensures Reachable(1, s) && s.markers == {1} && s.queued == {} && s.pending == {}
    ensures forall t :: t in s.threads ==> InHand(s.threads[t].pc) == None
  {
    hide Reachable;
    s := CancelledWhileHeld();
    s := ReachNext(1, s, 0, TakePending);
    s := ReachNext(1, s, 1, SetMarker);
  }

  lemma StartReached(max: nat, tids: set<Tid>)
    ensures Reachable(max, Start(tids))
  {
    assert Start(tids) == Run(max, Start(tids), []);
  }
}
