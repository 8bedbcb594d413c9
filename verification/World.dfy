/** The scheduler on values: what one lock section (an enqueue, a cancel, one ring visit, a quantum
    change) does to shards, id sets and counters. `clock.now(k)` is the k-th time sample the run takes. */
module World {
  import opened Types

  /** Reading number k of the clock gives `now(k)`. */
  datatype Clock = Clock(now: nat -> Time)

  datatype Policy = Reject | DropOldest | DropNewest | Timeout(wait: nat)

  datatype Reason = GlobalFull | TenantFull | TimedOut

  datatype Config = Config(maxGlobal: nat, maxPerTenant: nat, policy: Policy, policyByTenant: map<Tenant, Policy>)

  function PolicyFor(cfg: Config, t: Tenant): Policy {
    if t in cfg.policyByTenant then cfg.policyByTenant[t] else cfg.policy
  }

  // ---------------------------------------------------------------- ids, counters and history

  datatype Stats = Stats(enqueued: nat, dequeued: nat, expired: nat, dropped: nat, rejectedGlobal: nat,
                         rejectedTenant: nat, timeoutRejected: nat, droppedPolicy: nat, queueLen: nat,
                         queueTimeSum: nat, queueTimeSamples: nat, purgeRuns: nat)

  const NO_STATS := Stats(0, 0, 0, 0, 0, 0, 0, 0, 0, 0, 0, 0)

  /** What one ring visit did, oldest first. */
  datatype Outcome =
    | Idle
    | Refilled(id: Id, cost: nat, deficit: int, quantum: int)
    | Served(id: Id, cost: nat, deficit: int, queueTime: nat)
    | Discarded

  datatype Visit = Visit(tenant: Tenant, priority: Priority, now: Time, outcome: Outcome)

  datatype Log = Start | Then(before: Log, visit: Visit)

  datatype Accepted = Accepted(tenant: Tenant, task: Task)

  /** The run so far, as a reader of the code would tell it; the scheduler itself keeps none of it. */
  datatype History = History(accepted: map<Id, Accepted>, dispatched: set<Id>, expired: set<Id>,
                             evicted: set<Id>, withdrawn: set<Id>, log: Log)

  const NO_HISTORY := History(map[], {}, {}, {}, {}, Start)

  datatype Books = Books(pending: set<Id>, cancelled: set<Id>, nextId: nat, stats: Stats, history: History) {
    function Logging(v: Visit): Books {
      this.(history := history.(log := Then(history.log, v)))
    }
  }

  function Ids(q: seq<Entry>): set<Id> {
    set e | e in q :: e.id
  }

  /** Entries with these ids left their queues because they were cancelled or expired. */
  function Reap(b: Books, removed: set<Id>): Books {
    var live := removed * b.pending;
    b.(pending := b.pending - removed,
       cancelled := b.cancelled - removed,
       stats := b.stats.(expired := b.stats.expired + |live|, queueLen := SatSub(b.stats.queueLen, |live|)),
       history := b.history.(expired := b.history.expired + live))
  }

  function RecordReject(b: Books, reason: Reason): Books {
    var s := b.stats.(dropped := b.stats.dropped + 1);
    b.(stats :=
         match reason
         case GlobalFull => s.(rejectedGlobal := s.rejectedGlobal + 1)
         case TenantFull => s.(rejectedTenant := s.rejectedTenant + 1)
         case TimedOut => s.(timeoutRejected := s.timeoutRejected + 1))
  }

  // ---------------------------------------------------------------- tenants

  datatype TenantState = TenantState(queues: Three<seq<Entry>>, deficits: Three<int>, quantum: int,
                                     active: Three<bool>, attempts: nat) {
    function TotalLen(): nat {
      |queues.high| + |queues.normal| + |queues.low|
    }
  }

  function NewTenant(quantum: int): TenantState {
    TenantState(Three([], [], []), Three(0, 0, 0), quantum, Three(false, false, false), 0)
  }

  predicate Expired(deadline: Option<Time>, now: Time) {
    deadline.Some? && now > deadline.value
  }

  predicate Dead(e: Entry, cancelled: set<Id>, now: Time) {
    e.id in cancelled || Expired(e.task.deadline, now)
  }

  /** How many entries at the front are dead. */
  function DeadPrefix(q: seq<Entry>, cancelled: set<Id>, now: Time): (k: nat)
    ensures k <= |q|
    ensures forall i :: 0 <= i < k ==> Dead(q[i], cancelled, now)
    ensures k < |q| ==> !Dead(q[k], cancelled, now)
  {
    if q == [] || !Dead(q[0], cancelled, now) then 0 else 1 + DeadPrefix(q[1..], cancelled, now)
  }

  function Live(q: seq<Entry>, cancelled: set<Id>, now: Time): seq<Entry> {
    if q == [] then []
    else (if Dead(q[0], cancelled, now) then [] else [q[0]]) + Live(q[1..], cancelled, now)
  }

  /** A queue after a purge: its dead prefix is gone, and so are the dead among the next `budget`. */
  function PurgedQueue(q: seq<Entry>, cancelled: set<Id>, now: Time, budget: nat): seq<Entry> {
    var rest := q[DeadPrefix(q, cancelled, now)..];
    var b := Min(budget, |rest|);
    Live(rest[..b], cancelled, now) + rest[b..]
  }

  function PurgedState(ts: TenantState, cancelled: set<Id>, now: Time, budget: nat): TenantState {
    var qs := Three(PurgedQueue(ts.queues.high, cancelled, now, budget),
                    PurgedQueue(ts.queues.normal, cancelled, now, budget),
                    PurgedQueue(ts.queues.low, cancelled, now, budget));
    ts.(queues := qs,
        active := Three(ts.active.high && qs.high != [], ts.active.normal && qs.normal != [],
                        ts.active.low && qs.low != []))
  }

  function RemovedIds(before: Three<seq<Entry>>, after: Three<seq<Entry>>): set<Id> {
    (Ids(before.high) - Ids(after.high)) + (Ids(before.normal) - Ids(after.normal)) + (Ids(before.low) - Ids(after.low))
  }

  datatype PurgeReason = Periodic | NearLimit | Full

  const PURGE_INTERVAL: nat := 32
  const NEAR_LIMIT_PERCENT: nat := 90
  const SCAN_BUDGET_NEAR: nat := 8
  const SCAN_BUDGET_FULL: nat := 32

  function ScanBudget(reason: PurgeReason): nat {
    match reason case Periodic => 0 case NearLimit => SCAN_BUDGET_NEAR case Full => SCAN_BUDGET_FULL
  }

  /** An enqueue in progress inside its lock section. */
  datatype Draft = Draft(state: TenantState, books: Books, samples: nat)

  /** `purge_tenant_for_enqueue`, with the number of slots it released. */
  function PurgeForEnqueue(clock: Clock, d: Draft, reason: PurgeReason): (Draft, nat) {
    var now := clock.now(d.samples);
    var ts := PurgedState(d.state, d.books.cancelled, now, ScanBudget(reason));
    var removed := RemovedIds(d.state.queues, ts.queues);
    var b := Reap(d.books, removed);
    (Draft(ts.(attempts := 0), b.(stats := b.stats.(purgeRuns := b.stats.purgeRuns + 1)), d.samples + 1),
     |removed * d.books.pending|)
  }

  function PurgeReasonFor(cfg: Config, len: nat, attempts: nat): Option<PurgeReason> {
    if len >= cfg.maxPerTenant then Some(Full)
    else if cfg.maxPerTenant == 0 || len * 100 >= cfg.maxPerTenant * NEAR_LIMIT_PERCENT then Some(NearLimit)
    else if attempts >= PURGE_INTERVAL then Some(Periodic)
    else None
  }

  /** `maybe_purge_tenant_before_enqueue`, and whether it was the full purge. */
  function MaybePurge(cfg: Config, clock: Clock, d: Draft): (Draft, bool) {
    var d1 := d.(state := d.state.(attempts := d.state.attempts + 1));
    match PurgeReasonFor(cfg, d1.state.TotalLen(), d1.state.attempts)
    case None => (d1, false)
    case Some(reason) => (PurgeForEnqueue(clock, d1, reason).0, reason == Full)
  }

  /** `try_reserve_slot` on the counter. */
  function Reserve(cfg: Config, b: Books): Option<Books> {
    if b.stats.queueLen >= cfg.maxGlobal then None
    else Some(b.(stats := b.stats.(queueLen := b.stats.queueLen + 1)))
  }

  /** The draft with a slot reserved, or why the enqueue is refused. */
  datatype Admission = Admission(draft: Draft, refusal: Option<Reason>)

  /** Take a slot, after one full purge if there was none yet and it frees something. */
  function ReserveOrPurge(cfg: Config, clock: Clock, d: Draft, ranFull: bool): Admission {
    match Reserve(cfg, d.books)
    case Some(b) => Admission(d.(books := b), None)
    case None =>
      if ranFull then Admission(d, Some(GlobalFull))
      else
        var (d1, released) := PurgeForEnqueue(clock, d, Full);
        if released == 0 then Admission(d1, Some(GlobalFull))
        else
          match Reserve(cfg, d1.books)
          case Some(b) => Admission(d1.(books := b), None)
          case None => Admission(d1, Some(GlobalFull))
  }

  /** `enqueue_try_reject` up to the point where the slot is held. */
  function AdmitOrReject(cfg: Config, clock: Clock, d: Draft): Admission {
    var (d1, ranFull1) := MaybePurge(cfg, clock, d);
    var full := d1.state.TotalLen() >= cfg.maxPerTenant;
    var d2 := if full && !ranFull1 then PurgeForEnqueue(clock, d1, Full).0 else d1;
    if full && d2.state.TotalLen() >= cfg.maxPerTenant then Admission(d2, Some(TenantFull))
    else ReserveOrPurge(cfg, clock, d2, ranFull1 || full)
  }

  datatype Strategy = Oldest | Newest

  /** The priority `drop_from_tenant` evicts from: the lowest non-empty one not above the incoming. */
  function EvictFrom(ts: TenantState, incoming: Priority): Option<Priority> {
    if ts.queues.low != [] then Some(Low)
    else if incoming == Low then None
    else if ts.queues.normal != [] then Some(Normal)
    else if incoming == Normal then None
    else if ts.queues.high != [] then Some(High)
    else None
  }

  /** The state without the evicted entry, and the entry. */
  function Evict(ts: TenantState, p: Priority, strategy: Strategy): (TenantState, Entry)
    requires ts.queues.At(p) != []
  {
    var q := ts.queues.At(p);
    match strategy
    case Oldest => (ts.(queues := ts.queues.With(p, q[1..])), q[0])
    case Newest => (ts.(queues := ts.queues.With(p, q[..|q| - 1])), q[|q| - 1])
  }

  /** The evicted entry's marker is cleared; if it was pending, its slot passes to the newcomer. */
  function Displace(b: Books, id: Id): Books {
    var b1 := b.(cancelled := b.cancelled - {id});
    if id !in b.pending then b1
    else
      b1.(pending := b.pending - {id},
          stats := b.stats.(dropped := b.stats.dropped + 1, droppedPolicy := b.stats.droppedPolicy + 1),
          history := b.history.(evicted := b.history.evicted + {id}))
  }

  /** `enqueue_drop_with_handle` up to the point where the slot is held. */
  function AdmitOrEvict(cfg: Config, clock: Clock, d: Draft, strategy: Strategy, incoming: Priority): Admission {
    var (d1, ranFull) := MaybePurge(cfg, clock, d);
    var tenantFull := d1.state.TotalLen() >= cfg.maxPerTenant;
    if !tenantFull && d1.books.stats.queueLen < cfg.maxGlobal then ReserveOrPurge(cfg, clock, d1, ranFull)
    else
      match EvictFrom(d1.state, incoming)
      case None => Admission(d1, Some(if tenantFull then TenantFull else GlobalFull))
      case Some(p) =>
        var (ts, e) := Evict(d1.state, p, strategy);
        var d2 := Draft(ts, Displace(d1.books, e.id), d1.samples);
        if e.id in d1.books.pending then Admission(d2, None) else ReserveOrPurge(cfg, clock, d2, ranFull)
  }

  function Admit(cfg: Config, clock: Clock, d: Draft, t: Tenant, task: Task): Admission {
    match PolicyFor(cfg, t)
    case Reject => AdmitOrReject(cfg, clock, d)
    case Timeout(_) => AdmitOrReject(cfg, clock, d)
    case DropOldest => AdmitOrEvict(cfg, clock, d, Oldest, task.priority)
    case DropNewest => AdmitOrEvict(cfg, clock, d, Newest, task.priority)
  }

  // ---------------------------------------------------------------- shards

  datatype Shard = Shard(tenants: map<Tenant, TenantState>, rings: Three<seq<Tenant>>)

  const EMPTY_SHARD := Shard(map[], Three([], [], []))

  predicate RingsEmpty(s: Shard) {
    s.rings.high == [] && s.rings.normal == [] && s.rings.low == []
  }

  function ShardIndex(n: nat, t: Tenant): (i: nat)
    requires n > 0
    ensures i < n
  {
    t % n
  }

  /** Per-tenant quanta: a static override wins over the provider, which wins over the base. */
  datatype Quanta = Quanta(overrides: map<Tenant, nat>, provider: Option<Tenant -> nat>, base: nat)

  function QuantumFor(q: Quanta, t: Tenant): (r: nat)
    ensures r >= 1
  {
    var raw := if t in q.overrides then q.overrides[t] else if q.provider.Some? then q.provider.value(t) else q.base;
    if raw >= 1 then raw else 1
  }

  /** The cast `as i64` of a `u64`. */
  function AsI64(x: nat): int {
    WrapI64(x)
  }

  datatype World = World(shards: seq<Shard>, books: Books, quanta: Quanta, samples: nat)

  function Fresh(shards: nat, quanta: Quanta): World {
    World(seq(Max(shards, 1), _ => EMPTY_SHARD), Books({}, {}, 0, NO_STATS, NO_HISTORY), quanta, 0)
  }

  /** The admitted entry joins its queue; an idle queue joins its ring. */
  function Join(ts: TenantState, ring: seq<Tenant>, t: Tenant, e: Entry): (TenantState, seq<Tenant>) {
    var p := e.task.priority;
    var q := ts.queues.At(p);
    var ts1 := ts.(queues := ts.queues.With(p, q + [e]));
    if q == [] && !ts.active.At(p) then (ts1.(active := ts.active.With(p, true)), ring + [t]) else (ts1, ring)
  }

  function Accept(b: Books, t: Tenant, task: Task): Books {
    var id := b.nextId + 1;
    b.(nextId := id, pending := b.pending + {id},
       stats := b.stats.(enqueued := b.stats.enqueued + 1),
       history := b.history.(accepted := b.history.accepted[id := Accepted(t, task)]))
  }

  function HomeState(w: World, t: Tenant): TenantState
    requires w.shards != []
  {
    var s := w.shards[ShardIndex(|w.shards|, t)];
    if t in s.tenants then s.tenants[t] else NewTenant(AsI64(QuantumFor(w.quanta, t)))
  }

  function AdmissionOf(cfg: Config, clock: Clock, w: World, t: Tenant, task: Task): Admission
    requires w.shards != []
  {
    Admit(cfg, clock, Draft(HomeState(w, t), w.books, w.samples), t, task)
  }

  /** One enqueue lock section. A refusal still leaves the purged tenant behind; only the Timeout
      policy does not count it yet. */
  function Enqueue(cfg: Config, clock: Clock, w: World, t: Tenant, task: Task): World
    requires w.shards != []
  {
    var i := ShardIndex(|w.shards|, t);
    var s := w.shards[i];
    var a := AdmissionOf(cfg, clock, w, t, task);
    match a.refusal
    case Some(reason) =>
      var b := if PolicyFor(cfg, t).Timeout? then a.draft.books else RecordReject(a.draft.books, reason);
      World(w.shards[i := s.(tenants := s.tenants[t := a.draft.state])], b, w.quanta, a.draft.samples)
    case None =>
      var (ts, ring) := Join(a.draft.state, s.rings.At(task.priority), t, Entry(a.draft.books.nextId + 1, task));
      World(w.shards[i := Shard(s.tenants[t := ts], s.rings.With(task.priority, ring))],
            Accept(a.draft.books, t, task), w.quanta, a.draft.samples)
  }

  function Cancel(w: World, id: Id): World {
    if id !in w.books.pending then w
    else
      var b := w.books;
      w.(books := b.(pending := b.pending - {id}, cancelled := b.cancelled + {id},
                     stats := b.stats.(queueLen := SatSub(b.stats.queueLen, 1)),
                     history := b.history.(withdrawn := b.history.withdrawn + {id})))
  }

  // ---------------------------------------------------------------- ring visits

  function ChargeFor(cost: nat): nat {
    Min(cost, I64_MAX)
  }

  function QueueTime(now: Time, enqueueTs: Time): nat {
    if now < enqueueTs then 0 else Min(now - enqueueTs, U64_MAX)
  }

  function Dispatch(b: Books, id: Id, queueTime: nat): Books {
    b.(pending := b.pending - {id},
       stats := b.stats.(dequeued := b.stats.dequeued + 1, queueLen := SatSub(b.stats.queueLen, 1),
                         queueTimeSum := b.stats.queueTimeSum + queueTime,
                         queueTimeSamples := b.stats.queueTimeSamples + 1),
       history := b.history.(dispatched := b.history.dispatched + {id}))
  }

  /** A tenant's turn in a ring: its state, the books, whether it goes back to the ring, the task served. */
  datatype Turn = Turn(state: TenantState, books: Books, requeue: bool, served: Option<Entry>)

  /** A turn once the dead entries at the front of the queue are gone: clear the flag, refill, or serve. */
  function HeadTurn(clock: Clock, ts: TenantState, b: Books, samples: nat, t: Tenant, p: Priority): Turn {
    var now := clock.now(samples);
    var q := ts.queues.At(p);
    if q == [] then
      Turn(ts.(active := ts.active.With(p, false)), b.Logging(Visit(t, p, now, Idle)), false, None)
    else
      var cost, deficit := ChargeFor(q[0].task.cost), ts.deficits.At(p);
      if deficit < cost then
        Turn(ts.(deficits := ts.deficits.With(p, WrapI64(deficit + ts.quantum))),
             b.Logging(Visit(t, p, now, Refilled(q[0].id, cost, deficit, ts.quantum))), true, None)
      else ServeHead(clock, ts, b, samples, t, p)
  }

  function ServeHead(clock: Clock, ts: TenantState, b: Books, samples: nat, t: Tenant, p: Priority): Turn
    requires ts.queues.At(p) != []
  {
    var now, q := clock.now(samples), ts.queues.At(p);
    var e, requeue := q[0], |q| > 1;
    var cost, deficit := ChargeFor(e.task.cost), ts.deficits.At(p);
    var ts1 := ts.(queues := ts.queues.With(p, q[1..]), active := ts.active.With(p, ts.active.At(p) && requeue));
    if e.id in b.cancelled then
      Turn(ts1, b.(cancelled := b.cancelled - {e.id}).Logging(Visit(t, p, now, Discarded)), requeue, None)
    else if e.id !in b.pending then
      Turn(ts1, b.Logging(Visit(t, p, now, Discarded)), requeue, None)
    else
      var waited := QueueTime(clock.now(samples + 1), e.task.enqueueTs);
      Turn(ts1.(deficits := ts.deficits.With(p, deficit - cost)),
           Dispatch(b, e.id, waited).Logging(Visit(t, p, now, Served(e.id, cost, deficit, waited))),
           requeue, Some(e))
  }

  /** Lane `p` without its dead prefix, and the books without those ids. */
  function DropDead(ts: TenantState, b: Books, p: Priority, now: Time): (TenantState, Books) {
    var q := ts.queues.At(p);
    var k := DeadPrefix(q, b.cancelled, now);
    (ts.(queues := ts.queues.With(p, q[k..])), Reap(b, Ids(q[..k])))
  }

  function TakeTurn(clock: Clock, ts: TenantState, b: Books, samples: nat, t: Tenant, p: Priority): Turn {
    var (ts1, b1) := DropDead(ts, b, p, clock.now(samples));
    HeadTurn(clock, ts1, b1, samples, t, p)
  }

  datatype Visited = Visited(world: World, served: Option<(Tenant, Entry)>)

  /** Pop ring `p` of shard `i` and give the popped tenant its turn. */
  function VisitRing(clock: Clock, w: World, i: nat, p: Priority): Visited
    requires i < |w.shards| && w.shards[i].rings.At(p) != []
  {
    var s := w.shards[i];
    var ring := s.rings.At(p);
    var t := ring[0];
    if t !in s.tenants then Visited(w.(shards := w.shards[i := s.(rings := s.rings.With(p, ring[1..]))]), None)
    else
      var turn := TakeTurn(clock, s.tenants[t], w.books, w.samples, t, p);
      var ring' := if turn.requeue then ring[1..] + [t] else ring[1..];
      var s' := Shard(s.tenants[t := turn.state], s.rings.With(p, ring'));
      Visited(World(w.shards[i := s'], turn.books, w.quanta, w.samples + if turn.served.Some? then 2 else 1),
              if turn.served.Some? then Some((t, turn.served.value)) else None)
  }

  // ---------------------------------------------------------------- quantum changes

  function RefreshTenant(w: World, t: Tenant): World
    requires w.shards != []
  {
    var i := ShardIndex(|w.shards|, t);
    var s := w.shards[i];
    if t !in s.tenants then w
    else w.(shards := w.shards[i := s.(tenants := s.tenants[t := s.tenants[t].(quantum := AsI64(QuantumFor(w.quanta, t)))])])
  }

  function RefreshedShard(s: Shard, q: Quanta): Shard {
    s.(tenants := map t | t in s.tenants :: s.tenants[t].(quantum := AsI64(QuantumFor(q, t))))
  }

  function SetQuantum(w: World, t: Tenant, quantum: nat): World
    requires w.shards != []
  {
    RefreshTenant(w.(quanta := w.quanta.(overrides := w.quanta.overrides[t := Max(quantum, 1)])), t)
  }

  function ClearQuantum(w: World, t: Tenant): World
    requires w.shards != []
  {
    RefreshTenant(w.(quanta := w.quanta.(overrides := w.quanta.overrides - {t})), t)
  }

  function SetProvider(w: World, provider: Option<Tenant -> nat>): World {
    var q := w.quanta.(provider := provider);
    w.(quanta := q, shards := seq(|w.shards|, i requires 0 <= i < |w.shards| => RefreshedShard(w.shards[i], q)))
  }

  // ---------------------------------------------------------------- runs

  datatype Move =
    | EnqueueMove(tenant: Tenant, task: Task)
    | GiveUpMove
    | CancelMove(id: Id)
    | VisitMove(shard: nat, priority: Priority)
    | SetQuantumMove(tenant: Tenant, quantum: nat)
    | ClearQuantumMove(tenant: Tenant)
    | SetProviderMove(provider: Option<Tenant -> nat>)

  function Step(cfg: Config, clock: Clock, w: World, m: Move): (w': World)
    requires w.shards != []
    ensures |w'.shards| == |w.shards|
  {
    match m
    case EnqueueMove(t, task) => Enqueue(cfg, clock, w, t, task)
    case GiveUpMove => w.(books := RecordReject(w.books, TimedOut))
    case CancelMove(id) => Cancel(w, id)
    case VisitMove(i, p) =>
      if i < |w.shards| && w.shards[i].rings.At(p) != [] then VisitRing(clock, w, i, p).world else w
    case SetQuantumMove(t, q) => SetQuantum(w, t, q)
    case ClearQuantumMove(t) => ClearQuantum(w, t)
    case SetProviderMove(f) => SetProvider(w, f)
  }

  function Run(cfg: Config, clock: Clock, w: World, moves: seq<Move>): (w': World)
    requires w.shards != []
    ensures |w'.shards| == |w.shards|
    decreases |moves|
  {
    if moves == [] then w else Run(cfg, clock, Step(cfg, clock, w, moves[0]), moves[1..])
  }
}
