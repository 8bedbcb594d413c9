/** Which quantum a tenant has: exactly what the calls that set, clear and provide quanta say, whatever else
    is called between them. */
module Settings {
  import opened Types
  import opened World
  import opened Invariant
  import opened EnqueueProofs
  import opened Preservation
  import opened Delivery
  import opened Throughput
  import opened Service
  import opened Affordability

  // ---------------------------------------------------------------- settings read off the calls

  /** The static setting of tenant `t` after one more call. */
  function StaticNext(fixed: Option<nat>, op: Op, t: Tenant): Option<nat> {
    match op
    case WorldOp(SetQuantumMove(x, q)) => if x == t then Some(if q == 0 then 1 else q) else fixed
    case WorldOp(ClearQuantumMove(x)) => if x == t then None else fixed
    case _ => fixed
  }

  function ProviderNext(provider: Option<Tenant -> nat>, op: Op): Option<Tenant -> nat> {
    match op
    case WorldOp(SetProviderMove(f)) => f
    case _ => provider
  }

  /** The static setting after these calls: the last one set and not cleared. */
  function StaticAfter(fixed: Option<nat>, ops: seq<Op>, t: Tenant): Option<nat>
    decreases |ops|
  {
    if ops == [] then fixed else StaticAfter(StaticNext(fixed, ops[0], t), ops[1..], t)
  }

  /** The provider after these calls: the last one given. */
  function ProviderAfter(provider: Option<Tenant -> nat>, ops: seq<Op>): Option<Tenant -> nat>
    decreases |ops|
  {
    if ops == [] then provider else ProviderAfter(ProviderNext(provider, ops[0]), ops[1..])
  }

  /** A static setting wins over the provider, which wins over the base. */
  function Chosen(fixed: Option<nat>, provider: Option<Tenant -> nat>, base: nat, t: Tenant): nat {
    match fixed
    case Some(q) => q
    case None => if provider.Some? then provider.value(t) else base
  }

  /** `quantum` is `chosen`, at least 1, as an `i64`. */
  ghost predicate Worth(quantum: int, chosen: nat) {
    var q := if chosen == 0 then 1 else chosen;
    && (q <= I64_MAX ==> quantum == q)
    && (I64_MAX < q <= U64_MAX ==> quantum == q - TWO_64)
  }

  function StaticOf(q: Quanta, t: Tenant): Option<nat> {
    if t in q.overrides then Some(q.overrides[t]) else None
  }

  // ---------------------------------------------------------------- every tenant has the quantum in force

  ghost predicate InForce(w: World)
    requires w.shards != []
  {
    forall t :: HomeState(w, t).quantum == AsI64(QuantumFor(w.quanta, t))
  }

  lemma InForceIsWorth(w: World, t: Tenant)
    requires w.shards != [] && InForce(w)
    ensures Worth(HomeState(w, t).quantum, Chosen(StaticOf(w.quanta, t), w.quanta.provider, w.quanta.base, t))
  {
    hide HomeState;
    var q := QuantumFor(w.quanta, t);
    assert HomeState(w, t).quantum == AsI64(q);
    CastOf(q);
  }

  lemma CastOf(q: nat)
    ensures q <= I64_MAX ==> AsI64(q) == q
    ensures I64_MAX < q <= U64_MAX ==> AsI64(q) == q - TWO_64
  {
  }

  lemma RefreshInForce(w: World, quanta: Quanta, t: Tenant)
    requires w.shards != [] && InForce(w)
    requires forall x :: x != t ==> QuantumFor(quanta, x) == QuantumFor(w.quanta, x)
    ensures RefreshTenant(w.(quanta := quanta), t).shards != [] && InForce(RefreshTenant(w.(quanta := quanta), t))
  {
    hide AsI64, QuantumFor;
    var w' := RefreshTenant(w.(quanta := quanta), t);
    forall x ensures HomeState(w', x).quantum == AsI64(QuantumFor(w'.quanta, x)) {
      assert HomeState(w, x).quantum == AsI64(QuantumFor(w.quanta, x));
    }
  }

  lemma ProviderInForce(w: World, provider: Option<Tenant -> nat>)
    requires w.shards != []
    ensures SetProvider(w, provider).shards != [] && InForce(SetProvider(w, provider))
  {
    hide AsI64, QuantumFor;
  }

  lemma EnqueueInForce(cfg: Config, clock: Clock, w: World, t: Tenant, task: Task)
    requires Inv(cfg, w) && InForce(w)
    ensures var w' := Enqueue(cfg, clock, w, t, task);
            |w'.shards| == |w.shards| && InForce(w') && w'.quanta == w.quanta
            && forall x :: HomeState(w', x).quantum == HomeState(w, x).quantum
  {
    hide BooksOk, TenantInvAt, Homed, RingsKnown, Admit, RecordReject, AsI64, QuantumFor, Accept, DraftOk;
    var a := AdmissionOf(cfg, clock, w, t, task);
    HomeDraftOk(cfg, w, t);
    AdmitKeeps(cfg, clock, Draft(HomeState(w, t), w.books, w.samples), t, task);
    SameQuantum(Draft(HomeState(w, t), w.books, w.samples), a.draft, t);
  }

  lemma SameQuantum(d: Draft, d': Draft, t: Tenant)
    requires OnlyShrinks(d, d', t)
    ensures d'.state.quantum == d.state.quantum
  {
  }

  lemma VisitKeepsQuanta(clock: Clock, w: World, i: nat, p: Priority)
    requires CanVisit(w, i, p)
    ensures VisitRing(clock, w, i, p).world.quanta == w.quanta
  {
    hide TakeTurn;
  }

  lemma {:induction false} VisitsKeepQuanta(cfg: Config, clock: Clock, w: World, moves: seq<Move>)
    requires w.shards != [] && forall k :: 0 <= k < |moves| ==> moves[k].VisitMove?
    ensures Run(cfg, clock, w, moves).quanta == w.quanta
    decreases |moves|
  {
    hide VisitRing;
    if moves != [] {
      var m := moves[0];
      if CanVisit(w, m.shard, m.priority) {
        VisitKeepsQuanta(clock, w, m.shard, m.priority);
      }
      VisitsKeepQuanta(cfg, clock, Step(cfg, clock, w, m), moves[1..]);
    }
  }

  /** Every refill of tenant `t` between the two logs is worth `quantum`. */
  ghost predicate RefillsWorth(past: Log, log: Log, t: Tenant, quantum: int) {
    && Extends(past, log)
    && forall k :: 0 <= k < |Since(past, log)| && Since(past, log)[k].tenant == t && Since(past, log)[k].outcome.Refilled? ==>
         Since(past, log)[k].outcome.quantum == quantum
  }

  lemma DequeueInForce(cfg: Config, clock: Clock, s: State, t: Tenant)
    requires StateInv(cfg, s) && InForce(s.world)
    ensures var w, w' := s.world, TryDequeue(clock, s).0.world;
            && InForce(w') && w'.quanta == w.quanta && HomeState(w', t).quantum == HomeState(w, t).quantum
            && RefillsWorth(w.books.history.log, w'.books.history.log, t, HomeState(w, t).quantum)
  {
    hide Inv, ListOk, HomeState, DequeueLoop, Run, AsI64, QuantumFor;
    if s.shutdown != Immediate {
      var moves := DequeueLoopIsRun(cfg, clock, s, |s.activeShards|);
      VisitsTold(cfg, clock, s.world, moves);
      VisitsKeepQuanta(cfg, clock, s.world, moves);
      forall x ensures HomeState(TryDequeue(clock, s).0.world, x).quantum == AsI64(QuantumFor(s.world.quanta, x)) {
        assert HomeState(s.world, x).quantum == AsI64(QuantumFor(s.world.quanta, x));
      }
    } else {
      NoRefills(s.world.books.history.log, t, HomeState(s.world, t).quantum);
    }
  }

  lemma NoRefills(log: Log, t: Tenant, quantum: int)
    ensures RefillsWorth(log, log, t, quantum)
  {
  }

  lemma SubmitInForce(cfg: Config, clock: Clock, s: State, x: Tenant, task: Task, t: Tenant)
    requires StateInv(cfg, s) && InForce(s.world)
    ensures var w, w' := s.world, Submit(cfg, clock, s, x, task).0.world;
            && InForce(w') && w'.quanta == w.quanta && HomeState(w', t).quantum == HomeState(w, t).quantum
            && w'.books.history.log == w.books.history.log
  {
    hide Inv, ListOk, HomeState, Enqueue, AdmissionOf, AsI64, QuantumFor;
    if s.shutdown == Open {
      EnqueueInForce(cfg, clock, s.world, x, task);
      OthersKeepLog(cfg, clock, s.world, EnqueueMove(x, task));
      assert Submit(cfg, clock, s, x, task).0.world == Enqueue(cfg, clock, s.world, x, task);
    }
  }

  lemma MoveInForce(cfg: Config, clock: Clock, w: World, m: Move, t: Tenant)
    requires w.shards != [] && InForce(w) && !m.EnqueueMove? && !m.VisitMove?
    ensures var w' := Step(cfg, clock, w, m);
            && InForce(w') && w'.books.history.log == w.books.history.log
            && w'.quanta.base == w.quanta.base
            && (m.CancelMove? || m.GiveUpMove? ==> w'.quanta == w.quanta && HomeState(w', t).quantum == HomeState(w, t).quantum)
  {
    hide RecordReject, AsI64, QuantumFor, RefreshTenant;
    match m
    case SetQuantumMove(x, q) =>
      var quanta := w.quanta.(overrides := w.quanta.overrides[x := Max(q, 1)]);
      SameForOthers(w.quanta, quanta, x);
      RefreshInForce(w, quanta, x);
      RefreshIsQuanta(w.(quanta := quanta), x);
    case ClearQuantumMove(x) =>
      var quanta := w.quanta.(overrides := w.quanta.overrides - {x});
      SameForOthers(w.quanta, quanta, x);
      RefreshInForce(w, quanta, x);
      RefreshIsQuanta(w.(quanta := quanta), x);
    case SetProviderMove(f) => ProviderInForce(w, f);
    case GiveUpMove => RejectIsStatsOnly(w.books, TimedOut);
    case _ =>
  }

  lemma SameForOthers(q: Quanta, q': Quanta, t: Tenant)
    requires q' == q.(overrides := q'.overrides) && forall x :: x != t ==> StaticOf(q', x) == StaticOf(q, x)
    ensures forall x :: x != t ==> QuantumFor(q', x) == QuantumFor(q, x)
  {
    forall x | x != t ensures QuantumFor(q', x) == QuantumFor(q, x) {
      assert StaticOf(q', x) == StaticOf(q, x);
    }
  }

  lemma RefreshIsQuanta(w: World, t: Tenant)
    requires w.shards != []
    ensures RefreshTenant(w, t).quanta == w.quanta && RefreshTenant(w, t).books == w.books
  {
  }

  // ---------------------------------------------------------------- over the calls

  /** One call: quanta stay in force, settings follow it, and its refills are worth the quantum before it. */
  lemma PerformInForce(cfg: Config, clock: Clock, s: State, op: Op, t: Tenant)
    requires StateInv(cfg, s) && OpOk(op) && InForce(s.world)
    ensures var w, w' := s.world, Perform(cfg, clock, s, op).world;
            && InForce(w')
            && StaticOf(w'.quanta, t) == StaticNext(StaticOf(w.quanta, t), op, t)
            && w'.quanta.provider == ProviderNext(w.quanta.provider, op)
            && w'.quanta.base == w.quanta.base
            && RefillsWorth(w.books.history.log, w'.books.history.log, t, HomeState(w, t).quantum)
  {
    hide Inv, ListOk, HomeState, TryDequeue, Submit, InForce, RefillsWorth, RecordReject;
    var w := s.world;
    NoRefills(w.books.history.log, t, HomeState(w, t).quantum);
    match op
    case SubmitOp(x, task) => SubmitInForce(cfg, clock, s, x, task, t);
    case DequeueOp => DequeueInForce(cfg, clock, s, t);
    case CloseOp(_) =>
    case WorldOp(m) =>
      MoveInForce(cfg, clock, w, m, t);
      MoveSettings(cfg, clock, w, m, t);
  }

  lemma MoveSettings(cfg: Config, clock: Clock, w: World, m: Move, t: Tenant)
    requires w.shards != [] && !m.EnqueueMove? && !m.VisitMove?
    ensures var w' := Step(cfg, clock, w, m);
            && StaticOf(w'.quanta, t) == StaticNext(StaticOf(w.quanta, t), WorldOp(m), t)
            && w'.quanta.provider == ProviderNext(w.quanta.provider, WorldOp(m))
  {
    hide RecordReject, AsI64, QuantumFor, RefreshTenant;
    match m
    case SetQuantumMove(x, q) => RefreshIsQuanta(w.(quanta := w.quanta.(overrides := w.quanta.overrides[x := Max(q, 1)])), x);
    case ClearQuantumMove(x) => RefreshIsQuanta(w.(quanta := w.quanta.(overrides := w.quanta.overrides - {x})), x);
    case _ =>
  }

  lemma {:induction false} PerformAllInForce(cfg: Config, clock: Clock, s: State, ops: seq<Op>, t: Tenant)
    requires StateInv(cfg, s) && InForce(s.world) && OpsOk(ops)
    ensures var w, w' := s.world, PerformAll(cfg, clock, s, ops).world;
            && StateInv(cfg, PerformAll(cfg, clock, s, ops)) && InForce(w')
            && StaticOf(w'.quanta, t) == StaticAfter(StaticOf(w.quanta, t), ops, t)
            && w'.quanta.provider == ProviderAfter(w.quanta.provider, ops)
            && w'.quanta.base == w.quanta.base
    decreases |ops|
  {
    hide Inv, ListOk, Perform, InForce, StaticOf, OpOk, StaticNext, ProviderNext;
    if ops != [] {
      PerformInForce(cfg, clock, s, ops[0], t);
      PerformKeeps(cfg, clock, s, ops[0]);
      PerformAllInForce(cfg, clock, Perform(cfg, clock, s, ops[0]), ops[1..], t);
    }
  }

  lemma FreshInForce(shards: nat, quanta: Quanta)
    ensures InForce(FreshState(shards, quanta).world)
  {
    hide QuantumFor, AsI64;
  }

  /** After any calls from a new scheduler on, a tenant's quantum, seen before or not, is what was last set for it
      and not cleared since, else what the last provider says, else the base; at least 1, as an `i64`. */
  lemma QuantumFollowsCalls(cfg: Config, clock: Clock, shards: nat, quanta: Quanta, ops: seq<Op>, t: Tenant)
    requires OpsOk(ops)
    ensures var w := PerformAll(cfg, clock, FreshState(shards, quanta), ops).world;
            Worth(HomeState(w, t).quantum,
                  Chosen(StaticAfter(StaticOf(quanta, t), ops, t), ProviderAfter(quanta.provider, ops), quanta.base, t))
  {
    hide StateInv, HomeState, PerformAll, InForce, Worth, Chosen, StaticOf, StaticAfter, ProviderAfter, OpOk;
    FreshStateOk(cfg, shards, quanta);
    FreshInForce(shards, quanta);
    PerformAllInForce(cfg, clock, FreshState(shards, quanta), ops, t);
    InForceIsWorth(PerformAll(cfg, clock, FreshState(shards, quanta), ops).world, t);
  }

  // ---------------------------------------------------------------- how long a setting lasts

  /** Nothing is set or cleared for tenant `t`. */
  ghost predicate LeavesStatic(ops: seq<Op>, t: Tenant) {
    forall k :: 0 <= k < |ops| && ops[k].WorldOp? ==>
      && (ops[k].move.SetQuantumMove? ==> ops[k].move.tenant != t)
      && (ops[k].move.ClearQuantumMove? ==> ops[k].move.tenant != t)
  }

  ghost predicate LeavesProvider(ops: seq<Op>) {
    forall k :: 0 <= k < |ops| && ops[k].WorldOp? ==> !ops[k].move.SetProviderMove?
  }

  /** While the settings that matter to tenant `t` stay, its refills are worth what they choose. */
  lemma {:induction false} RefillsWhileSet(cfg: Config, clock: Clock, s: State, ops: seq<Op>, t: Tenant, chosen: nat)
    requires StateInv(cfg, s) && InForce(s.world) && OpsOk(ops)
    requires LeavesStatic(ops, t) && (StaticOf(s.world.quanta, t).None? ==> LeavesProvider(ops))
    requires chosen == Chosen(StaticOf(s.world.quanta, t), s.world.quanta.provider, s.world.quanta.base, t) <= U64_MAX
    ensures var w, w' := s.world, PerformAll(cfg, clock, s, ops).world;
            && Worth(HomeState(w', t).quantum, chosen) && HomeState(w', t).quantum == HomeState(w, t).quantum
            && RefillsWorth(w.books.history.log, w'.books.history.log, t, HomeState(w, t).quantum)
    decreases |ops|
  {
    hide Inv, ListOk, HomeState, Perform, InForce, RefillsWorth, OpOk;
    InForceIsWorth(s.world, t);
    if ops == [] {
      NoRefills(s.world.books.history.log, t, HomeState(s.world, t).quantum);
    } else {
      var s1 := Perform(cfg, clock, s, ops[0]);
      PerformInForce(cfg, clock, s, ops[0], t);
      PerformKeeps(cfg, clock, s, ops[0]);
      RefillsWhileSet(cfg, clock, s1, ops[1..], t, chosen);
      InForceIsWorth(s1.world, t);
      RefillsConcat(s.world.books.history.log, s1.world.books.history.log,
                    PerformAll(cfg, clock, s1, ops[1..]).world.books.history.log, t, HomeState(s.world, t).quantum);
    }
  }

  lemma RefillsConcat(a: Log, b: Log, c: Log, t: Tenant, quantum: int)
    requires RefillsWorth(a, b, t, quantum) && RefillsWorth(b, c, t, quantum)
    ensures RefillsWorth(a, c, t, quantum)
  {
    SinceConcat(a, b, c);
  }

  /** A quantum set for tenant `t` lasts: whatever is called between, provider changes included, short of another
      set or clear for `t`, it is the tenant's quantum in every later state, also if the tenant is first seen
      then, and every refill of the tenant is worth it. */
  lemma SetLasts(cfg: Config, clock: Clock, shards: nat, quanta: Quanta, before: seq<Op>, after: seq<Op>, t: Tenant, q: nat)
    requires OpsOk(before) && OpsOk(after) && LeavesStatic(after, t) && q <= U64_MAX
    ensures var s := Perform(cfg, clock, PerformAll(cfg, clock, FreshState(shards, quanta), before), WorldOp(SetQuantumMove(t, q)));
            var w, w' := s.world, PerformAll(cfg, clock, s, after).world;
            && Worth(HomeState(w', t).quantum, q)
            && RefillsWorth(w.books.history.log, w'.books.history.log, t, HomeState(w', t).quantum)
  {
    hide StateInv, HomeState, PerformAll, InForce, StaticOf, Perform, LeavesStatic, RefillsWorth;
    var s0, op := PerformAll(cfg, clock, FreshState(shards, quanta), before), WorldOp(SetQuantumMove(t, q));
    InForceAfter(cfg, clock, shards, quanta, before);
    PerformInForce(cfg, clock, s0, op, t);
    PerformKeeps(cfg, clock, s0, op);
    RefillsWhileSet(cfg, clock, Perform(cfg, clock, s0, op), after, t, if q == 0 then 1 else q);
  }

  /** Once cleared, the tenant is back to the provider's value, or to the base if there is no provider, as long
      as neither a static quantum for it nor a provider is set. */
  lemma ClearFallsBack(cfg: Config, clock: Clock, shards: nat, quanta: Quanta, before: seq<Op>, after: seq<Op>, t: Tenant)
    requires OpsOk(before) && OpsOk(after) && LeavesStatic(after, t) && LeavesProvider(after)
    requires var provider := ProviderAfter(quanta.provider, before);
             (if provider.Some? then provider.value(t) else quanta.base) <= U64_MAX
    ensures var s := Perform(cfg, clock, PerformAll(cfg, clock, FreshState(shards, quanta), before), WorldOp(ClearQuantumMove(t)));
            var w, w' := s.world, PerformAll(cfg, clock, s, after).world;
            var provider := ProviderAfter(quanta.provider, before);
            && Worth(HomeState(w', t).quantum, if provider.Some? then provider.value(t) else quanta.base)
            && RefillsWorth(w.books.history.log, w'.books.history.log, t, HomeState(w', t).quantum)
  {
    hide StateInv, HomeState, PerformAll, InForce, StaticOf, Perform, LeavesStatic, LeavesProvider, RefillsWorth, ProviderAfter, StaticAfter;
    var s0, op := PerformAll(cfg, clock, FreshState(shards, quanta), before), WorldOp(ClearQuantumMove(t));
    InForceAfter(cfg, clock, shards, quanta, before);
    PerformAllInForce(cfg, clock, FreshState(shards, quanta), before, t);
    PerformInForce(cfg, clock, s0, op, t);
    PerformKeeps(cfg, clock, s0, op);
    var provider := ProviderAfter(quanta.provider, before);
    RefillsWhileSet(cfg, clock, Perform(cfg, clock, s0, op), after, t, if provider.Some? then provider.value(t) else quanta.base);
  }

  lemma InForceAfter(cfg: Config, clock: Clock, shards: nat, quanta: Quanta, ops: seq<Op>)
    requires OpsOk(ops)
    ensures var s := PerformAll(cfg, clock, FreshState(shards, quanta), ops);
            StateInv(cfg, s) && InForce(s.world)
    ensures StateInv(cfg, FreshState(shards, quanta)) && InForce(FreshState(shards, quanta).world)
  {
    hide Inv, ListOk, PerformAll, InForce, OpOk, StaticAfter, ProviderAfter;
    FreshStateOk(cfg, shards, quanta);
    FreshInForce(shards, quanta);
    PerformAllInForce(cfg, clock, FreshState(shards, quanta), ops, 0);
  }
}
