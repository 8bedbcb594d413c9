/** What the metrics objects report about a run: queue times and top talkers, in terms of dispatches. */
module Metrics {
  import opened Types
  import opened World
  import opened Invariant
  import opened Preservation
  import opened Delivery
  import opened TopTenants

  /** The queue times of the tasks dispatched so far, oldest first. */
  ghost function Waits(log: Log): seq<nat> {
    match log
    case Start => []
    case Then(before, v) => Waits(before) + if v.outcome.Served? then [v.outcome.queueTime] else []
  }

  /** One event of weight 1 per task dispatched so far, oldest first. */
  ghost function DispatchEvents(log: Log): seq<Event> {
    match log
    case Start => []
    case Then(before, v) => DispatchEvents(before) + if v.outcome.Served? then [Event(v.tenant, 1)] else []
  }

  lemma ServedOnce(before: Log, v: Visit)
    requires v.outcome.Served?
    ensures Waits(Then(before, v)) == Waits(before) + [v.outcome.queueTime]
    ensures DispatchEvents(Then(before, v)) == DispatchEvents(before) + [Event(v.tenant, 1)]
  {
  }

  /** The ids of tenant `t` among `ids`. */
  ghost function OfTenant(h: History, ids: set<Id>, t: Tenant): set<Id> {
    set id | id in ids && id in h.accepted && h.accepted[id].tenant == t
  }

  lemma EventsSnoc(events: seq<Event>, e: Event)
    ensures TotalWeight(events + [e]) == TotalWeight(events) + e.weight
    ensures forall t :: TrueWeight(events + [e], t) == TrueWeight(events, t) + if e.tenant == t then e.weight else 0
  {
    assert (events + [e])[..|events|] == events;
  }

  lemma FreshlyServed(h: History, before: Log, v: Visit)
    requires LogOk(h, Then(before, v)) && v.outcome.Served?
    ensures v.outcome.id !in ServedIds(before)
    ensures v.outcome.id in h.accepted && h.accepted[v.outcome.id].tenant == v.tenant
  {
    ServedAtMostOnce(h, before, v.outcome.id);
    ServedAtMostOnce(h, Then(before, v), v.outcome.id);
  }

  lemma OneMoreOf(h: History, ids: set<Id>, id: Id, t: Tenant)
    requires id !in ids && id in h.accepted
    ensures |ids + {id}| == |ids| + 1
    ensures |OfTenant(h, ids + {id}, t)| == |OfTenant(h, ids, t)| + if h.accepted[id].tenant == t then 1 else 0
  {
    CardAdd(ids, id);
    if h.accepted[id].tenant == t {
      assert OfTenant(h, ids + {id}, t) == OfTenant(h, ids, t) + {id};
      CardAdd(OfTenant(h, ids, t), id);
    } else {
      assert OfTenant(h, ids + {id}, t) == OfTenant(h, ids, t);
    }
  }

  lemma NothingServed(before: Log, v: Visit)
    requires !v.outcome.Served?
    ensures DispatchEvents(Then(before, v)) == DispatchEvents(before)
    ensures Waits(Then(before, v)) == Waits(before) && ServedIds(Then(before, v)) == ServedIds(before)
  {
  }

  lemma LogOkBefore(h: History, log: Log)
    requires LogOk(h, log) && log.Then?
    ensures LogOk(h, log.before)
  {
  }

  /** The recorded stream weighs what was dispatched, in all and tenant by tenant. */
  lemma {:induction false} EventsCount(h: History, log: Log, t: Tenant)
    requires LogOk(h, log)
    ensures TotalWeight(DispatchEvents(log)) == |Waits(log)| == |ServedIds(log)|
    ensures TrueWeight(DispatchEvents(log), t) == |OfTenant(h, ServedIds(log), t)|
  {
    hide LogOk, OfTenant;
    if log.Then? {
      LogOkBefore(h, log);
      EventsCount(h, log.before, t);
      var v := log.visit;
      if v.outcome.Served? {
        EventsSnoc(DispatchEvents(log.before), Event(v.tenant, 1));
        FreshlyServed(h, log.before, v);
        OneMoreOf(h, ServedIds(log.before), v.outcome.id, t);
      } else {
        NothingServed(log.before, v);
      }
    } else {
      NobodyServed(h, t);
    }
  }

  lemma NobodyServed(h: History, t: Tenant)
    ensures OfTenant(h, {}, t) == {}
  {
  }

  /** Queue-time samples and recorded dispatches are as many as the tasks dispatched. */
  lemma RecordedDispatches(cfg: Config, clock: Clock, w: World, t: Tenant)
    requires Reachable(cfg, clock, w)
    ensures var h, s := w.books.history, w.books.stats;
            && |Waits(h.log)| == TotalWeight(DispatchEvents(h.log)) == s.dequeued == s.queueTimeSamples
            && TrueWeight(DispatchEvents(h.log), t) == |OfTenant(h, h.dispatched, t)|
  {
    hide TenantInvAt, Homed, RingsKnown, LogOk, OneFate;
    ReachableLog(cfg, clock, w);
    EventsCount(w.books.history, w.books.history.log, t);
  }

  /** Top talkers, for any reachable world with D dispatches and a table of `capacity` > 0 slots: the
      counts add up to D; each tracked count is between the tenant's true dispatches and that plus
      D / capacity; whoever got more than D / capacity dispatches is in the table. */
  lemma TopTalkers(cfg: Config, clock: Clock, w: World, capacity: nat)
    requires Reachable(cfg, clock, w) && capacity > 0 && w.books.stats.dequeued <= U64_MAX
    ensures var h, total := w.books.history, w.books.stats.dequeued;
            var table := Sketch(capacity, DispatchEvents(h.log));
            && Sum(table) == total
            && (forall e :: e in table ==>
                  |OfTenant(h, h.dispatched, e.tenant)| <= e.count <= |OfTenant(h, h.dispatched, e.tenant)| + total / capacity)
            && (forall t :: |OfTenant(h, h.dispatched, t)| * capacity > total ==> Tracked(table, t))
  {
    hide Sketch, Reachable, OfTenant, Distinct, Sum, TotalWeight, TrueWeight, Tracked;
    var h, total := w.books.history, w.books.stats.dequeued;
    RecordedDispatches(cfg, clock, w, 0);
    SpaceSaving(capacity, DispatchEvents(h.log));
    var table := Sketch(capacity, DispatchEvents(h.log));
    forall e | e in table
      ensures |OfTenant(h, h.dispatched, e.tenant)| <= e.count <= |OfTenant(h, h.dispatched, e.tenant)| + total / capacity
    {
      RecordedDispatches(cfg, clock, w, e.tenant);
      assert Truth(DispatchEvents(h.log))(e.tenant) == TrueWeight(DispatchEvents(h.log), e.tenant);
    }
    forall t | |OfTenant(h, h.dispatched, t)| * capacity > total ensures Tracked(table, t) {
      RecordedDispatches(cfg, clock, w, t);
    }
  }
}
