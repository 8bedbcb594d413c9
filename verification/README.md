# Verified model of the firq scheduler

`firq-core` is an in-process, multi-tenant task scheduler: tenants are spread over shards, every tenant has
three priority queues with deficit counters, every shard three rings of active tenants, and a list of active
shards tells consumers where work is. Tasks can be cancelled, expire, be refused or be evicted; a counter of
reserved slots bounds the total. This project models that core and proves what its parts keep true together.

## How it is built

| file | what it holds |
|---|---|
| `Types.dfy`, `Sums.dfy` | public types, integer widths and wrap-around; sums and counts |
| `ActiveRing.dfy` | the compacting FIFO: fields, class, runs |
| `TopTenants.dfy` | the top-talker sketch: class, Space-Saving guarantee, snapshot |
| `Histogram.dfy` | the queue-time histogram: class, percentiles |
| `World.dfy` | one lock section at a time, on values: purge, admission, eviction, enqueue, cancel, ring visit, quanta |
| `Invariant.dfy`, `EnqueueProofs.dfy`, `Preservation.dfy` | the invariant of all reachable worlds and its preservation |
| `Delivery.dfy`, `Guarantees.dfy` | order, single outcome, conservation, deficits |
| `Limits.dfy`, `Admissions.dfy`, `Expiry.dfy` | limits and purges; when an enqueue is admitted, refused or evicts; nothing expires early |
| `Listing.dfy` | how often a tenant stands in a ring |
| `Refills.dfy` | repeated `i64` refills of one deficit: how many a head needs, and whether any number is enough |
| `Throughput.dfy`, `BoundedWait.dfy`, `RoundRobin.dfy` | fairness over runs |
| `Service.dfy`, `Draining.dfy` | public operations, shutdown, draining |
| `Answers.dfy`, `Attempts.dfy` | what answers and counters mean; waiting enqueues |
| `Settings.dfy` | which quantum a tenant has |
| `Alone.dfy` | one task in a new scheduler, end to end |
| `Affordability.dfy`, `Selection.dfy` | what a dequeue visits; exactly which task it hands out |
| `DequeueWait.dfy` | how long a head waits, in dequeues of its shard and in calls |
| `Metrics.dfy`, `QueueTimes.dfy` | metrics against dispatches and the clock |
| `Examples.dfy`, `Flood.dfy` | concrete runs that refute tempting claims |
| `Loops.dfy`, `Scheduler.dfy` | the `Scheduler` class: fields updated in place by methods with the source's loops |
| `SlotProtocol.dfy`, `MarkerFate.dfy`, `Uninterrupted.dfy` | slots, pending ids and cancel markers under every interleaving of atomic operations; which markers are never collected; the steps of one thread against the sequential operations |
| `Sections.dfy`, `LocalSafety.dfy`, `ShardActivation.dfy` | lock sections as one shard sees them, and the active-shard list and flags under every interleaving |

The class is the scheduler with each public operation as one atomic step. Every method's postcondition equates
the object's new abstract state with a function of the old one, and `Valid` says that the object is in the
state its operations so far lead to. So `Scheduler.Scheduler.ObjectReaches` carries every theorem about
reachable worlds over to the object. Histories (fates of ids, visit log, operations performed) are ghost: the
scheduler keeps none of them.

Time is a function from how often the clock has been read to an instant; only the theorems of `Selection` and
`DequeueWait` about who can pay assume that it never goes back. Quantum providers are arbitrary functions.
Additions to a deficit and the cast of a quantum wrap around as `i64` does.

Two protocols are modelled a second time with one program counter per thread, because their safety rests on a
token that exactly one party holds. Which theorems hold under which interleaving:

- Slots, pending ids and markers, each atomic operation a step, cancel in three: the slot law, one winner per id,
  no lost entry (`SlotProtocol`), and which markers are never collected (`MarkerFate`).
- Lock sections of different shards, list and flag operations and the steps of a cancel in any order, every
  answer a section gets about ids and slots arbitrary: one token per shard, queued work flagged and listed, the
  per-tenant limit, ascending queues, service in order and before the deadline
  (`ShardActivation.OneToken`, `ShardActivation.InterleavedSafety`).
- All other theorems are about worlds that whole operations reach one after another. They read queued ids off
  the id sets, count fates, or speak of one world over time; inside a cancel or inside overlapping sections they
  claim nothing, and `ShardActivation.MidCancelIsUnreachable` shows that they could not.

## Where the code and its documentation differ

The model follows the code.

- `README.md:105` promises strict priority in dispatch order. `Selection.FirstPayingIsDelivered` says exactly which
  task `try_dequeue` hands out: that of the first place that pays, shards in list order and High, Normal, Low
  within a shard. A High task its tenant cannot pay for yet does not hold back Normal work
  (`Examples.LowerPriorityOvertakes`), and priorities are not compared across shards
  (`Examples.LowOvertakesAcrossShards`). Within a shard priority `p` is served if and only if some place of its ring
  pays and none of a higher ring does (`Selection.PriorityServedExactly`).
- `crates/firq-core/src/api.rs:76-80` speaks of live tasks per tenant and `README.md:101` of live pending work.
  The code counts physical entries and looks for dead ones only in the dead prefix and the 32 entries behind
  it. `Limits.TenantFullExactly` says when an enqueue is refused, `Limits.SmallLimitFullExactly` that for limits
  up to 32 this is the documented meaning, `Examples.DeepDeadEntryStillCounts` that for 33 it is not.
- A tenant is not listed at most once per ring: `Examples.TenantListedTwice`. `Listing.ListedOnceExactly` says in
  which runs it is. That it is listed at least once while it has work holds always.
- `README.md:100` promises recurring turns without permanent starvation for runnable tenants. Two things break it.
  Refills wrap around: `Examples.FittingQuantumStarves` is a run, with a quantum that fits an `i64`, in which a
  task is never handed out. And higher priorities come first, without end: `Flood.LowStarves` is a run in which a
  free Low task waits for ever behind free High tasks of another tenant of its shard. `DequeueWait.HandedOutExactly`
  says when waiting ends: there must be dequeues of the task's shard at whose start no place of a higher ring pays,
  and its charge must not exceed I64_MAX - (I64_MAX - deficit) mod g, g the largest power of two dividing the
  quantum; without such dequeues it is never handed out. `DequeueWait.HeadWaitsInCalls` bounds the wait in calls of
  `try_dequeue`, `Draining.DrainsExactly` says when draining ends. Charge and quantum together within an `i64` are
  always enough for the second condition.
- `README.md:102` promises that cancellation does not permanently consume capacity. Slots it does not, in any
  interleaving (`SlotProtocol.SlotLaw`). But a cancel takes the id before it sets the marker, so a marker may be set
  when its entry is gone (`SlotProtocol.MarkerMayOutliveEntry`), and then nobody ever looks for it again:
  `MarkerFate.MarkerHasEntryExactly` says which markers are lost so, `MarkerFate.SetMarkerCollectedExactly` which
  ones can still be collected when they are set.

## Model

| member | source | states |
|---|---|---|
| `SlotProtocol.SlotLaw` | crates/firq-core/src/scheduler.rs:87-125 | In every interleaving the slot counter equals the pending ids plus the slots threads hold, never exceeds the global limit, and the saturating subtraction of a release never truncates |
| `SlotProtocol.OneWinner` | crates/firq-core/src/scheduler.rs:208-231 | At most one `take_pending` succeeds per id over a whole run, whoever races for it, so a cancelled task is never delivered, a delivered one's cancel finds nothing, nothing is delivered twice; and a holder of an entry that loses its id lost to an earlier winner |
| `SlotProtocol.PendingIsSomewhereOnce` | crates/firq-core/src/scheduler.rs:907-925 | A pending id's entry is queued or in exactly one thread's hand, never both and never gone |
| `SlotProtocol.MarkedMeansCancelled` | crates/firq-core/src/scheduler.rs:312-320 | After a marker was found, taking the pending id always fails: the slot release on that path never happens |
| `SlotProtocol.MarkerMayOutliveEntry` | crates/firq-core/src/scheduler.rs:480-490 | Cancel is two steps: a reachable interleaving leaves a marker whose entry is gone |
| `MarkerFate.MarkerHasEntryExactly` | crates/firq-core/src/scheduler.rs:480-490 | In every interleaving a set marker has its entry, queued or in a thread's hand, if and only if no holder of that entry ever lost the race for its id |
| `MarkerFate.SetMarkerCollectedExactly` | crates/firq-core/src/scheduler.rs:221-231 | A marker, when it is set, can still be collected if and only if no holder has lost the id and none is past its look with only the id left to take; otherwise it stays set in every continuation |
| `MarkerFate.StepKeepsMarkers` | crates/firq-core/src/scheduler.rs:312-320 | Every atomic step keeps: one marker per id, about to be set, set or being collected; a lost id has no entry; a marker without entry has a loser |
| `SlotProtocol.EmptyCounterExactly` | crates/firq-core/src/scheduler.rs:141-147 | In every interleaving the counter a draining scheduler reads is zero if and only if nothing is pending and no thread holds a slot |
| `SlotProtocol.ReleaseKeepsSlots` | crates/firq-core/src/scheduler.rs:107-125 | Each turn of the release loop, won or lost, keeps the slot law and gives back no more than the counter holds |
| `SlotProtocol.StepIsSafe` | crates/firq-core/src/scheduler.rs:994-1017 | Every atomic step of every thread keeps the whole protocol invariant, eviction with slot reuse included |
| `ShardActivation.OneToken` | crates/firq-core/src/scheduler.rs:127-131 | In every interleaving of lock sections, list and flag operations and cancel steps a shard's places in the active list plus the threads that have it in hand are one if a ring of it is non-empty and none otherwise; an activating enqueuer finds the flag clear |
| `ShardActivation.ListIsExact` | crates/firq-core/src/scheduler.rs:500-522 | No shard is listed twice; with no thread between steps, flag, list and non-empty rings agree |
| `ShardActivation.QueuedWorkHasToken` | crates/firq-core/src/scheduler.rs:930-941 | While a tenant has queued work its shard's token is in the list or in a thread's hand |
| `ShardActivation.InterleavedSafety` | crates/firq-core/src/scheduler.rs:543-619 | In every interleaving, whatever sections are told about ids and slots: queued work is flagged and its tenant listed in its own shard, limits hold, queues ascend, each lane is served in order and before deadlines |
| `ShardActivation.EnqueueIsStep` | crates/firq-core/src/scheduler.rs:875-948 | Every enqueue of the sequential scheduler is one step of the interleaved protocol |
| `ShardActivation.DequeueIsStep` | crates/firq-core/src/scheduler.rs:493-534 | Every shard dequeue of the sequential scheduler is one step of the interleaved protocol |
| `ShardActivation.TurnIsSteps` | crates/firq-core/src/scheduler.rs:500-522 | Popping a shard, its section and pushing it back come to one turn of the sequential loop on list and flags |
| `ShardActivation.ActivationIsSteps` | crates/firq-core/src/scheduler.rs:127-131 | Swapping the flag and pushing a shard that was clear come to the sequential activation |
| `ShardActivation.CancelIsSteps` | crates/firq-core/src/scheduler.rs:480-490 | The three steps of a cancel come to the sequential cancel |
| `ShardActivation.MidCancelIsUnreachable` | crates/firq-core/src/scheduler.rs:480-490 | Between the first two steps of a cancel the world is one no sequence of whole operations reaches |
| `Sections.EnqueueIsSection` | crates/firq-core/src/scheduler.rs:875-948 | The sequential enqueue changes its shard as a section does that is told what the books say |
| `Sections.DequeueIsSection` | crates/firq-core/src/scheduler.rs:536-641 | So does the sequential shard dequeue |
| `LocalSafety.EnqueueLocal` | crates/firq-core/src/scheduler.rs:887-941 | Whatever it is told, an enqueue section keeps flags, listings, order and limits of its shard; accepted, it leaves a ring entry, refused, the rings are as before |
| `LocalSafety.DequeueLocal` | crates/firq-core/src/scheduler.rs:536-641 | Whatever it is told, a dequeue section keeps its shard, adds no entry, and delivers an unexpired head older than all its lane still holds |
| `Guarantees.NoLostTenant` | crates/firq-core/src/scheduler.rs:288-303 | In every reachable world a non-empty queue has its flag set and a set flag has its tenant in the ring of its own shard |
| `Guarantees.SingleOutcome` | crates/firq-core/src/scheduler.rs:305-375 | Every id handed out is in exactly one of pending, dispatched, expired, evicted, cancelled; the queued ids are the disjoint union of pending ids and waiting markers |
| `Guarantees.Conservation` | crates/firq-core/src/scheduler.rs:188-206 | enqueued = dequeued + expired + evicted + cancelled + queue length; dropped splits into its four reasons; the queue length counts the pending ids and respects the global limit |
| `Guarantees.TenantLimit` | crates/firq-core/src/scheduler.rs:894-905 | Under every policy a tenant physically holds at most `max_per_tenant` entries |
| `Guarantees.DeficitAccounting` | crates/firq-core/src/scheduler.rs:586-597 | A deficit is always refills minus charges as an `i64`, hence the plain difference if and only if that fits |
| `Guarantees.DeficitBound` | crates/firq-core/src/scheduler.rs:586-597 | A lane whose own tasks charge at most C and whose tenant's quanta are at most Q, with C - 1 + Q within an `i64`: deficit plus charged equals refilled and 0 <= deficit <= C - 1 + Q, whatever other tenants do |
| `Draining.RefillHelpsExactly` | crates/firq-core/src/scheduler.rs:593-597 | A refill brings an unaffordable live head nearer if and only if deficit plus configured quantum fits an `i64` |
| `Refills.PayableExactly` | crates/firq-core/src/scheduler.rs:593-597 | Some number of `i64` refills covers a charge if and only if it is at most I64_MAX - (I64_MAX - deficit) mod g, g the largest power of two dividing the quantum |
| `Refills.RoundsIsCeiling` | crates/firq-core/src/scheduler.rs:586-597 | While charge and quantum together fit, the refills needed are the ceiling of the shortage over the quantum |
| `Refills.RoundsStep` | crates/firq-core/src/scheduler.rs:593-597 | A refill uses up one of the rounds a head needs, and leaves a head out of reach out of reach |
| `Preservation.StepKeeps` | crates/firq-core/src/scheduler.rs:875-948 | Every move (enqueue with any policy and outcome, cancel, ring visit, quantum change, timeout give-up) keeps the invariant of queues, ids, rings, deficits and limits |
| `Preservation.TurnKeeps` | crates/firq-core/src/scheduler.rs:543-619 | A ring visit keeps the tenant's lanes, deficits and flags, logs one visit, and never meets an entry that is queued but neither pending nor marked |
| `Preservation.RunKeeps` | crates/firq-core/src/scheduler.rs:493-641 | The invariant holds after every run from any world that satisfies it |
| `Delivery.DeliveryGuarantees` | crates/firq-core/src/scheduler.rs:558-611 | Over any run each (tenant, priority) is served in acceptance order, each dispatched id exactly once and no other id, and each served task was not past its deadline at its visit, affordable, and charged the cost it was submitted with, clamped to an `i64` |
| `Delivery.QueuedAreNewer` | crates/firq-core/src/scheduler.rs:919-925 | What a queue holds ascends by id and is newer than everything that queue has delivered |
| `Delivery.BalanceBound` | crates/firq-core/src/scheduler.rs:593-621 | In any log of visits a lane whose own tasks and refills are bounded by C and Q, C - 1 + Q within an `i64`, never wraps around and stays within 0 and C - 1 + Q |
| `Throughput.ThroughputBound` | crates/firq-core/src/scheduler.rs:543-621 | A lane without debt that finds a live head on each of k visits, with quantum q and its own charges up to C, C - 1 + q within an `i64`, is served s times with (C+q)s >= qk - C - q + 1 |
| `BoundedWait.HeadWaitsBoundedly` | crates/firq-core/src/scheduler.rs:543-621 | A live head at ring position k that r refills, wrap-around included, make affordable is dispatched within k + 1 + N r pops of a ring never longer than N, whatever else happens |
| `BoundedWait.HeadDispatchedExactly` | crates/firq-core/src/scheduler.rs:543-621 | In pops of its ring: a head that gets k + 1 + N r of them, and is not expired, evicted or cancelled, is dispatched if and only if its charge is within the peak its refills reach |
| `DequeueWait.HandedOutExactly` | crates/firq-core/src/scheduler.rs:536-641 | In dequeues of its shard: where the run has none, or k + 1 + N r, at whose start no higher ring pays, a head that is not expired, evicted or cancelled is handed out if and only if there was one and its charge is within the peak its refills reach |
| `DequeueWait.HandedOutInCalls` | crates/firq-core/src/scheduler.rs:493-534 | The same where the run has n (k + 1 + N r + b) calls of `try_dequeue`, n the shards and b the dequeues of its shard that higher rings took |
| `DequeueWait.HeadWaitsInDequeues` | crates/firq-core/src/scheduler.rs:536-641 | A live head at ring position k that r refills make affordable is no longer waiting after k + 1 + N r dequeues of its shard at whose start no higher ring pays |
| `DequeueWait.HeadWaitsInCalls` | crates/firq-core/src/scheduler.rs:493-534 | Nor after n (k + 1 + N r + b) calls of `try_dequeue`, whatever else is called between them short of an immediate shutdown |
| `DequeueWait.CallsReachHome` | crates/firq-core/src/scheduler.rs:500-526 | While a head waits its shard is dequeued from at least once in as many calls of `try_dequeue` as there are shards |
| `DequeueWait.DequeuePops` | crates/firq-core/src/scheduler.rs:537-559 | A dequeue of the shard pops the tenant's ring if no higher ring pays |
| `DequeueWait.BlockedExactly` | crates/firq-core/src/scheduler.rs:537-621 | A dequeue does not come to a ring if and only if it hands out a task of higher priority |
| `DequeueWait.NoChanceNeverDispatched` | crates/firq-core/src/scheduler.rs:537-621 | While every dequeue of its shard is taken by a higher ring no task of a lane is handed out |
| `Flood.LowStarves` | README.md:100-105 | However many rounds of a free High submission and a `try_dequeue`, a free Low task submitted before them still waits, and the next call hands out the next High task |
| `BoundedWait.OutOfReachNeverDispatched` | crates/firq-core/src/scheduler.rs:593-597 | A head no number of refills covers is never dispatched while its quantum stays, however long the run |
| `BoundedWait.StepUsesBudget` | crates/firq-core/src/state.rs:46-68 | No move raises a waiting head's remaining number of pops, and each pop of its ring lowers it |
| `RoundRobin.VisitsStayLevel` | crates/firq-core/src/scheduler.rs:543-597 | Without deadlines, cancels and evictions, two tenants that stay backlogged in one ring get visit counts at most one apart |
| `RoundRobin.VisitsStayLevelFromFresh` | crates/firq-core/src/scheduler.rs:543-597 | The same from a new scheduler on, after any such run |
| `RoundRobin.CalmRunsAreTidy` | crates/firq-core/src/scheduler.rs:930-933 | In such runs a tenant is in its ring exactly once while flagged and not at all otherwise |
| `Draining.TryDequeueShrinks` | crates/firq-core/src/scheduler.rs:493-534 | A `try_dequeue` that meets queued entries lexicographically lowers (entries, total shortage) while charge and quantum fit an `i64` together, and (entries, refills still needed) whenever every head can be paid |
| `Draining.DrainTerminates` | crates/firq-core/src/scheduler.rs:141-147 | Under either condition, with no further enqueues finitely many `try_dequeue` calls leave nothing queued, every id settled, and then answer `Closed` when draining, `Empty` when open |
| `Draining.DrainsExactly` | crates/firq-core/src/scheduler.rs:593-621 | For queues without deadlines draining ends if and only if each lane's tasks, in order, charge no more than the peak of the deficit those before them leave |
| `Draining.RoomIsEnough` | crates/firq-core/src/scheduler.rs:586-597 | Charge and quantum within an `i64` together imply that condition |
| `Draining.ClosedMeansSettled` | crates/firq-core/src/scheduler.rs:528-533 | In drain mode an unserved call answers `Closed` when nothing is pending and `Empty` only when something is; on `Closed` every accepted id was dispatched, expired, evicted or cancelled |
| `Affordability.DequeueFollowsRoute` | crates/firq-core/src/scheduler.rs:537-597 | A shard dequeue visits the entries its rings held at the start, High before Normal before Low, each once and in order, up to the one it serves |
| `Affordability.HigherRingsPassedOver` | crates/firq-core/src/scheduler.rs:593-597 | Before a task is delivered every entry of every higher ring was visited in the same call and had no live head, which cleared its flag, or too little deficit, which added its tenant's quantum |
| `Selection.FirstPayingIsDelivered` | crates/firq-core/src/scheduler.rs:493-534 | `try_dequeue` hands out the live head of the first place that pays, shards in list order, rings High, Normal, Low, one clock reading per place, and nothing if and only if no place pays |
| `Selection.PriorityServedExactly` | crates/firq-core/src/scheduler.rs:537-621 | A shard dequeue serves priority p if and only if some place of ring p pays and none of a higher ring does |
| `Selection.PassServes` | crates/firq-core/src/scheduler.rs:543-621 | A pass of n visits serves the first of its n places that pays, earlier places of the same tenant counted, and changes no quote of another ring if it serves none |
| `Examples.LowerPriorityOvertakes` | crates/firq-core/src/scheduler.rs:593-597 | A run in which a queued High task is passed over for a free Normal one |
| `Examples.LowOvertakesAcrossShards` | crates/firq-core/src/scheduler.rs:500-526 | A run in which an affordable High task of one shard is passed over for a Low task of the shard listed before |
| `Examples.FittingQuantumStarves` | crates/firq-core/src/scheduler.rs:593-597 | With quantum i64::MAX - 1 a task that charges i64::MAX is never handed out, however many dequeues follow |
| `Examples.TenantListedTwice` | crates/firq-core/src/scheduler.rs:295-300 | A run in which a purge clears a flag, leaves the ring entry, and the next enqueue adds a second |
| `Listing.SecondListingExactly` | crates/firq-core/src/scheduler.rs:926-933 | An enqueue lists its tenant a second time if and only if it is admitted, the tenant is in the ring, and its flag is clear or a purge of the enqueue runs when every entry the lane then has is dead |
| `Listing.EnqueueListsExactly` | crates/firq-core/src/scheduler.rs:926-933 | An enqueue adds one listing if it finds its lane so, none otherwise, and changes no other ring |
| `Listing.ListedOnceExactly` | crates/firq-core/src/scheduler.rs:295-300 | Over a run every tenant stays listed at most once per ring throughout if and only if no enqueue of the run meets that condition |
| `Listing.ListedOnceFromFresh` | crates/firq-core/src/scheduler.rs:295-300 | The same for every run of a new scheduler |
| `Limits.PurgeRemovesOnlyDead` | crates/firq-core/src/scheduler.rs:305-365 | A purge keeps survivors in order and removes exactly the dead entries of the dead prefix and of the next `budget` |
| `Limits.TenantFullExactly` | crates/firq-core/src/scheduler.rs:894-905 | Reject and Timeout answer TenantFull if and only if the tenant holds `max_per_tenant` entries, none dead among the first 32 of any queue |
| `Limits.SmallLimitFullExactly` | crates/firq-core/src/api.rs:76-80 | For limits up to 32 that is if and only if the tenant holds `max_per_tenant` uncancelled, unexpired tasks |
| `Examples.DeepDeadEntryStillCounts` | crates/firq-core/src/scheduler.rs:20-23 | With limit 33, after 33 enqueues and a cancel of the last, a tenant with 32 live tasks is refused as full |
| `Admissions.GlobalFullExactly` | crates/firq-core/src/scheduler.rs:891-917 | Reject and Timeout, where the tenant is not full, answer GlobalFull if and only if `max_global` ids are pending and no purge of the call has a pending entry of the tenant past its deadline in reach; they never evict |
| `Admissions.DropExactly` | crates/firq-core/src/scheduler.rs:969-1012 | DropOldest and DropNewest: below both limits nothing moves; at one, refused if and only if every queue not above the incoming priority is empty, as TenantFull exactly for a full tenant; else the oldest or newest of the least important queue goes and leaves its slot, or, dead already, its place |
| `Admissions.SweepFreesExactly` | crates/firq-core/src/scheduler.rs:271-303 | A purge gives slots back if and only if a pending entry past its deadline is in its reach |
| `Admissions.PurgesWhenDue` | crates/firq-core/src/scheduler.rs:237-269 | A purge runs at nine tenths of the tenant's limit and at the 32nd attempt since its last one, and below both limits at no other time |
| `Expiry.NothingExpiresEarly` | crates/firq-core/src/scheduler.rs:233-235 | Whatever counts as expired had a deadline that some clock reading of the run was past |
| `Limits.EvictionRespectsPriority` | crates/firq-core/src/scheduler.rs:1047-1073 | Eviction takes from the least important non-empty queue, never above the incoming priority, and finds nobody if and only if all queues it may touch are empty |
| `Limits.EvictsOneEnd` | crates/firq-core/src/scheduler.rs:1063-1070 | The victim is the oldest or the newest of its queue, by policy, and nothing else leaves |
| `Alone.LoneTaskExactly` | crates/firq-core/src/scheduler.rs:586-621 | From a new scheduler: a lone task whose cost n quanta of its tenant cover and no fewer is handed out by exactly the (n + 1)-th `try_dequeue`, and every earlier one answers `Empty` |
| `Attempts.RetryExactly` | crates/firq-core/src/scheduler.rs:842-873 | A waiting enqueue in terms of single attempts: when it times out, whose state and answer it has otherwise, what it counts |
| `Answers.SubmitAnswers` | crates/firq-core/src/scheduler.rs:919-948 | An accepted task has a fresh id, is pending under it and stands last in its lane; a refused one leaves no trace among the ids |
| `Answers.RefusalsCounted` | crates/firq-core/src/scheduler.rs:188-201 | Over any calls each counter of refusals grows by exactly the calls refused for its reason |
| `Answers.CancelIsFinal` | crates/firq-core/src/scheduler.rs:480-490 | A cancel of a pending task frees its slot at once, and the task is never pending, handed out, expired or evicted after it; any other cancel does nothing |
| `Settings.QuantumFollowsCalls` | crates/firq-core/src/scheduler.rs:377-401 | After any calls a tenant's quantum, seen before or not, is what was last set for it and not cleared, else the last provider's value, else the base, at least 1, as an `i64` |
| `Settings.SetLasts` | crates/firq-core/src/scheduler.rs:396-401 | A set quantum holds in every later state, provider changes included, until the next set or clear for the tenant, and each of its refills is worth it |
| `Settings.ClearFallsBack` | crates/firq-core/src/scheduler.rs:403-407 | After a clear it is the provider's value, or the base without provider |
| `QueueTimes.DeliverySampled` | crates/firq-core/src/scheduler.rs:626-634 | A delivery records one queue time, from submission to the call's last clock reading, not below 0 and within a `u64`; any other call records none |
| `QueueTimes.QueueTimesAddUp` | crates/firq-core/src/scheduler.rs:632-633 | The sum counter is the sum of the recorded queue times |
| `Uninterrupted.EntryStraight` | crates/firq-core/src/scheduler.rs:312-326 | The atomic steps of one thread that purges, drops, serves or evicts an entry come to the sequential operation |
| `Uninterrupted.EnqueueStraight` | crates/firq-core/src/scheduler.rs:87-105 | So do the steps of an enqueue |
| `Uninterrupted.CancelStraight` | crates/firq-core/src/scheduler.rs:480-490 | So do the steps of a cancel |
| `Service.PerformIsRun` | crates/firq-core/src/scheduler.rs:493-534 | Every public operation moves the world by a run of lock-section moves |
| `Service.OperationsReach` | crates/firq-core/src/scheduler.rs:425-449 | From a new scheduler every sequence of operations leads to a reachable world |
| `Service.EnqueueRings` | crates/firq-core/src/scheduler.rs:887-941 | After an accepted enqueue its shard has a ring entry; no enqueue empties a ring or touches another shard |
| `Service.PerformAllKeeps` | crates/firq-core/src/scheduler.rs:500-522 | After any operations a shard is listed, once, exactly while flagged, exactly while one of its rings is non-empty |
| `Service.ClosingIsTighter` | crates/firq-core/src/scheduler.rs:149-163 | A close leaves the tighter of the state there was and the one asked for, Open before Drain before Immediate |
| `Service.ShutdownOnlyTightens` | crates/firq-core/src/scheduler.rs:149-186 | No operation ever loosens shutdown, and every close is at least as tight as it asked for ever after |
| `Service.ClosedForGood` | crates/firq-core/src/scheduler.rs:493-496 | After any close every enqueue answers closed, after an immediate one every dequeue does, and neither changes anything |
| `ActiveRing.RunRefinesFifo` | crates/firq-core/src/state.rs:46-68 | Over any run, output followed by contents is what was pushed; the dead prefix stays within max(64, live length); elements moved by compaction never exceed pops |
| `ActiveRing.StepsAreFifo` | crates/firq-core/src/state.rs:46-68 | Push appends, pop takes the first element, both keep the ring well formed and the compaction bound |
| `ActiveRing.EmptyExactlyWhenDrained` | crates/firq-core/src/state.rs:54-57 | A pop answers nothing if and only if everything pushed has come out |
| `ActiveRing.ActiveRing.Len` | crates/firq-core/src/state.rs:38-44 | The length is the number of elements still queued |
| `ActiveRing.ActiveRing.PushBack` | crates/firq-core/src/state.rs:46-52 | In place: the contents grow by the item at the end |
| `ActiveRing.ActiveRing.PopFront` | crates/firq-core/src/state.rs:54-68 | In place: the first element leaves, with the compaction counted |
| `TopTenants.SpaceSaving` | crates/firq-core/src/state.rs:168-197 | Counts add up to the recorded weight M; a tracked count is between the truth and the truth plus M/k; an untracked tenant is within the least tracked count; more than M/k is always tracked |
| `TopTenants.SketchKeepsGuarantee` | crates/firq-core/src/state.rs:168-197 | Recording any stream keeps counts exact in sum, tenants distinct, and errors within the least count |
| `TopTenants.SnapshotSorts` | crates/firq-core/src/state.rs:199-203 | The snapshot is a permutation of the table in descending order of count |
| `TopTenants.SnapshotIsStable` | crates/firq-core/src/state.rs:199-203 | Equal counts keep their table order |
| `TopTenants.TopTenants.Record` | crates/firq-core/src/state.rs:168-197 | In place: the table after the call is the sketch of the stream with the new event |
| `Histogram.CumulativeCountsSamples` | crates/firq-core/src/scheduler.rs:78-85 | The first b + 1 buckets together count exactly the samples not above bound b |
| `Histogram.RoundedWithinFive` | crates/firq-core/src/state.rs:9-22 | A reported queue time is at least ten microseconds, and up to a second less than five times the true one |
| `Histogram.FirstReachingBucket` | crates/firq-core/src/scheduler.rs:736-750 | The first bucket whose cumulative count reaches rank r is the one of the r-th smallest sample |
| `Histogram.RankInRange` | crates/firq-core/src/scheduler.rs:739-740 | The rank of a percentile in (0, 1] is the least that reaches the share, and lies between 1 and the number of samples |
| `Histogram.Histogram.RecordQueueTime` | crates/firq-core/src/scheduler.rs:78-85 | In place: the counts are those of the samples with the new one |
| `Histogram.Histogram.Percentile` | crates/firq-core/src/scheduler.rs:734-751 | The least bucket bound that the asked share of the samples does not exceed, which is the nearest-rank quantile of the sorted samples rounded up; 0 without samples; the fallback behind the loop is unreachable |
| `Metrics.TopTalkers` | crates/firq-core/src/scheduler.rs:621-636 | For D dispatches and k slots the table's counts add up to D, err by at most D/k, and every tenant with more than D/k dispatches is in it |
| `Metrics.RecordedDispatches` | crates/firq-core/src/scheduler.rs:623-634 | Queue-time samples and recorded tenant events are as many as the dispatches, in all and tenant by tenant |
| `Loops.PurgeAddsUp` | crates/firq-core/src/scheduler.rs:271-286 | The counters kept by the purge loops add up to the purge on values: every released slot is a pending id that expired |
| `Loops.PurgingTrans` | crates/firq-core/src/scheduler.rs:305-365 | Removals in two loops account for ids, markers and slots like one removal |
| `Loops.ScanStep` | crates/firq-core/src/scheduler.rs:337-364 | One turn of the side scan keeps the queue equal to the filtered front plus the untouched rest |
| `Scheduler.OneMoreOp` | crates/firq-core/src/scheduler.rs:461-478 | One more operation keeps the invariant and extends the run from a new scheduler |
| `Scheduler.Scheduler.constructor` | crates/firq-core/src/scheduler.rs:425-449 | A new object is valid and in the fresh state |
| `Scheduler.Scheduler.PurgeQueueWithBudget` | crates/firq-core/src/scheduler.rs:305-365 | The two loops leave the live entries of q'[..b] followed by q'[b..], q' being the queue without its dead prefix; pending ids, markers, expired count and released slots account for exactly the removed entries |
| `Scheduler.Scheduler.PurgeTenantWithBudget` | crates/firq-core/src/scheduler.rs:288-303 | The loop over the queues purges each and clears the flags of the emptied ones |
| `Scheduler.Scheduler.PurgeTenantForEnqueue` | crates/firq-core/src/scheduler.rs:271-286 | New tenant, ids, counters and released slots are those of the purge on values |
| `Scheduler.Scheduler.AdmitByPurging` | crates/firq-core/src/scheduler.rs:891-917 | A slot is reserved or refused as `Limits.TenantFullExactly` and `Admissions.GlobalFullExactly` say |
| `Scheduler.Scheduler.AdmitByEvicting` | crates/firq-core/src/scheduler.rs:969-1012 | A slot is reserved, reused from the victim or refused as `Admissions.DropExactly` says |
| `Scheduler.Scheduler.DropFromTenant` | crates/firq-core/src/scheduler.rs:1047-1073 | The loop over the drop order evicts from the lane and the end the policy names |
| `Scheduler.Scheduler.EnqueueAttempt` | crates/firq-core/src/scheduler.rs:875-1041 | One enqueue lock section with activation, any policy, any outcome, on the whole state |
| `Scheduler.Scheduler.EnqueueTimeout` | crates/firq-core/src/scheduler.rs:842-873 | Times out if and only if the first attempt and one after each wake-up are all refused, and then counts one timeout and one drop; otherwise state and answer are those of the first attempt that is not, and nothing is counted |
| `Scheduler.Scheduler.Enqueue` | crates/firq-core/src/scheduler.rs:461-478 | The tenant's own policy, else the default, decides whether the call waits as above or is one attempt whose refusal is counted |
| `Scheduler.Scheduler.CancelTask` | crates/firq-core/src/scheduler.rs:480-490 | Cancelled if and only if the id was pending; then id, marker, slot and counter move together |
| `Scheduler.Scheduler.GiveTurn` | crates/firq-core/src/scheduler.rs:553-637 | One visit: dead heads go, then the tenant goes idle, is refilled, or is served; what a task is charged is in `Delivery.DeliveryGuarantees`, how many refills it takes in `Alone.LoneTaskExactly` |
| `Scheduler.Scheduler.TryDequeueFromShard` | crates/firq-core/src/scheduler.rs:536-641 | The nested loops compute the shard dequeue |
| `Scheduler.Scheduler.TryDequeue` | crates/firq-core/src/scheduler.rs:493-534 | The loop over active shards computes the operation, answer and list included |
| `Scheduler.Scheduler.SetShutdownMode` | crates/firq-core/src/scheduler.rs:149-186 | The new state is that of the close operation, which `Service.ClosingIsTighter` and `Service.ShutdownOnlyTightens` describe; nothing else changes |
| `Scheduler.Scheduler.SetQuantumProvider` | crates/firq-core/src/scheduler.rs:410-422 | Every tenant of every shard gets the quantum that `Settings.QuantumFollowsCalls` describes |
| `Scheduler.Scheduler.QueueTimePercentile` | crates/firq-core/src/scheduler.rs:724-751 | The least bucket bound that the asked share of the queue times of all tasks dispatched so far does not exceed |
| `Scheduler.Scheduler.TopTenantsSnapshot` | crates/firq-core/src/scheduler.rs:761-780 | Descending, and containing everybody with more than dispatches / capacity dispatches |
| `Scheduler.Scheduler.ObjectQuantum` | crates/firq-core/src/scheduler.rs:377-401 | The object's quanta are those its calls so far choose |
| `Scheduler.Scheduler.ObjectReaches` | crates/firq-core/src/scheduler.rs:42-56 | A valid object is in a reachable world, so all theorems about reachable worlds are about it |

## Left out

- `firq-async`, `firq-tower`, `firq-bench`, `firq-examples`, Prometheus text, HTTP mapping, builders, `Debug`: wrappers and plumbing.
- Memory orderings and the insides of mutexes and condition variables: atomics and lock sections are sequentially consistent steps.
- `dequeue_blocking`, `dequeue_blocking_timeout` and `WorkSignal`: wake-ups and back-off; that every sleeping consumer is woken is not established by the code.
- Scheduler.Scheduler.EnqueueTimeout: the deadline is the number of wake-ups before it passes; clock readings of the waiting loop are not samples of the model's clock, and no other operation runs between two attempts of one call (runs that put some there are runs of `Service.PerformAll`).
- Scheduler.Scheduler.TryReserveSlot: one step, like `ReleaseReservedSlots`; their compare-and-swap loops are in `SlotProtocol`.
- Scheduler.Scheduler.SetShutdownMode: one step; the compare-and-swap retry it loops over needs a second thread.
- Scheduler.Scheduler.TryDequeue: its answer also names the id of the delivered entry, which the source drops.
- Histogram.Histogram.Percentile: percentiles are exact rationals, so rounding of `f64` is not modelled; nor are the saturation ratio and its division.
- Counters are unbounded: saturation of `u64` counters at their maximum is not modelled, except in `TopTenants.Recorded`, and overflow of `usize` and of fresh ids is not either.
- Builds with overflow checks: where the model's `i64` additions wrap around, such a build panics instead.
- Tenant and shard records are values held in the class's fields, because the source owns them inside their shard; a ring inside a shard is its FIFO contents, which `ActiveRing` is proved to refine.
- The two branches inside the purge loops are one method that both loops call; enqueue's common tail is one method that both policies call.
- SlotProtocol.OneWinner: any thread may pick any queued entry at any time, which allows more interleavings than the shard locks; queue order and limits per tenant are not part of that protocol model.
- MarkerFate.SetMarkerCollectedExactly: expiry is not part of that protocol model, so a holder that purges or drops heads may put any unmarked entry back.
- ShardActivation.OneToken: shutdown is not part of that protocol model; inside a section only the shard's own state is followed, ids and slots may be anything between any two operations.
- Selection.FirstPayingIsDelivered: clock readings never go back; so too in `DequeueWait`.
- Drain-mode completeness under concurrency: an enqueue already past its check may still land after a concurrent `Closed`.
- Draining.DrainsExactly: with deadlines the condition stays sufficient (`Draining.DrainTerminates`) but not necessary, because a task that cannot be paid may expire.
