# Verification of Upstat's decision and delivery paths

This project models the parts of Upstat that decide, remember and deliver, and proves what they promise over every
run: the uptime pipeline, config propagation, the consumer's and the notifier's retry protocols, the sign-in limiter
and handoff, the rule evaluator, and two browser algorithms. `dafny verify dfyconfig.toml` checks all of it.

## The modules

- `Machine`, `Scheduler`, `Evaluator`, `Consumer`, `Pipeline`: the uptime decision path across three services. The Go
  scheduler leases monitors and queues each slot's answers in the transaction that advances the slot; the Python
  evaluator collects answers into ticks and runs the state machine; the Go consumer stores transitions and keeps the
  auto-incident. `Wire` holds what travels between them. `Pipeline` composes the three with a config snapshot that may
  lag and proves the claims that span them. `Verdicts` watches the evaluator from outside and proves that its records and
  verdicts are what the collected answers and the settings say; `EndToEnd` carries that to the stored row.
- `LimiterHistory`, `MemoryLimiter`, `RedisLimiter`: one sign-in limiter written twice, each proved against a third
  description, the full history of admitted starts.
- `Snapshots`, `SnapshotLocks`, `Outbox`: the outbox publisher. `Snapshots` is the protocol of one config kind with
  concurrent publishers, roll-backs and readers, and the two classes at its ends; `SnapshotLocks` the lock order across
  kinds; `Outbox` one publish pass over all kinds and its link to the protocol.
- `Handoff`: the one-time redeem with its single conditional update, as a protocol of interleaved redeems and as the
  method that performs one of them against a rival.
- `Flapping`, `Deliveries`, `MissedOutages`, `Dispatcher`, `RuleEvaluation`: the notifier's flapping guard, retry ladder and
  missed-outage marks, the message dispatcher's redrive schedule, and the rule evaluator's passes and change chain.
- `VirtualWindow`, `QueryString`: the windowed log list and the explorer's query string.

Code that changes things in place is a class whose methods are proved equal to functions of the state before; the
theorems are about those functions and about every run of them. A run is a sequence of steps, each enabled in the state
before it. `Basics` holds shared definitions.

## Where the code does less than it says

Each of these is a lemma, with the exact condition where there is one. The branch that parks a refused
outbox row is not among them: for a config row it is never taken while the bucket has a name (`Snapshots.NeverParks`).

- A transition whose publish is refused is published by a later flush, after newer ones. The stored status still
  converges, but the incident need not: a new monitor's late outage opens one while it is up
  (`Pipeline.RefusedPublishStrandsIncident`). While none of the monitor's own transitions waits to be published again and
  they are read in order, the incident follows the status (`Pipeline.IncidentFollowsStatus`). In every run from rest that falls
  quiet the two agree exactly when the last opening or closing transition to arrive first opens as the last of the
  history does (`Pipeline.IncidentAgreesIff`).
- A pass that outlives its lease can queue an older slot after a newer one (`Scheduler.LapsedLeaseReorders`). With queued
  slots below `next_run_at`, a completion keeps the order exactly when none of its monitors has moved past its claimed slot
  (`Scheduler.OrderIffAhead`). It keeps the order and leaves queued slots below `next_run_at` exactly when it finds
  `next_run_at` as it was claimed, the condition `CompleteMonitors` itself tests before it moves a monitor on; over a run
  both are kept exactly when every completion does (`Scheduler.RunRisesIffGuarded`). A pass inside its lease always does.
- The limiter's window is half-open: a closed window of the same length can hold up to twice the rate, and does for every
  rate (`LimiterHistory.ClosedWindowReachesTwice`). It keeps the rate exactly when the starts on its edge fit with the rest
  (`LimiterHistory.ClosedWindow`).
- The Redis limiter truncates the clock to milliseconds, so the two limiters can answer differently. For any clock
  readings they agree on all sequences under all whole-millisecond limits exactly when the part below a millisecond never
  drops between two of the readings (`RedisLimiter.AgreeIffFractionsKeep`), as with a clock of whole milliseconds.
- The list window's spacers and slice make up the content height only while the list is scrolled less than overscan + 1
  collapsed rows past its end (`VirtualWindow.ComputeVirtualWindow`); the condition is exact.
- Pills and text set in the browser survive the query string exactly when every pill is well formed (no white space, no
  bar, no colon in the facet, no leading minus unless negated) and the text splits to itself (`QueryString.RoundTripIff`);
  the text a split leaves always does.
- A delivery id can have two outcomes. A recovery is sent and waits on the ladder, then a later rule's suppressed record is
  not published: the handling raises before the transition is marked, the transition arrives again and the same id is
  dispatched again (`Deliveries.RedispatchSendsTwice`). An id that no longer waits has exactly one outcome exactly when the
  steps of its run add up to one (`Deliveries.OneOutcomeIff`): a dispatch adds one when it ends at once or finds nothing
  waiting, and a detached channel takes what waits away. While every handling comes to its end and sends no id twice, each
  delivery on an attached channel has exactly one (`Deliveries.CleanHasOneOutcome`).
- A message recorded as failed whose offset was not committed is handled again. Exactly the deliveries of an id that is
  neither seen nor parked handle it (`Dispatcher.HandledIff`), at most 3 + 4 times each (`Dispatcher.TotalBounded`), and
  any number of deliveries can take all seven (`Dispatcher.FailedIsHandledAgain`).

## What is assumed

- Each handler runs until it returns or raises; sending, publishing, committing and leases may fail. Working state keeps
  what was put in it, without expiry.
- A tracked monitor stays active. The limiter and the flapping window need a clock that does not go back, and the limiter
  fixed limits and reservation ids used once.
- Tick and delivery ids, hashes, S256 challenges and sealed tokens are injective; handoff codes are drawn once.
- Times are integers, in seconds for the Python services and nanoseconds for the limiter; list heights are reals. Row
  choice under SKIP LOCKED, publish outcomes and the network are free choices.
- List rows have a positive fixed height, extras are not negative and name distinct rows.

## Model

| member | source | states |
|---|---|---|
| `Machine.QuorumRule` | api/analytics/evaluator/machine.py:41-49 | the two quorum branches are one rule: a tick fails when at least min(max(1, quorum), regions that reported) regions fail, and is undecided exactly when none reported |
| `Machine.QuorumMonotone` | api/analytics/evaluator/machine.py:41-49 | one more failing region never clears a failed tick |
| `Machine.StateIsHistory` | api/analytics/evaluator/machine.py:52-78 | after every history of ticks and timers: the failure count is the trailing run of failed decided ticks, the status is what the history alone says, and it is down exactly when that run reaches max(1, threshold) |
| `Machine.StepMoves` | api/analytics/evaluator/machine.py:52-84 | a step emits a transition exactly when the status moves, by a legal move, numbered one up |
| `Machine.TransitionsChain` | api/analytics/evaluator/machine.py:52-84 | the transitions are numbered without gaps, each starts where the last ended, no two neighbours are equal, and the last one is the current status |
| `Scheduler.SlotIsLatest` | api/common/internal/repository/monitors.go:106-125 | the claimed slot is the latest time at or before now in the residue class of next_run_at |
| `Scheduler.PayloadsWellFormed` | api/common/internal/service/scheduler.go:174-203 | every queued result carries its slot's tick id and the full set of regions asked |
| `Scheduler.PayloadsReport` | api/common/internal/service/scheduler.go:174-203 | each queued message says what its check found: the region, missing or its verdict and cause, when, and a timeout of at least one |
| `Scheduler.LeasedIsDue` | api/common/internal/repository/monitors.go:106-125 | a leased monitor is due again when the lease has run out |
| `Scheduler.CompletedIsDue` | api/common/internal/repository/monitors.go:127-141 | a completed monitor is free and due at the slot after the claimed one, or when an edit meanwhile says |
| `Scheduler.ReleasedIsDue` | api/common/internal/repository/monitors.go:143-149 | a released monitor is due at once |
| `Scheduler.MonitorTable.ClaimDueMonitors` | api/common/internal/repository/monitors.go:106-125 | leases at most the limit of due, unleased, active monitors and returns each with its slot |
| `Scheduler.MonitorTable.Relay` | api/common/internal/service/scheduler.go:174-203 | queues every answer and completes every monitor in one transaction, or changes nothing |
| `Scheduler.MonitorTable.Dispatch` | api/common/internal/service/scheduler.go:110-125 | a relay that fails releases the leases if it can and queues nothing |
| `Scheduler.NextKeeps` | api/common/internal/repository/monitors.go:127-149 | no interleaving of claims, completions, releases and lapses moves next_run_at back |
| `Scheduler.AdvanceQueues` | api/common/internal/service/scheduler.go:174-203 | whenever next_run_at advances, the same step queues one result per region for the slot just left |
| `Scheduler.RunKeeps` | api/common/internal/repository/monitors.go:106-149 | over every run next_run_at never decreases and every queued message has its own slot's id |
| `Scheduler.NextKeepsPlaced` | api/common/internal/repository/monitors.go:106-141 | every step keeps a pass's slot whole intervals from its monitor's next_run_at, and once that passed the claimed one the slot just before it is queued |
| `Scheduler.RisesIffGuarded` | api/common/internal/repository/monitors.go:127-141 | a step queues later slots only and leaves all queued slots below next_run_at exactly when it is no completion, or finds next_run_at as claimed for each of its monitors, lease or no lease |
| `Scheduler.RunRisesIffGuarded` | api/common/internal/repository/monitors.go:127-141 | over every run each step does so exactly when each completion is so guarded, and then the queued slots strictly increase |
| `Scheduler.OrderIffAhead` | api/common/internal/repository/monitors.go:106-141 | the order alone: with queued slots below next_run_at, a completion queues later slots only exactly when none of its monitors has moved past its claimed slot; the guard implies that |
| `Scheduler.InTimeIsGuarded` | api/common/internal/repository/monitors.go:106-141 | a completion inside its lease is guarded |
| `Scheduler.InTimeSlotsIncrease` | api/common/internal/repository/monitors.go:106-149 | so a pass that ends inside its lease queues slots later than all queued before, and the leases stay exclusive |
| `Scheduler.RunSlotsIncrease` | api/common/internal/repository/monitors.go:106-149 | over every run of such passes a monitor's queued slots strictly increase |
| `Scheduler.LapsedLeaseReorders` | api/common/internal/service/scheduler.go:83-125 | a concrete run with a lapsed lease and an unguarded completion queues an older slot after a newer one |
| `Scheduler.LapsedLeaseMayKeepOrder` | api/common/internal/service/scheduler.go:83-125 | a concrete run with an unguarded completion keeps the order, and queues a slot its monitor has still to come to |
| `Evaluator.Service.StateOf` | api/analytics/evaluator/__init__.py:41-47 | the saved state unless the snapshot knows a newer transition |
| `Evaluator.Service.OnResult` | api/analytics/evaluator/__init__.py:52-79 | collects one answer: ignored when closed, else recorded, and the complete tick closed and dropped; what a record then holds is Verdicts.RecordsShowAnswers |
| `Evaluator.Service.Close` | api/analytics/evaluator/__init__.py:81-88 | applies a tick to the machine with the monitor's threshold and quorum, commits, and raises the closed stamp; what that means over a run is Verdicts.VerdictIsAnswers |
| `Evaluator.Service.Commit` | api/analytics/evaluator/__init__.py:116-127 | stores the transition, then the state, then publishes |
| `Evaluator.Service.Emit` | api/analytics/evaluator/__init__.py:135-144 | a published transition is removed from the store, a refused one stays |
| `Evaluator.Service.FlushAll` | api/analytics/evaluator/__init__.py:129-133 | tries every stored transition once more |
| `Evaluator.Service.CloseExpired` | api/analytics/evaluator/__init__.py:97-104 | no tick stays past its deadline; those of active monitors reach the machine |
| `Evaluator.Service.RunTimers` | api/analytics/evaluator/__init__.py:105-114 | runs the nodata timer of every active monitor, leaves none due, and counts the transitions |
| `Evaluator.Service.Sweep` | api/analytics/evaluator/__init__.py:90-114 | a whole pass is a run of the atomic steps, retries every stored transition, and leaves no expired tick and no due timer |
| `Evaluator.SlotsAppliedOnce` | api/analytics/evaluator/__init__.py:52-114 | however answers are duplicated, delayed or swept, no slot reaches the machine twice and the closed stamp never falls |
| `Evaluator.CollectIdempotent` | api/analytics/evaluator/__init__.py:52-79 | the same answer twice is the same as once |
| `Evaluator.NextKeepsTracked` | api/analytics/evaluator/__init__.py:116-144 | every step keeps each transition stored or published, and all copies of a number equal |
| `Evaluator.NothingLost` | api/analytics/evaluator/__init__.py:116-144 | each number up to the evaluator's is stored or published, and two copies of one number are one message |
| `Evaluator.NextKeepsOrder` | api/analytics/evaluator/__init__.py:116-144 | while none of its transitions waits to be published again, every step keeps a monitor's transitions on the bus in number order, whatever happens to other monitors |
| `Verdicts.RecordsShowAnswers` | api/analytics/evaluator/__init__.py:52-104 | over every run, without naming the handlers: an open record's results are defined at exactly the regions with an answer that is not missing since it was opened, each the ok of the last; missing, time, cause, deadline likewise; a monitor's stamp is the latest slot closed |
| `Verdicts.EveryRunIsWatched` | api/analytics/evaluator/__init__.py:52-114 | every run of the evaluator has this account of its answers |
| `Verdicts.SlotsClosedOnce` | api/analytics/evaluator/__init__.py:59-79 | no slot of a monitor is closed twice, however its answers come |
| `Verdicts.VerdictIsAnswers` | api/analytics/evaluator/__init__.py:81-114 | over every run in which a new monitor stays active with its settings: the failures are the closed ticks in a row in which at least min(max(1, quorum), reporting) regions failed, it is down exactly when they reach max(1, threshold), and its status is what those ticks and the timer say |
| `Verdicts.MovesAreAnnounced` | api/analytics/evaluator/__init__.py:116-144 | a step that moves the status adds one transition with the statuses, number, failures, time, regions and cause of what decided it; a step that does not adds none |
| `Consumer.Service.InsertTransition` | api/common/internal/repository/monitors.go:173-186 | inserts a transition once per monitor and number, and only for a monitor that exists |
| `Consumer.Service.ApplyTransition` | api/common/internal/repository/monitors.go:188-195 | an active row takes a transition only when its number is higher |
| `Consumer.Service.CreateIncident` | api/common/internal/repository/incidents.go:50-77 | appends one incident numbered one above the highest stored number; numbers without gaps stay so |
| `Consumer.Service.OpenMonitorIncident` | api/common/internal/repository/incidents.go:97-100 | an index it returns holds an unresolved incident of the monitor; none is returned only when there is none |
| `Consumer.Service.CloseMonitorIncident` | api/common/internal/service/incidents.go:210-225 | resolves the open auto-incident with a timeline entry; without one nothing changes |
| `Consumer.Service.OnTransition` | api/common/internal/service/consumers.go:37-80 | stores, applies, then opens or closes the incident, all or nothing for a redelivery |
| `Consumer.DeliveredKeepsSound` | api/common/internal/service/consumers.go:37-80 | incident numbers stay dense and no monitor gets a second open auto-incident |
| `Consumer.IncidentsAfter` | api/common/internal/service/consumers.go:37-80 | the exact incident an outage opens or a recovery resolves: number, cause, times and timeline |
| `Consumer.RedeliveryIsNoOp` | api/common/internal/service/consumers.go:37-80 | a redelivery changes nothing, whenever it comes |
| `Consumer.DeliveredKeepsFollows` | api/common/internal/repository/monitors.go:173-195 | under any order the row stands at the highest number stored, with that entry's status and failures |
| `Consumer.AllDeliveredConverges` | api/common/internal/repository/monitors.go:173-195 | once every entry arrived, in any order and any number of times, the row is the last one |
| `Consumer.InOrderIncident` | api/common/internal/service/consumers.go:37-80 | delivered in order, the auto-incident is open exactly while the stored status is down |
| `Consumer.AnyOrderIncident` | api/common/internal/service/consumers.go:37-80 | delivered in any order, the last opening or closing transition to arrive first decides |
| `Consumer.StatusByTouches` | api/common/internal/service/consumers.go:37-80 | along a monitor's history the status is down exactly when the last transition that opens or closes an incident opens one |
| `Consumer.OvertakingRecovery` | api/common/internal/service/consumers.go:37-80 | a recovery that overtakes its outage leaves an incident open on a monitor that is up |
| `Pipeline.EachSlotAtMostOnce` | api/common/internal/service/scheduler.go:77-79 | end to end: each slot reaches the machine at most once, and only if a pass queued it |
| `Pipeline.NoTransitionLost` | api/analytics/evaluator/__init__.py:116-144 | end to end: every transition is published or stored, and bus, store and table hold one message per number |
| `Pipeline.StatusConverges` | api/common/internal/repository/monitors.go:188-195 | when nothing waits and everything arrived, the stored status and number are the evaluator's and the failures its last transition's |
| `Pipeline.RestIsInv` | api/analytics/evaluator/__init__.py:41-47 | a system at rest satisfies the invariant every run starts from |
| `Pipeline.IncidentFollowsStatus` | api/common/internal/service/consumers.go:37-80 | while none of the monitor's own transitions waits for a second publish and its messages are read in order, its incident is open exactly while its stored status is down |
| `Pipeline.IncidentAgreesIff` | api/common/internal/service/consumers.go:37-80 | after any run from rest that fell quiet: incident and status agree exactly when the last opening or closing transition to arrive first opens as the last one of the monitor's history does |
| `Pipeline.RefusedPublishStrandsIncident` | api/analytics/evaluator/__init__.py:129-144 | a whole run from a new pending monitor in which the publish of its outage is refused: the later flush opens an incident on a monitor that is up, with nothing left to deliver |
| `Pipeline.NewMonitorIsRest` | api/analytics/evaluator/__init__.py:41-47 | a new pending monitor with nothing queued satisfies the invariants of every run |
| `EndToEnd.StoredStatusIsAnswers` | api/common/internal/repository/monitors.go:188-195 | end to end: in every run from a new monitor that falls quiet, the stored row is down exactly when the closed ticks that failed in a row reach the threshold, read off the collected answers and the settings |
| `LimiterHistory.SlidingWindow` | api/common/internal/cache/sso_limiter.go:42-67 | in every half-open window of length RateWindow the admitted starts never exceed the rate, per source and overall |
| `LimiterHistory.ClosedWindow` | api/common/internal/cache/sso_limiter.go:111-117 | a closed window of that length holds the half-open one's starts and those on its edge: at most twice the rate, and within the rate exactly when those two fit together, as always with no start on the edge |
| `LimiterHistory.ClosedWindowReachesTwice` | api/common/internal/cache/sso_limiter.go:42-67 | twice the rate is reached for every rate and window, per source and overall: a full rate of starts at once and another one window later |
| `LimiterHistory.PendingCapped` | api/common/internal/cache/sso_limiter.go:42-77 | unreleased, unexpired reservations never exceed the pending limits, at any later time |
| `LimiterHistory.ReleaseFrees` | api/common/internal/cache/sso_limiter.go:69-77 | a release takes its reservation out of the overall list and the named source's, leaves the others, and frees no place in a rate window |
| `LimiterHistory.GlobalIsMerge` | api/common/internal/cache/sso_limiter.go:42-67 | each source's list is the global list's entries for it, in order |
| `LimiterHistory.AfterFaithful` | api/common/internal/cache/sso_limiter.go:69-77 | releases that name their own source keep the global and per-source lists together |
| `MemoryLimiter.PruneTimes` | api/common/internal/cache/sso_limiter.go:111-117 | drops exactly the leading expired entries |
| `MemoryLimiter.PruneReservations` | api/common/internal/cache/sso_limiter.go:94-100 | drops exactly the leading expired reservations |
| `MemoryLimiter.RemoveReservation` | api/common/internal/cache/sso_limiter.go:102-109 | removes the first reservation with the id |
| `MemoryLimiter.Limiter.Prune` | api/common/internal/cache/sso_limiter.go:79-92 | prunes every list and drops the sources left empty |
| `MemoryLimiter.Limiter.Allow` | api/common/internal/cache/sso_limiter.go:42-67 | admits exactly when all four lists have room, and then appends to all four |
| `MemoryLimiter.Limiter.Release` | api/common/internal/cache/sso_limiter.go:69-77 | takes the reservation out of the global and the named source's pending list |
| `MemoryLimiter.PruneIsSelect` | api/common/internal/cache/sso_limiter.go:79-117 | dropping a prefix of a list in expiry order is the same as filtering the history |
| `MemoryLimiter.AllowRefines` | api/common/internal/cache/sso_limiter.go:42-67 | a start is admitted exactly when the history has room, and the slices stay the history's lists |
| `MemoryLimiter.ReleaseRefines` | api/common/internal/cache/sso_limiter.go:69-77 | a release keeps them so |
| `MemoryLimiter.SlicesRefineHistory` | api/common/internal/cache/sso_limiter.go:42-117 | after every well-timed sequence of operations the slices are the history's lists and every answer was the history's |
| `RedisLimiter.Limiter.AllowScript` | api/common/internal/cache/redis.go:108-129 | sweeps four sorted sets, then reserves in all of them or in none |
| `RedisLimiter.Limiter.AllowSSOStart` | api/common/internal/cache/redis.go:138-149 | refuses invalid limits; clock and windows reach the script in whole milliseconds |
| `RedisLimiter.Limiter.ReleaseSSOStart` | api/common/internal/cache/redis.go:152-159 | takes the id out of the two pending sets |
| `RedisLimiter.RedisRefinesHistory` | api/common/internal/cache/redis.go:108-159 | every answer of the script is the answer of the history kept in milliseconds |
| `RedisLimiter.MilliHistoryAgrees` | api/common/internal/cache/redis.go:138-149 | while the clock's sub-millisecond part never drops, the history in milliseconds answers as the exact one |
| `RedisLimiter.LimitersAgree` | api/common/internal/cache/redis.go:108-159 | then the slices and the sorted sets give the same answer to every start of every sequence |
| `RedisLimiter.FractionDropDisagrees` | api/common/internal/cache/redis.go:143-145 | for any two readings whose fraction drops there are limits under which the two disagree |
| `RedisLimiter.AgreeIffFractionKeeps` | api/common/internal/cache/redis.go:143-145 | for two readings, they agree under all whole-millisecond limits exactly when the fraction does not drop |
| `RedisLimiter.AgreeIffFractionsKeep` | api/common/internal/cache/redis.go:138-159 | for any set of clock readings: the limiters agree on every sequence started at them, under all whole-millisecond limits, exactly when no fraction drops between two of them |
| `Snapshots.Bucket.Write` | api/common/pkg/snapshot/snapshot.go:132-155 | replaces the kind's document; the version is above the stored one and not below the clock |
| `Snapshots.Cache.Reload` | api/common/pkg/snapshot/snapshot.go:214-267 | installs what it read unless its version is lower; other kinds are untouched or ignored |
| `Snapshots.NextKeepsOwners` | api/common/internal/repository/outbox.go:61-73 | a queued row is claimed by one transaction, and one transaction holds the kind's lock |
| `Snapshots.NextKeepsWrites` | api/common/internal/outbox/publisher.go:143-156 | each stored document has a higher version and shows no fewer changes than those before it |
| `Snapshots.NextKeepsCover` | api/common/internal/outbox/publisher.go:73-139 | every published row was announced or a row of the kind is still owed |
| `Snapshots.RunKeeps` | api/common/internal/outbox/publisher.go:73-176 | over every run of concurrent publishers, roll-backs and requeues versions strictly rise with what they show |
| `Snapshots.ReaderNeverStepsBack` | api/analytics/config_cache.py:31-45 | no reload, however late, lowers a reader's version or shows it fewer changes |
| `Snapshots.Converges` | api/common/internal/outbox/publisher.go:73-139 | when no row is unpublished and the last message was handled, the reader's copy is the committed config |
| `Snapshots.CurrentIffAnnounced` | api/common/internal/outbox/publisher.go:104-127 | parked rows or not: every reader that handled the log is current exactly when the last message announced the committed config |
| `Snapshots.NeverParks` | api/common/internal/outbox/publisher.go:104-127 | for a known kind and a named bucket the contract accepts every announcement, and no run ever parks a row |
| `Snapshots.QueueEmptyConverges` | api/common/internal/outbox/publisher.go:73-139 | so after any run from the start, with no row queued and the log handled, the reader's copy is the committed config |
| `Snapshots.ParksIffUnpublishable` | api/common/contract/config.changed.schema.json:7-14 | a kind's row can be parked exactly when the kind is not one of the eight or the bucket has no name |
| `SnapshotLocks.NextKeepsValid` | api/common/internal/repository/outbox.go:116-127 | a kind's lock is owned exactly by the transaction that took it |
| `SnapshotLocks.NoDeadlock` | api/common/internal/repository/outbox.go:116-127 | taking kinds in sorted order, the waits followed from any transaction lead in so many steps to one that can go on |
| `SnapshotLocks.NoWaitCycle` | api/common/internal/repository/outbox.go:116-127 | no transaction waits, in any number of steps, for itself |
| `Outbox.Publisher.ClaimOutbox` | api/common/internal/repository/outbox.go:61-73 | the first unsent, unlocked rows in id order, skipping none that fits |
| `Outbox.Publisher.PublishBatch` | api/common/internal/outbox/publisher.go:73-139 | sends and marks exactly the plan of the batch, or fails with nothing marked, any subset of the plan's messages delivered and a prefix of its rewrites stored |
| `Outbox.PlanSettles` | api/common/internal/outbox/publisher.go:95-131 | every claimed row is marked published or parked, exactly once |
| `Outbox.PlanRewrites` | api/common/internal/outbox/publisher.go:143-156 | exactly the batch's config kinds are rewritten, once each, to a higher version showing the committed changes |
| `Outbox.AnnouncedOnce` | api/common/internal/outbox/publisher.go:98-109 | a kind is announced at most once, with the version left in the store |
| `Outbox.RowFates` | api/common/internal/outbox/publisher.go:98-127 | a row repeating an earlier row's kind is marked unsent; any other is parked when refused and sent otherwise |
| `Outbox.MessagesInOrder` | api/common/internal/outbox/publisher.go:95-125 | the messages of a batch are its rows' own, in the order of the rows |
| `Outbox.ConfigRowsAreSent` | api/common/internal/outbox/publisher.go:98-127 | with a named bucket a config row of a known kind is marked published and never parked, whatever else the contract refuses |
| `Outbox.PassIsCommit` | api/common/internal/outbox/publisher.go:95-131 | seen by one kind, a pass marks rows exactly as the protocol's commit does |
| `Handoff.Store.Create` | api/common/internal/auth/handoff.go:71-94 | a new grant is unclaimed, good for five minutes, and its codes stay unique |
| `Handoff.Store.FindByCodeHash` | api/common/internal/repository/accounts.go:92-109 | finds an unexpired record by the channel's code hash, and none only when there is none |
| `Handoff.Store.Claim` | api/common/internal/repository/accounts.go:111-115 | changes the record only while no channel is set, and says whether it did |
| `Handoff.Store.Redeem` | api/common/internal/auth/handoff.go:96-158 | the exact outcome of a redeem for whatever a rival does between its read and its claim; a body redeem goes on exactly when the verifier is not empty and its S256 is the challenge |
| `Handoff.NextKeeps` | api/common/internal/auth/handoff.go:96-151 | every step keeps each record unclaimed, or sealed with the token and code of its one claim |
| `Handoff.RunKeeps` | api/common/internal/auth/handoff.go:96-151 | so does every interleaving |
| `Handoff.FindIff` | api/common/internal/auth/handoff.go:96-118 | a lookup goes on to claim, or answers, exactly when the record is unexpired, the code is its channel's, the verifier matches, and the record is free or sealed through that channel |
| `Handoff.FindAgainIff` | api/common/internal/auth/handoff.go:133-151 | a redeem that lost its claim gets the token exactly when the record is unexpired and sealed through its channel |
| `Handoff.OneTokenPerHandoff` | api/common/internal/auth/handoff.go:96-158 | at most one claim per record; all its successes return that token through that channel, and presented that channel's code and, by body, a verifier that is not empty and whose S256 is the challenge |
| `Flapping.Guard.Flapping` | api/analytics/notifier/__init__.py:126-155 | a transition is held exactly when, over everything handled for the monitor, some transition saw 7 up-down moves in its last 30 minutes and nothing since saw at most 1; it enters and leaves exactly when that changes |
| `Flapping.Guard.Sweep` | api/analytics/notifier/__init__.py:186-200 | every flapping monitor gone quiet leaves, or the pass ends early and the rest are untouched |
| `Flapping.ListShowsWindow` | api/analytics/notifier/__init__.py:126-155 | at any later time the pruned list shows the transitions between up and down of the last 30 minutes, from the whole history |
| `Flapping.ListIsWindow` | api/analytics/notifier/__init__.py:134-136 | after a handled transition the list is exactly the edges of the last 30 minutes |
| `Flapping.FlappingIff` | api/analytics/notifier/__init__.py:126-200 | flapping exactly when some transition saw 7 edges and neither a transition nor a look since saw at most 1 |
| `Deliveries.Notifier.Attempt` | api/analytics/notifier/__init__.py:242-257 | one attempt: detached, delivered, queued on the ladder, or failed for good |
| `Deliveries.Notifier.Finish` | api/analytics/notifier/__init__.py:259-270 | records the outcome, marks a failed down, and keeps the job when the publish fails; what the mark means is MissedOutages.MarkIsFailedDown |
| `Deliveries.Notifier.PublishFinal` | api/analytics/notifier/__init__.py:272-277 | a published outcome drops the key of a queued job |
| `Deliveries.Notifier.AbandonDownRetries` | api/analytics/notifier/__init__.py:279-284 | ends every pending down job of the monitor and channel as failed |
| `Deliveries.Notifier.Dispatch` | api/analytics/notifier/__init__.py:218-234 | skips a detached channel; a recovery settles its place first and quotes the mark then there, or a pending down's time |
| `MissedOutages.MarkIsFailedDown` | api/analytics/notifier/__init__.py:222-270 | over every run: a place is marked exactly when, since the last recovery dispatched there, a down dispatched there failed for good; the mark is when the last of them to fail was dispatched |
| `MissedOutages.MissedIff` | api/analytics/notifier/__init__.py:222-227 | a recovery quotes an outage exactly when, since the last recovery there, some down failed or is still on the ladder, and the time of such a one |
| `Deliveries.Notifier.RetryDue` | api/analytics/notifier/__init__.py:286-302 | touches each due job at most once, and all of them unless the deadline comes first |
| `Deliveries.AbandonedAt` | api/analytics/notifier/__init__.py:279-284 | what abandoning does to each stored job, and to no other |
| `Deliveries.EveryDelivery` | api/analytics/notifier/__init__.py:218-302 | over every run, each dispatch: at most four attempts spaced by the ladder and at most one outcome; stored until that outcome is published, unless its channel was detached or its id dispatched again |
| `Deliveries.OnceDispatchedIsKept` | api/analytics/notifier/__init__.py:218-302 | an id dispatched once on an attached channel is stored exactly while its outcome is unpublished, and afterwards has exactly one published outcome |
| `Deliveries.HeardAreKept` | api/analytics/notifier/__init__.py:242-302 | the published outcomes of an id are those of its dispatches that were neither detached nor displaced, one each, except the one stored |
| `Deliveries.OutlivesIff` | api/analytics/notifier/__init__.py:218-257 | a waiting dispatch outlives another of its id exactly when that one's outcome is published at once and it does not end the waiting one itself |
| `Deliveries.OutcomesAreGains` | api/analytics/notifier/__init__.py:202-302 | over every run the outcomes of an id, with the one that waits, are the sum of what each step adds, as told by the step and by whether the id waits |
| `Deliveries.OneOutcomeIff` | api/analytics/notifier/__init__.py:202-302 | an id that no longer waits has exactly one published outcome exactly when the steps of its run add up to one |
| `Deliveries.CleanHasOneOutcome` | api/analytics/notifier/__init__.py:97-119 | while every handling of a transition comes to its end and sends no id twice, each of its deliveries on an attached channel is stored until its outcome is published and then has that one, however often the transition arrives |
| `Deliveries.RedispatchSendsTwice` | api/analytics/notifier/__init__.py:97-119 | a recovery whose handling raised after the send arrives again while its delivery waits: one id, two published outcomes, and the transition marked handled |
| `Deliveries.OutcomeIsFinal` | api/analytics/notifier/__init__.py:242-302 | a dispatch with an outcome, or no longer stored, is never attempted again and its outcome never changes |
| `Deliveries.RecoveryAbandons` | api/analytics/notifier/__init__.py:222-229 | a recovery leaves no down job of that monitor and channel that can still be attempted |
| `Deliveries.NoneDoomedKept` | api/analytics/notifier/__init__.py:279-302 | and none appears until another down is dispatched there |
| `Dispatcher.Service.Handle` | api/analytics/bus/kafka.py:120-149 | up to three attempts, then seen, failed or parked; without working state nothing is recorded |
| `Dispatcher.Service.RedriveOne` | api/analytics/bus/kafka.py:163-180 | one parked message moves on, or ends; every index into the schedule is in bounds |
| `Dispatcher.Service.Redrive` | api/analytics/bus/kafka.py:151-181 | each due message at most once, and all of them unless the deadline comes first |
| `Dispatcher.NoMessageLost` | api/analytics/bus/kafka.py:120-271 | behind a committed offset every message this service handles is seen, parked or failed; seen and parked are disjoint; one success per id; at most 3 + 4 handlings per delivery |
| `Dispatcher.SeenIsFinal` | api/analytics/bus/kafka.py:120-130 | a seen id is never handled again |
| `Dispatcher.HandledIff` | api/analytics/bus/kafka.py:120-149 | a step handles an id exactly when it delivers a message of ours that is neither seen nor parked, one to three times, or redrives it, once; recorded as failed or not |
| `Dispatcher.TotalBounded` | api/analytics/bus/kafka.py:120-181 | over every run an id is handled at least once and at most 3 + 4 times for each such delivery, all handlings counted |
| `Dispatcher.FailedIsHandledAgain` | api/analytics/bus/kafka.py:120-181 | for any number of deliveries a run in which a failed id is delivered and given up on each time, with seven handlings for each |
| `Dispatcher.ParkedIsSettledInTime` | api/analytics/bus/kafka.py:151-181 | over every run that leaves an id parked, redeliveries add nothing and its due redrives number fewer than four: the fourth due pass settles it |
| `Dispatcher.ParkedWaits` | api/analytics/bus/kafka.py:146-181 | a parked message waits 60 seconds, and 300, 1500 and 3600 after each redrive that fails |
| `VirtualWindow.OffsetOf` | web/src/controllers/virtual-window.ts:45-52 | stopping at the first extra not above gives the height of the rows above |
| `VirtualWindow.IndexAt` | web/src/controllers/virtual-window.ts:55-65 | inverts offsets: the row found starts at or above y and ends below it |
| `VirtualWindow.OffsetIsHeight` | web/src/controllers/virtual-window.ts:45-52 | an offset is the sum of the heights of the rows above |
| `VirtualWindow.SortSorts` | web/src/controllers/virtual-window.ts:77-79 | filtering and sorting leaves the distinct extras in order |
| `VirtualWindow.KeptHeight` | web/src/controllers/virtual-window.ts:77-81 | and changes the height of no row in range |
| `VirtualWindow.StartsWithinIff` | web/src/controllers/virtual-window.ts:83-87 | the slice starts within the list exactly when the scroll position is less than overscan + 1 collapsed rows past the end |
| `VirtualWindow.SpanBound` | web/src/controllers/virtual-window.ts:83-87 | the rows between the viewport's edges are at most its height in rows, rounded up |
| `VirtualWindow.ComputeVirtualWindow` | web/src/controllers/virtual-window.ts:67-95 | every row meeting the viewport is rendered with the overscan rows on both sides, the slice is bounded, and spacers and slice make up the content exactly under that condition |
| `QueryString.SplitQuery` | web/src/controllers/explorer.ts:28-51 | the loop computes the pills and the rest, in order |
| `QueryString.QueryParts` | web/src/controllers/explorer.ts:28-51 | the filter ends at the first bar, and everything behind it, trimmed, is the aggregation |
| `QueryString.WordsKeepLetters` | web/src/controllers/explorer.ts:31-33 | the terms are the characters that are no white space, none lost, none moved |
| `QueryString.ParseIff` | web/src/controllers/explorer.ts:32-45 | a term is a pill exactly when something stands before its first colon, and the pill is its parts |
| `QueryString.RenderParse` | web/src/controllers/explorer.ts:32-45 | a term that is a pill renders back to itself |
| `QueryString.ParseRender` | web/src/controllers/explorer.ts:32-45 | a well-formed pill parses back from its rendering |
| `QueryString.NormalForm` | web/src/controllers/explorer.ts:54-59 | joining a split keeps the terms, pills first and each group in order, and the whole aggregation |
| `QueryString.SplitJoinSplit` | web/src/controllers/explorer.ts:28-59 | for every query, splitting the joined split gives the split back, so join after split is idempotent |
| `QueryString.SplitSettles` | web/src/controllers/explorer.ts:28-51 | the text a split leaves holds no pill and splits to itself |
| `QueryString.RoundTripIff` | web/src/controllers/explorer.ts:28-59 | any pills and any text survive join and split exactly when each pill is well formed and the text is settled |
| `RuleEvaluation.Evaluation.Run` | api/analytics/evaluation.py:102-114 | visits the rules round from the cursor until the deadline, evaluates each alone, and leaves the cursor after the last |
| `RuleEvaluation.Evaluation.EvaluateRule` | api/analytics/evaluation.py:142-155 | a pending change is delivered and nothing computed; otherwise a change is stored, then delivered |
| `RuleEvaluation.Evaluation.DeliverPending` | api/analytics/evaluation.py:157-173 | counts a try, drops after the tenth, and clears only what was published and notified |
| `RuleEvaluation.PassesAreOneCycle` | api/analytics/evaluation.py:102-114 | however the deadline cuts them, consecutive passes are one uninterrupted round |
| `RuleEvaluation.EveryRoundIsFair` | api/analytics/evaluation.py:102-114 | across passes, any stretch of visits as long as the rule list sees every rule once |
| `RuleEvaluation.ChangeIff` | api/analytics/evaluation.py:142-155 | an answer changes the rule to the highest threshold it reaches, unless that is its level or an alert lost its data |
| `RuleEvaluation.NoChangeIff` | api/analytics/evaluation.py:142-155 | with a change pending, or no answer, nothing is computed |
| `RuleEvaluation.TryIff` | api/analytics/evaluation.py:157-173 | what one try of a change publishes, and exactly when it ends delivered or dropped |
| `RuleEvaluation.ChangesChain` | api/analytics/evaluation.py:142-173 | changes form a chain that never goes from alert to no data; each is published at most ten times, always with its own level and time |
| `RuleEvaluation.PendingEndsInTime` | api/analytics/evaluation.py:142-173 | over every stretch of evaluations in which a pending change has not ended, each counted one try on it and computed nothing: it ends within the evaluation after its tenth try |

## Left out

- Scheduler.MonitorTable.ClaimDueMonitors: the order of claiming (oldest first) is not modelled; any due monitor may be skipped as locked.
- Snapshots.Converges: PruneOutbox, which in time deletes a row that stays parked, is not modelled.
- The outer loop of RunChecks and the probes themselves, DNS and HTTP, and the monitor snapshot's other columns.
- Expiry of working state, process crashes inside a handler, cancellation by a timeout between two writes, and pausing or resuming a monitor with transitions in flight: the strong claims do not hold there.
- Manual incidents and edits, incident text, and more than one organisation's incident table.
- Key expiry in Redis and its own clock, and a reservation id used twice.
- Cooldowns, mute windows, renotification, rule matching and the text of alerts.
- SLO status, query windows and other floating-point work.
- Kafka, Postgres, Valkey and object storage beyond a log, tables with atomic transactions, and a map.
- Schema validation other than of the config announcement, logging, sealing internals, token signing, and the services, views and mocks around the core.
