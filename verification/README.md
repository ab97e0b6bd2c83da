# AMPS: delivery and connection protocol

AMPS is a sidecar that takes messages from a RabbitMQ queue, hands each to a workload over HTTP, and
settles it when the workload reports back. This project models the two concurrent protocols in it and
proves what they guarantee in every interleaving.

**Deliveries.** A message is delivered, recorded in a map of jobs under its event ID, and later taken
out by one of five actors that race for it: an acknowledge, a reject, a timeout sweep, a failed
trigger, or the clean-up after a reconnect. `DeliveryProtocol` is the step system, `DeliveryOwnership`
the invariant (who has to settle which delivery), `DeliverySafety` and `DeliveryAccounting` what follows
for whole runs, `DeliveryLimits` exactly when it fails and runs in which it does. `Processes` holds the
handlers as the source writes them, with every other actor running wherever no lock is held; each is
proved to take exactly the steps of the step system.

**The connection.** One routine owns the connection and is woken by non-blocking sends into a bounded
channel. `Lifecycle` is the step system, `LifecycleSafety` its invariants, `LifecycleEvents` where
signals, flags and errors come from, `LifecycleTeardown` when a teardown is final, `LifecycleRecovery` that a broker can always become healthy again, `Brokers` the
broker object and its goroutines as the source writes them. `Retry` has the retry arithmetic.

`Composition` puts the two together: resetting, cleaning up, starting a consumer and losing a
connection are steps of the lifecycle that take the matching step of the delivery protocol along. Both
halves of a run of the whole are runs of the two step systems, so every theorem about either holds of
the whole.

A *run* is a start state and any finite sequence of enabled steps. An object's `Valid()` says that the
fields are the end of the run recorded so far, so theorems about runs are theorems about the objects
(`ProcessGuarantees`, `BrokerGuarantees`).

Two side conditions on runs appear, both about a handler of an old channel that is still busy when a
reconnect cleans the manifest. **(A)** `NoLateInsert`: it does not record its delivery after that.
**(B)** `NoLateHandler`: there is no such handler. B implies A, and a run in which the first connection
is never reset meets both. They are needed because the guards compare event IDs and not deliveries, and
for each guard the exact condition is proved without them:

- The check after a failed trigger (cmd/amps/broker/amqp.go:672) leads to a second settlement exactly if
  the channel is open, the job found under the ID is of another delivery, and the handler's own is
  settled or with a checkout (`SettledTwiceIff`); the last goes without saying unless a delivery was
  orphaned before (`SettledTwiceIffForeignEntry`), and that other delivery can only be of an older
  channel (`RunsOwnEntries`).
- The duplicate check (cmd/amps/broker/amqp.go:655) discards a message whose ID no other message has
  exactly if it meets a job of an older channel (`DuplicateIffStaleEntry`), and over whole runs such a
  message is lost exactly then (`FateOfUniqueMessage`).
- Ownership without orphans survives a failed trigger exactly if it is `Harmless`.

Three concrete runs show the failures.

Where documents and code disagree, the code is modelled: the dial backoff is capped at 30 seconds
(cmd/amps/broker/amqp.go:73), not at 60 (AMQP_RESILIENCE.md:23), and a message is settled when its job
ends, not on arrival (assets/sequence.txt:11).

Library behaviour taken as given: a settlement has an effect only on the open channel the delivery
came from, and settling an unknown tag closes the channel (section 1.8.3.13 of the AMQP 0-9-1 XML
reference); a positive prefetch count limits unsettled deliveries (section 1.8.3.1 there); a close
watcher registered on an open connection gets an error if the connection is lost and nothing if the
client closes it, and one registered on a closed connection gets nothing.

## Model

| member | source | states |
|---|---|---|
| RabbitMQ.SettleConsistent | cmd/amps/broker/amqp.go:603-613 | settling any delivery with any outcome leaves every message in exactly one place and the prefetch limit respected |
| RabbitMQ.DeliverConsistent | cmd/amps/broker/amqp.go:148-155 | so does a delivery within the prefetch limit |
| RabbitMQ.ExactlyOnePlace | cmd/amps/app/job.go:120-146 | a published message is in exactly one of queue, unacked, acknowledged, discarded |
| DeliveryProtocol.ConfigurationIsFixed | cmd/amps/broker/amqp.go:148 | in every run JobTimeout and the prefetch count stay what the process was started with |
| DeliveryOwnership.WellFormedStep | cmd/amps/broker/amqp.go:629-688 | every step of every actor keeps the shape of the state, without side conditions |
| DeliveryOwnership.ExclusiveStep | cmd/amps/broker/amqp.go:653-686 | every step keeps: no delivery has two holders and what is held is still unsettled; only a failed trigger taking back a foreign entry is excluded |
| DeliveryOwnership.NoOrphansStep | cmd/amps/app/job.go:109-137 | every step keeps: each delivery RabbitMQ waits for is held by someone |
| DeliveryOwnership.Settlements | cmd/amps/app/watchdog.go:27-45 | a step that settles on the open channel settles what its actor holds, removes just that, and causes no channel error |
| DeliveryOwnership.WithdrawKeepsOwnershipIffHarmless | cmd/amps/broker/amqp.go:671-682 | after a failed trigger, exclusive ownership without orphans survives if and only if the entry found by ID is the handler's own or neither is of the open channel |
| DeliverySafety.SingleSettlement | cmd/amps/app/job.go:98-137 | in every run whose current handler takes back only its own entries, no delivery is settled twice on an open channel |
| DeliverySafety.SingleSettlementUnderA | cmd/amps/broker/amqp.go:653-686 | the same for every run under (A), also when a workload acknowledges while its trigger call is failing |
| DeliverySafety.RunsUnderA | cmd/amps/broker/amqp.go:240-248 | under (A) the manifest only holds deliveries of the latest channel and the current handler takes back only its own entries |
| DeliverySafety.RunsUnderB | cmd/amps/broker/amqp.go:413-439 | (B) implies (A), and makes every failed trigger harmless |
| DeliverySafety.RunsOwnEntries | cmd/amps/broker/amqp.go:671-679 | in every run, a job of the latest channel under the ID of the handler that is calling the workload is that handler's own |
| DeliverySafety.NothingOrphaned | cmd/amps/broker/amqp.go:629-688 | if every failed trigger is harmless, each outstanding delivery has exactly one holder in every reachable state; a delivery still unread counts as held, also by a consumer that has stopped at shutdown |
| DeliverySafety.NothingOrphanedUnderB | cmd/amps/broker/amqp.go:239-248 | the same for every run under (B) |
| DeliverySafety.NeverItsOwnDuplicate | cmd/amps/broker/amqp.go:653-659 | a job of the latest channel that is in the way of its handler is of another message with the same ID; needs no side condition |
| DeliverySafety.DuplicateIffStaleEntry | cmd/amps/broker/amqp.go:655-659 | a message whose ID no other message has is taken for a duplicate if and only if the check meets a job of an older channel |
| DeliverySafety.DuplicateForCause | cmd/amps/broker/amqp.go:655-659 | in every run whose current handler takes back only its own entries, whatever that handler takes for a duplicate has a namesake or met a job of an older channel |
| DeliverySafety.RequeuedMessagesAreNotDuplicates | cmd/amps/app/watchdog.go:27-45 | in every run under (A) a message that comes back is not discarded as its own duplicate; on a dead channel the discard has no effect |
| DeliverySafety.LiveEntriesBounded | cmd/amps/broker/amqp.go:148 | entries still to be settled never outnumber the unsettled tags |
| DeliverySafety.ConcurrencyBound | cmd/amps/broker/amqp.go:655-663 | in every run under (A), whenever the lock is free, entries map one to one to unsettled deliveries of one channel and number at most the MaxConcurrency the process was started with, if positive |
| DeliverySafety.FateStep | cmd/amps/app/job.go:120-146 | a step acknowledges a message exactly if it finishes an acknowledge without reschedule on the open channel, and discards one exactly if it finishes such a reject or the handler drops it |
| DeliverySafety.DroppedForCause | cmd/amps/broker/amqp.go:642-659 | in such a run the handler drops on the open channel only messages that do not parse, share their ID with another message, or met a job of an older channel (under (A) the last does not happen) |
| DeliverySafety.OtherwiseRequeued | cmd/amps/app/job.go:200-202 | every other settlement on the open channel puts the message back into the queue |
| DeliverySafety.FateOfUniqueMessage | cmd/amps/broker/amqp.go:642-682 | in such a run, also without (A), a parseable message with an ID of its own is in exactly one place; it is acknowledged iff a workload did so on the open channel without reschedule, and discarded iff a workload rejected it so or a handler dropped it after meeting a job of an older channel |
| DeliverySafety.NoMessageLoss | cmd/amps/app/job.go:120-146 | in every run under (A) a parseable message with an ID of its own is in exactly one place; it is acknowledged iff the run finished an acknowledge without reschedule of it on the open channel, and discarded iff it finished such a reject |
| DeliveryAccounting.PerIdAccounting | cmd/amps/job/job.go:91-124 | in every run, entries recorded for an ID = accepted checkouts + timeouts + entries taken back + entries cleaned up + 1 if one is present |
| DeliveryAccounting.OneCheckoutPerInsert | cmd/amps/app/job.go:98-117 | from any point where an ID is absent, further accepted checkouts of it never outnumber further inserts |
| DeliveryAccounting.MetricsBalance | cmd/amps/job/job.go:14-21 | in every run, messages inserted = messages deleted + entries cleaned up + manifest size |
| DeliveryAccounting.CountersCountEvents | cmd/amps/job/job.go:14-21 | in every run, messages inserted counts exactly the steps that record an entry, and messages deleted exactly those that check one out, time one out or take one back |
| DeliveryAccounting.CreatedWhenRecorded | cmd/amps/job/job.go:91-98 | in every run an entry carries the time of the latest step that recorded its ID |
| DeliveryAccounting.RequeuedIffOverdue | cmd/amps/app/watchdog.go:28-38 | a sweep that looks at an entry requeues it if and only if it was recorded more than JobTimeout ago |
| DeliveryAccounting.TimeoutBound | cmd/amps/app/watchdog.go:26-46 | if a sweep has started within the last d (or the process has), no entry seen with the lock free was recorded longer ago than JobTimeout + d |
| DeliveryLimits.SingleConnectionMeetsBoth | cmd/amps/broker/amqp.go:198-248 | a run whose first connection is never reset meets (A) and (B) |
| DeliveryLimits.SettledTwiceIff | cmd/amps/broker/amqp.go:671-682 | after any run whose current handler took back only its own entries: taking back a job can be continued to a second settlement of a delivery, with no other foreign job taken back, if and only if the channel is open, the job found by the ID is of another delivery, and the handler's own delivery is settled or with a checkout |
| DeliveryLimits.SettledTwiceIffForeignEntry | cmd/amps/broker/amqp.go:672-675 | if failed triggers of old channels did no harm before either, the last condition is implied: it is possible if and only if the channel is open and the job found is of another delivery |
| DeliveryLimits.LateInsertSettlesTwice | cmd/amps/broker/amqp.go:671-682 | a concrete run without (A) in which a delivery is settled twice |
| DeliveryLimits.LateInsertLosesMessage | cmd/amps/broker/amqp.go:655-658 | a concrete run without (A) in which a message is discarded as a duplicate of itself, with no reject |
| DeliveryLimits.LateFailureOrphans | cmd/amps/broker/amqp.go:671-679 | a concrete run under (A), not (B), that leaves an outstanding delivery without a holder |
| Manifests.Manifest.InsertJobWithDelivery | cmd/amps/job/job.go:91-106 | adds or replaces the job of that ID and counts one insert |
| Manifests.Manifest.DeleteJob | cmd/amps/job/job.go:109-124 | removes the job if there is one, leaves all others, and counts one deletion either way |
| Manifests.Manifest.DropStale | cmd/amps/broker/amqp.go:240-248 | empties the manifest, without counting deletions, and reports how many entries there were |
| Processes.Process.constructor | cmd/amps/app/amps.go:54-60 | a new process is the start of a run, with the given JobTimeout and MaxConcurrency as prefetch count, and an empty manifest |
| Processes.Process.JobAcknowledge | cmd/amps/app/job.go:80-157 | accepted iff the job was in the manifest when the lock was held; its own steps are exactly taking the job and, if accepted, settling it, with any steps of others in between |
| Processes.Process.JobReject | cmd/amps/app/job.go:159-222 | likewise, rejecting |
| Processes.Process.TakeJob | cmd/amps/app/job.go:98-117 | the critical section both share: look up, delete, unlock |
| Processes.Process.MessageHandler | cmd/amps/broker/amqp.go:629-688 | for each of its five outcomes, the exact steps the handler takes on a delivery, whatever others do in between; discarded unparsed iff the body does not parse |
| Processes.Process.RegisterDelivery | cmd/amps/broker/amqp.go:653-663 | the first critical section: records the delivery, with the time at that moment, iff its ID is new |
| Processes.Process.WithdrawJob | cmd/amps/broker/amqp.go:671-679 | the second critical section: deletes the job iff it is still there |
| Processes.Process.TakeBack | cmd/amps/broker/amqp.go:667-686 | after a failed trigger, the delivery is requeued iff its job was still there |
| Processes.Process.Consumer | cmd/amps/broker/amqp.go:413-439 | its own steps are exactly, for one delivery after the other, receiving it and what the handler does with it, and the exit if it stops; anything of others in between |
| Processes.Process.SweepExpired | cmd/amps/app/watchdog.go:26-46 | one tick checks every entry once, requeues and then deletes exactly those expired when checked, keeps the others, and leaves none that had expired when it began |
| Processes.Process.VisitJob | cmd/amps/app/watchdog.go:28-42 | one entry: nacked before it is deleted, with others running but the manifest locked in between |
| Processes.Process.CleanManifest | cmd/amps/broker/amqp.go:239-248 | the reconnect clean-up empties the manifest in one step |
| Processes.LockCanBeReleased | cmd/amps/app/watchdog.go:27-45 | from every reachable state the manifest lock can become free without a step of the actor waiting for it |
| Processes.ProcessGuarantees | cmd/amps/app/amps.go:54-72 | any process built from these methods, under (A): no unknown-tag error, manifest size at most the MaxConcurrency it was started with |
| LifecycleSafety.StepKeepsAll | cmd/amps/broker/amqp.go:190-358 | every step of every goroutine keeps the resource, flag and wake-up invariants |
| LifecycleSafety.NoLostWakeUp | cmd/amps/broker/amqp.go:282-306 | before shutdown, a routine waiting on a closed connection has a signal to take or that connection's watcher still holds the error, also when sends were dropped on a full buffer |
| LifecycleSafety.NeverParksHalfBuilt | cmd/amps/broker/amqp.go:309-350 | whenever the routine is at its select, fullyInitialized holds or a signal is pending |
| LifecycleSafety.InitializedMeansComplete | cmd/amps/broker/amqp.go:219-237 | until a teardown finishes, fullyInitialized implies running, connected, and a connection with both channels on it |
| LifecycleSafety.HealthyIffInitializedAndOpen | cmd/amps/broker/amqp.go:764-806 | before shutdown Healthy is true iff the broker is fully initialized and its connection is open |
| LifecycleSafety.QuietMeansHealthy | cmd/amps/broker/amqp.go:198-217 | a waiting broker with no signal and no undelivered close error is healthy |
| LifecycleSafety.SingleConnectionAndConsumer | cmd/amps/broker/amqp.go:370-439 | over any reconnects: at most one open connection, at most one consumer per channel, and the channels not closed are the stored ones and those in the hands of the routine |
| LifecycleSafety.ChannelBalance | cmd/amps/broker/amqp.go:121-179 | in every run, of all channels opened those that AMPS has not called Close on are exactly the stored pair, if any, and the one or two createChannels is working on: no failed attempt leaks one |
| LifecycleRecovery.AlwaysRecoverable | cmd/amps/broker/amqp.go:190-358 | from every state reachable before shutdown at most 27 steps of the routine and the close watchers alone lead back to the select with a healthy broker |
| LifecycleEvents.SignalsBalance | cmd/amps/broker/amqp.go:198-217 | in every run, the first signal and those sent for a stated cause while fewer than 20 waited are exactly the signals taken and those still waiting; never more than 20 wait |
| LifecycleEvents.MonitorSignalsIff | cmd/amps/broker/amqp.go:865-881 | the health monitor sends one signal iff there is room and it saw a connected broker with no connection or one that is closed by now; otherwise none |
| LifecycleEvents.ErrorMeansLost | cmd/amps/broker/amqp.go:282-306 | in every run a close watcher has an error only if its connection was lost: closing it in a reset or teardown wakes nobody |
| LifecycleEvents.WatchersDoNotLinger | cmd/amps/broker/amqp.go:282-306 | in every run no close watcher waits for a connection that is gone |
| LifecycleEvents.FlagsTellHistory | cmd/amps/broker/amqp.go:219-347 | in every run each of fullyInitialized, connected and running is set iff the latest event concerning it set it: finishing, marking or starting against a reset and, for the last two, a teardown |
| LifecycleEvents.ConsumersAreLimited | cmd/amps/broker/amqp.go:148-155 | in every run each consumer reads a channel whose prefetch count was set before |
| LifecycleTeardown.TeardownIsFinalIff | cmd/amps/broker/amqp.go:551-593 | whatever happens after the cancel, the broker is quiet in every state after Teardown, if and only if the cancel did not catch the routine between a context check and storing a result; at its select, resetting or backing off it does not |
| LifecycleTeardown.SettlingLasts | cmd/amps/broker/amqp.go:76-109 | the if direction as an invariant of every continuation, including one that takes a pending signal after the cancel |
| LifecycleTeardown.Escape | cmd/amps/broker/amqp.go:278-280 | the only-if direction: a continuation that ends with something stored after Teardown |
| Brokers.AMQPBroker.constructor | cmd/amps/broker/amqp.go:452-485 | the state Initialize leaves: nothing built and the first signal sent |
| Brokers.AMQPBroker.Reset | cmd/amps/broker/amqp.go:219-237 | closes and forgets everything and clears the flags |
| Brokers.AMQPBroker.AmqpConnect | cmd/amps/broker/amqp.go:67-110 | ends with an established connection or, only after a cancel, without; exactly one delay per failed dial, the first of 2 seconds and each next one twice the one before, up to 30 |
| Brokers.AMQPBroker.CreateChannels | cmd/amps/broker/amqp.go:121-179 | on success exactly two new channels, of one connection, are open more than before and both are stored; on failure the channels not closed are the same as before, none is stored, and five attempts have failed, or the broker is shutting down or has no open connection; one sleep per failed attempt, of 1, 2, ... seconds, at most 15 in all |
| Brokers.AMQPBroker.SetPrefetch | cmd/amps/broker/amqp.go:148-155 | sets the prefetch count of the consume channel and keeps it, or closes just that channel |
| Brokers.AMQPBroker.Start | cmd/amps/broker/amqp.go:370-440 | starts exactly one consumer, on the stored channel, which is open and has its prefetch count set, iff none is running and it succeeds |
| Brokers.AMQPBroker.Reconnect | cmd/amps/broker/amqp.go:219-357 | one pass of the loop body ends waiting for a signal, or gone after a cancel, or still dialing |
| Brokers.AMQPBroker.ConnectLoop | cmd/amps/broker/amqp.go:190-358 | the loop: whenever it is back at the select, fullyInitialized holds or a signal is pending; it ends only after a cancel |
| Brokers.AMQPBroker.Healthy | cmd/amps/broker/amqp.go:764-806 | the verdict is exact before shutdown and false after the cancel; one signal, if there is room, exactly when a connected broker's connection is closed outside the grace period; the failure count is reset when healthy and grows by one exactly if there should be an open connection by now and is none |
| Brokers.AMQPBroker.HealthMonitorTick | cmd/amps/broker/amqp.go:861-887 | looks and acts in two steps with everyone else in between; signals iff what it saw was a connected broker without a connection or with one closed by the time it acts |
| Brokers.AMQPBroker.ReconnectionWatchdogTick | cmd/amps/broker/amqp.go:898-928 | signals, if there is room, iff it saw the broker disconnected and the last attempt stale |
| Brokers.AMQPBroker.Teardown | cmd/amps/broker/amqp.go:551-593 | cancels, lets everyone run, and leaves the broker quiet |
| Brokers.BrokerGuarantees | cmd/amps/broker/amqp.go:190-358 | any broker built from these methods, waiting before shutdown, is initialized or signalled and never misses a closed connection |
| Composition.Projections | cmd/amps/broker/amqp.go:219-344 | every run of the whole projects to a run of the lifecycle and a run of the delivery protocol ending in its two halves; one delivery channel per consumer started, open exactly while the broker has a consumer on an open channel and caused no channel error, and both agree on how far a reconnect is |
| Composition.HealthyMeansConsuming | cmd/amps/broker/amqp.go:764-806 | under (A) a broker that reports healthy is consuming: the channel of its consumer is open and every job in the manifest is of that channel |
| Composition.LostChannelIsNoticed | cmd/amps/broker/amqp.go:282-306 | under (A), if the consumer's channel is gone while the routine waits before shutdown, a signal is pending or the watcher holds the error |
| Retry.BackoffRange | cmd/amps/broker/amqp.go:72-92 | the delay before a retry is 2 to 30 seconds, never decreases, and is 30 from the fifth on |
| Retry.BackoffDoubles | cmd/amps/broker/amqp.go:91-92 | the first delay is 2 seconds and each next one twice the one before, capped at 30 |
| Retry.TotalBackoff | cmd/amps/broker/amqp.go:91-104 | n >= 4 failed dials wait exactly 30n - 90 seconds in total |
| Retry.PublishWithRetry | cmd/amps/broker/amqp.go:496-540 | for any environment and any retry count: success iff some attempt in range publishes before any cancel; then the last call of Publish succeeded and no other did, otherwise none did; at most that many calls; each error in its own case; and the time slept is that of the attempts before the one that ends it, 1, 2, ... seconds |
| Retry.SleepBound | cmd/amps/broker/amqp.go:512-536 | publishing with n retries sleeps at most n(n-1)/2 seconds |

## Left out

- JSON and CloudEvent decoding, and the HTTP call of the workload: a body parses to an event ID or not, and a trigger call returns or fails.
- Requests that do not decode (status 400 before the manifest is looked at), response bodies and status codes.
- Logging, Sentry, the metrics endpoint, the gauge and histogram, and the counters of acknowledged and rejected workloads.
- Other consumers of the same queue: messages are only taken by this process.
- The order of unread deliveries: `DeliveryProtocol` lets the consumer read any of them, which covers the order RabbitMQ sends them in.
- The conversion of MaxConcurrency to a 16-bit prefetch count inside the client library, which is not part of this model.
- `Stop` and `InsertJob` without a delivery, which have no caller, and channel failures with the connection up, which the code does not signal.
- `GetHealthDetails`, pprof and the goroutine monitor: read-only views.
- Time in the lifecycle: the 100 ms, two-second, 30-second and 90-second waits only decide when a step happens, so any time is allowed; `lastReconnectAttempt` and the startup time appear as parameters.
- Processes.Process.Consumer: takes any given number of rounds, because the goroutine's loop has no bound of its own.
- Brokers.AMQPBroker.AmqpConnect: covers any given number of dials, because the loop runs until a dial succeeds or the context is cancelled.
- Brokers.AMQPBroker.ConnectLoop: covers any given number of rounds, because the routine runs until shutdown.
- Brokers.AMQPBroker.Teardown: says nothing about states after it returns; LifecycleTeardown.TeardownIsFinalIff says exactly when they stay quiet.
