# queuey: a verified model of its job queue protocols

queuey is a job queue: producers enqueue typed jobs, workers run handlers, and a backend (RabbitMQ, or
an in-memory one for tests) keeps every job until it has been settled. Its difficulty is in a handful
of concurrent protocols, and those are what this project models and proves.

Each protocol that several tasks take part in is a state machine with one step per lock section, atomic
access or await point: a `State`, an `Event` type, `Enabled` and `Apply`. A `Run` is a sequence of
states and events from an initial state, any enabled event at any time, so a theorem about `Run` holds
in every interleaving and after any number of failures. Code that one task executes alone is written
as classes and methods, proved against the functions the machines use.

| module | component |
|---|---|
| `Envelopes`, `Retry`, `Lifetime` | the job envelope, retry policy and backoff, the life of one job |
| `Dispatch`, `RunLoop`, `WorkerRun`, `WorkerLoop` | one delivery, the run loop in sequence, the run loop as a machine, what ends it and what reaches it |
| `PriorityQueue`, `MemoryBackend` | one in-memory queue, the in-memory backend as a machine |
| `MemoryStreams`, `MemoryRecords` | order, prefetch and close as an application sees them; calls traced to their effects |
| `RequeueRun` | a run in which a dropped stream puts a queue out of order |
| `RabbitDelivery`, `Settlement`, `Successors` | the settling calls of one delivery, job movement between broker and workers, what a settlement publishes and where |
| `LossRuns` | runs in which an accepted job is lost, one for each way that is left open |
| `ConfirmChannel`, `ConfirmPool` | returns on one channel, the pool of publishing channels |
| `Misattribution` | what publishes dropped before their confirm do to the pool |
| `Topology`, `HoldQueue` | hold queue names, arguments and TTLs, what a hold queue does over time |
| `Connection`, `ConnectionCalls` | the shared connection, what its calls answer and what becomes of what they dial |
| `CloseNotify`, `Reconnect` | waking sleepers on close, the retry loops |
| `Sums` | counting over sequences |

## What is assumed

- The broker keeps main queues and non-empty dead-letter queues; it may delete a hold queue at any time,
  messages and all (`HoldQueue` says when it does); a main queue has no message TTL; an unacknowledged
  message comes back when its channel or connection goes; a publish that errors may or may not have
  landed.
- In `Settlement` a confirm tells the truth. `ConfirmPool` proves that of the pool, for publishes that
  are not dropped between publish and confirm (`cancellation = false`).
- A publish or a confirm that errors does so on a channel that is closed, and stays closed.
- A handler's `set_retry_policy` returns. `deferrals`, the signal, generation and failure counters do
  not wrap.
- Backoff is computed over exact reals; full jitter is any draw in [0, 1] of the capped delay.
- What the network, the broker and the clock answer is an event or a parameter.

## What the proofs found

- **A late publish into a hold queue can be lost.** The queue is declared, then published to, with its
  deletion timer at twice the TTL from the declare. A publish that lands one TTL or more after that
  declare (a publish may wait for a channel in between) is deleted with its queue before it is due,
  although it was confirmed, unless another declare comes in time. The documentation
  (crates/rabbitmq/src/topology.rs:57-60, 157-160) says the broker can never delete a hold queue that
  still owes a message. `HoldQueue.PublishIsLostExactlyWhen` gives the exact condition over every run;
  all other messages of that queue keep their timing (`HoldQueue.HoldQueuesAreTimers`).
- **A dropped publish future breaks return attribution.** The lease gives its channel back alive with a
  tag still pending, and the next publish on it can be reported as stored although it was returned
  (`Misattribution.CancellationReachesAFalseReport`). That is possible exactly when the channel came back
  with more tags pending than returns waiting: not, for one, when the dropped publish had already been
  returned (`Misattribution.NextPublishIsMisledExactlyWhen`). Without dropped futures it cannot happen.
- **`close` can leave a connection open.** The flag is checked after dialling and the connection is
  swapped in afterwards, in two steps. `Connection.CloseLeaksExactlyWhen` says exactly when a single
  `close` leaves a live connection in the slot, against crates/rabbitmq/src/connection.rs:20-23.
- **A second `mark_closing` can return before sleepers are woken**, because only the call that sets the
  flag notifies. After the flag is up, everyone asleep has a wake-up exactly when that first call has
  notified or nobody is asleep (`CloseNotify.SleepersAreWokenExactlyWhen`, `CloseNotify.WhatOneCallPromises`).
- **Putting messages back breaks priority order** in the in-memory backend, exactly when what is put back
  is not itself in priority order or its last message is less important than what waits behind it
  (`PriorityQueue.RequeueKeepsLevelsExactlyWhen`). The first can happen with an empty queue behind it
  (`RequeueRun.ADroppedStreamBreaksTheOrder`).
- **An accepted job can end without a message and without success** in two ways only: rejected with the
  dead-letter queues switched off, which the source documents, or held in a hold queue that is deleted
  (`Settlement.NoJobIsLost`, `Settlement.LossesAreExactly`, and `LossRuns` for a run of each).

## Model

| member | source | states |
|---|---|---|
| Settlement.NoJobIsLost | crates/rabbitmq/src/delivery.rs:14-31 | In every run with crashes, drops, failed publishes and queue deletions anywhere, an accepted job was acked after its handler returned Ok, or the broker has a message for it, or it was rejected with dead-letter queues off, or it was in a hold queue that was deleted |
| Settlement.LossesAreExactly | crates/rabbitmq/src/delivery.rs:116-131 | A job is on record as rejected or dropped if and only if an earlier step of the run rejected a delivery of it, or deleted a hold queue owing a message of it |
| Settlement.NothingLostWithoutThem | crates/rabbitmq/src/delivery.rs:14-31 | With dead-letter queues on and no such deletion, an accepted job always succeeded or has a message |
| LossRuns.RejectionLosesAnAcceptedJob | crates/rabbitmq/src/delivery.rs:116-131 | A run in which a rejected job is accepted, without success and without a message |
| LossRuns.DeletionLosesAnAcceptedJob | crates/rabbitmq/src/publisher.rs:444-492 | A run in which a job held in a deleted queue is |
| Settlement.AckOnlyAfterSuccessor | crates/rabbitmq/src/delivery.rs:132-193 | An original is acked for a retry, deferral or dead letter only when a younger message of the same job was stored; no failed, returned or nacked publish gets there |
| Successors.SuccessorsAreAsOwed | crates/core/src/worker.rs:560-631 | In every run, what stands in for an acked original is what the outcome of that delivery's run calls for, where it calls for it: the next attempt at priority 0 held for the backoff, the same attempt once more deferred and held for the delay asked, or the unchanged envelope on the dead-letter queue |
| Successors.OthersAreSettledAsTheyEnded | crates/core/src/worker.rs:562-585 | An original acked as handled had a run that succeeded, one rejected a run that gave up with dead-letter queues off |
| Successors.VerdictsComeFromRuns | crates/core/src/worker.rs:560-562 | Every outcome on record is that of a run that finished on just that delivery |
| Successors.WhatARunLeadsTo | crates/core/src/worker.rs:562-631 | The next step after each outcome, the refused hold included |
| Successors.StepPromises | crates/rabbitmq/src/delivery.rs:116-193 | Every step keeps what each stage of a settlement owes the job |
| Successors.MessagesStayPut | crates/rabbitmq/src/topology.rs:286-300 | In every run a message leaves only by its own ack or rejection or with its hold queue, an elapsed hold puts it on its main queue and nothing else moves it, and it is delivered only from there and only once at a time |
| Successors.MessagesArriveAsPublished | crates/rabbitmq/src/publisher.rs:357-392 | A message arrives only as what some task was publishing, where it was publishing it, in a queue that exists |
| Successors.UndisturbedEnqueueAdds | crates/rabbitmq/src/publisher.rs:395-492 | Undisturbed, an enqueue adds exactly its message, on the main queue or in the hold queue for its delay, and is accepted |
| Successors.UndeclaredHoldIsRefused | crates/rabbitmq/src/publisher.rs:450-452 | A delayed enqueue on an undeclared queue is refused and changes nothing |
| Successors.AcksAndRejections | crates/rabbitmq/src/delivery.rs:83-104 | An ack or rejection takes effect only on the delivery's own message, and then removes just that |
| Successors.EveryStepBringsTheEndNearer | crates/rabbitmq/src/delivery.rs:116-193 | Every step of a settlement, failures included, lowers a measure, so it ends |
| Successors.EverybodyCanGetOn | crates/rabbitmq/src/delivery.rs:116-193 | No stage of a settlement is stuck |
| Successors.AnythingMayGoWrong | crates/rabbitmq/src/delivery.rs:14-31 | Deaths, failed operations, redeliveries and deletions are possible at every step |
| Settlement.StepKeepsInv | crates/core/src/worker.rs:562-631 | Every step of a worker, producer or broker keeps the no-loss invariant |
| Settlement.UndisturbedMoveReplaces | crates/rabbitmq/src/delivery.rs:132-193 | Left undisturbed, publish, confirm and ack exchange exactly the original for its successor and touch no other message |
| Settlement.RejectingLosesTheLastCopy | crates/rabbitmq/src/delivery.rs:116-131 | With dead-letter queues off, rejecting a job's only message leaves the broker with none |
| Settlement.DyingBeforeTheAckDuplicates | crates/rabbitmq/src/delivery.rs:137-142 | A worker that dies between confirm and ack leaves two messages of one job: the price of never losing one |
| RabbitDelivery.Publisher.PublishConfirmed | crates/rabbitmq/src/publisher.rs:357-392 | Succeeds exactly when the name fits, a channel was leased and the confirm is a bare ack; sends at most the one publish |
| RabbitDelivery.Publisher.PublishHeld | crates/rabbitmq/src/publisher.rs:444-492 | Declares the hold queue its name stands for before every publish, publishes only after that, succeeds exactly when stored, and names the two refusals exactly; a checked queue name never fails |
| RabbitDelivery.Publisher.PublishDeadLetter | crates/rabbitmq/src/publisher.rs:495-504 | Publishes the unchanged envelope to the queue's dead-letter queue, and succeeds exactly when it was stored |
| RabbitDelivery.Publisher.Settle | crates/rabbitmq/src/delivery.rs:70-104 | An acker that was already used is an error, never a success |
| RabbitDelivery.CheckedNameFits | crates/rabbitmq/src/backend.rs:337-346 | A name that passed the declare-time check can be held on for every accepted delay |
| RabbitDelivery.RabbitMqDelivery.Ack | crates/rabbitmq/src/delivery.rs:112-114 | One ack, and success exactly when the broker recorded it |
| RabbitDelivery.RabbitMqDelivery.Retry | crates/rabbitmq/src/delivery.rs:169-174 | The exact calls made: declare, publish, then an ack if and only if the successor was stored |
| RabbitDelivery.RabbitMqDelivery.Defer | crates/rabbitmq/src/delivery.rs:188-193 | The same rule with the deferral granularity |
| RabbitDelivery.RabbitMqDelivery.DeadLetter | crates/rabbitmq/src/delivery.rs:116-136 | Stored on the dead-letter queue before the ack, or rejected and nothing published when those queues are off |
| ConfirmChannel.ExclusiveIsTruthful | crates/rabbitmq/src/publisher.rs:43-47 | With one publish outstanding the reported result is what the broker did, and nothing is left behind |
| ConfirmChannel.ResultsTellApart | crates/rabbitmq/src/publisher.rs:611-631 | Only a bare ack is success; a return is one with an ack or a nack, a bare nack a refusal |
| ConfirmChannel.TheOldestReturnIsAttached | crates/rabbitmq/src/publisher.rs:30-35 | Whichever tag resolves next takes the channel's oldest waiting return |
| ConfirmChannel.AtMostOneNeverMisreports | crates/rabbitmq/src/publisher.rs:43-47 | No continuation of a channel with at most one publish outstanding reports a false success |
| ConfirmChannel.TwoOutstandingCanMisreport | crates/rabbitmq/src/publisher.rs:36-42 | With two, an unroutable publish can be reported as stored |
| ConfirmChannel.OneOutstandingIsExact | crates/rabbitmq/src/publisher.rs:25-50 | A channel can end in a false success if and only if more than one publish is outstanding |
| ConfirmPool.SuccessMeansRouted | crates/rabbitmq/src/publisher.rs:357-392 | In every run without dropped publishes, a publish is reported stored if and only if it was routed to a real queue |
| ConfirmPool.OnePendingPerChannel | crates/rabbitmq/src/publisher.rs:152-185 | A live channel never carries two pending publishes |
| ConfirmPool.PoolNeverOutgrowsItsSize | crates/rabbitmq/src/publisher.rs:152-185 | Idle, leased and opening channels never add up to more than the pool size |
| ConfirmPool.OnlyLiveChannelsAreLeased | crates/rabbitmq/src/publisher.rs:161-178 | In every run a checkout leases the top idle channel exactly when it is alive, else discards it and opens any new one |
| ConfirmPool.AnythingMayGoWrong | crates/rabbitmq/src/publisher.rs:152-250 | Channels may die, opens fail and futures be dropped at any time |
| Misattribution.NobodyIsStuck | crates/rabbitmq/src/publisher.rs:152-250 | In every run each task with a permit can go on, and a waiting one can have a permit or someone holds it |
| Misattribution.EveryStepBringsTheEndNearer | crates/rabbitmq/src/publisher.rs:152-250 | Every step of a publish, failures included, lowers a measure, and its end gives back channel and permit |
| ConfirmPool.CloseLeavesNothing | crates/rabbitmq/src/publisher.rs:200-223 | Once the pool is taken down nothing is in flight, every open channel is in the closer's hands and every waiting or later acquire fails |
| ConfirmPool.RefusedOnlyOnceShut | crates/rabbitmq/src/publisher.rs:152-159 | In every run a publish is refused a channel only after the closer had every permit, with no publish under way |
| ConfirmChannel.MisleadingExactlyWhen | crates/rabbitmq/src/publisher.rs:30-47 | Whatever a channel holds, the awaited publish can be reported falsely if and only if it may still be returned and the other pending tags can take every return first |
| Misattribution.AwaitedIsMisledExactlyWhen | crates/rabbitmq/src/publisher.rs:357-392 | In every reachable pool, dropped publishes included, and against all that others may do, an awaited publish can be falsely reported if and only if its channel is so exposed |
| Misattribution.NextPublishIsMisledExactlyWhen | crates/rabbitmq/src/publisher.rs:244-250 | A publish going out can be falsely reported if and only if its channel came back with more tags pending than returns waiting |
| Misattribution.CancellationReachesAFalseReport | crates/rabbitmq/src/publisher.rs:244-250 | A reachable pool that has reported success for a returned publish |
| Misattribution.SafeStep | crates/rabbitmq/src/publisher.rs:152-250 | No step of the pool makes an unexposed awaited publish exposed, or reports it falsely |
| ConfirmPool.BoundStep | crates/rabbitmq/src/publisher.rs:152-250 | Every step conserves permits and the size bound |
| ConfirmPool.OwnersStep | crates/rabbitmq/src/publisher.rs:152-250 | Every step keeps each channel in one hand only |
| ConfirmPool.TruthStep | crates/rabbitmq/src/publisher.rs:357-392 | Every step keeps idle channels quiet and reports truthful |
| ConfirmPool.CloseStep | crates/rabbitmq/src/publisher.rs:200-223 | Every step keeps all live channels idle, leased or taken by the closer |
| ConfirmPool.PoolSize | crates/rabbitmq/src/publisher.rs:539-543 | The configured concurrency as a permit count, never zero |
| ConfirmPool.ConfirmChannels.PopLive | crates/rabbitmq/src/publisher.rs:161-178 | Takes the last idle channel off the list, leases it exactly if it is live and discards it if not, and leases nothing from an empty list, as the machine's step does |
| ConfirmPool.ConfirmChannels.Push | crates/rabbitmq/src/publisher.rs:244-250 | Returning a channel, whatever its state, leaves the idle list free of duplicates and of channels others hold, and within the pool size, as the machine's step does |
| ConfirmPool.ConfirmChannels.CloseAll | crates/rabbitmq/src/publisher.rs:200-223 | Attempts every idle channel even after a failure and reports the first error |
| WorkerRun.DrainIsLossless | crates/core/src/worker.rs:296-308 | When run returns, whatever stopped it, every delivery pulled was dispatched exactly once and settled exactly once, and no other; pulled is successes plus counted failures, and the result is the first error seen |
| WorkerRun.CapsHold | crates/core/src/worker.rs:183-200 | Handler tasks started and not ended, timed-out ones included, never exceed the concurrency, and the channel never more than one message per queue, at any step |
| WorkerRun.DrainEnds | crates/core/src/worker.rs:408-448 | After the stop flag a run takes boundedly many steps, can only end by returning, and receives at most the buffered messages plus one per live consumer |
| WorkerRun.DrainProgress | crates/core/src/worker.rs:467-492 | Every step of the drain lowers the measure, and a consumer forwards at most one more message |
| WorkerRun.DrainNeverStuck | crates/core/src/worker.rs:414-450 | A draining worker that has not returned can take a step of its own |
| WorkerRun.StepKeeps | crates/core/src/worker.rs:309-530 | Every step keeps each pulled delivery in exactly one place and the permits conserved |
| WorkerLoop.WhatEndsTheLoop | crates/core/src/worker.rs:355-412 | In every run the loop asks for a permit or a message only before any error, stops only for an error, a shutdown or a closed channel, and then raises the stop flag |
| WorkerLoop.EachCauseEndsTheLoop | crates/core/src/worker.rs:324-404 | Each cause ends it at once, and without one it goes on |
| WorkerLoop.TheFirstErrorIsTheOutcome | crates/core/src/worker.rs:318-459 | The outcome is the first error the run's events have shown, and none is swallowed |
| WorkerLoop.WhatIsPulledArrives | crates/core/src/worker.rs:462-492 | Whatever was taken off a stream, error and end included, is in hand, in the channel or received, each time it was |
| WorkerLoop.ConsumersEndOnlyWhen | crates/core/src/worker.rs:467-492 | A consumer task ends only on the stop or its stream's reported end |
| WorkerLoop.DispatchNeverStuck | crates/core/src/worker.rs:355-404 | The running worker can take a step, or a job can, or it waits for a stream, which a shutdown interrupts |
| WorkerLoop.AnythingMayHappen | crates/core/src/worker.rs:467-530 | Shutdowns, stream errors, ends, timeouts and failed settles are possible at any time |
| WorkerLoop.TheDrainReceivesBoundedly | crates/core/src/worker.rs:410-444 | After the stop flag, receipts counted from the run's own events stay within the buffer and the running consumers |
| RunLoop.WhatAMessageDoes | crates/core/src/worker.rs:377-440 | What one message does to the machine's outcome and history, spelled out |
| RunLoop.ConsumeInto | crates/core/src/worker.rs:467-492 | Everything taken off a stream is sent, in order, until the stop or the end, and the end is reported |
| RunLoop.Loop.Run | crates/core/src/worker.rs:355-459 | Every message's delivery is dispatched once, in channel order, wherever the loop stopped, and the first error wins: start, message, close |
| RunLoop.Loop.Drain | crates/core/src/worker.rs:408-447 | The drain dispatches the rest, counts failed streams as errors and ended ones not |
| RunLoop.Loop.Handle | crates/core/src/worker.rs:377-403 | One message leaves the outcome and the history the machine's step leaves |
| Dispatch.PlanKeepsTheJob | crates/core/src/worker.rs:560-631 | The job survives every plan: the successor is the envelope with just the attempt and priority, or the deferrals and priority, changed; ack only for success, giving up exactly on the last attempt, one reason per cause of death |
| Dispatch.Dispatcher.Run | crates/core/src/worker.rs:534-643 | One settling call per delivery, the planned one and last; the hook comes before it and only for dead letters; a refused settle is counted once |
| Dispatch.Dispatcher.NotifyDead | crates/core/src/worker.rs:646-667 | The hook, if registered, sees the envelope as delivered |
| Dispatch.Dispatcher.Count | crates/core/src/worker.rs:670-675 | A failure to settle is counted, never propagated |
| Lifetime.AliveExactlyWhen | crates/core/src/worker.rs:594-631 | A job is alive exactly while every run deferred or failed with attempts left, and its counters are the counts of what happened |
| Lifetime.SurvivesFewerFailures | crates/core/src/retry.rs:174-182 | Fewer than max(1, max_attempts) failures never kill a job, however many deferrals are interleaved |
| Lifetime.DiesOnTheLastFailure | crates/core/src/retry.rs:174-182 | The failure number max(1, max_attempts) does, as exhausted, with that attempt number |
| Lifetime.OverStaysOver | crates/core/src/worker.rs:594-631 | A settled job's end never changes |
| Lifetime.EndsAsItsLastRunSays | crates/core/src/worker.rs:562-631 | Each outcome ends or continues the job in its own way, with the delivered envelope |
| Retry.ExponentialDelay | crates/core/src/retry.rs:211-231 | The backoff never exceeds its cap |
| Retry.ComputeDelay | crates/core/src/retry.rs:190-208 | Jitter never exceeds the cap either |
| Retry.DelayFollowsTheCurve | crates/core/src/retry.rs:211-231 | The delay is base times factor to the attempt, to the nearest nanosecond, and the cap where the curve has reached it |
| Retry.JitterOnlyShortens | crates/core/src/retry.rs:190-208 | Full jitter ranges from zero to the unjittered delay |
| Retry.ExponentialMonotone | crates/core/src/retry.rs:211-231 | A factor of at least 1 never shortens the delay of a later attempt |
| Retry.UnjitteredDelayFollowsTheCurve | crates/core/src/retry.rs:190-231 | The wait after the n-th failure is n - 1 factors into the curve |
| Retry.PlainBackoffs | crates/core/src/retry.rs:190-222 | No backoff, a fixed one, and a factor that makes no sense |
| Retry.DecidesByTheCount | crates/core/src/retry.rs:174-182 | Another attempt exactly while the failed one was not the last |
| PriorityQueue.InsertLandsBehindItsEquals | crates/core/src/memory.rs:112-126 | In every queue, sorted or not, an inserted envelope lands behind all of at least its priority, with only strictly lower ones behind it |
| PriorityQueue.InsertRefinesEnqueue | crates/core/src/memory.rs:119-126 | Insertion by rposition is enqueueing on the envelope's own FIFO level |
| PriorityQueue.PopRefinesDequeue | crates/core/src/memory.rs:555-558 | Popping the front is dequeueing from the highest level that has anything |
| PriorityQueue.DequeRefinesLevels | crates/core/src/memory.rs:119-126 | For every history of insertions and pops, the deque is the levels from highest to lowest |
| PriorityQueue.RequeueKeepsLevelsExactlyWhen | crates/core/src/memory.rs:676-702 | Putting messages back in front keeps the queue levelled if and only if they are in priority order and the last is at least as important as what waits behind |
| PriorityQueue.LevelledExactlyWhenDescending | crates/core/src/memory.rs:112-126 | A queue is some priority levels flattened if and only if it is ordered by priority |
| MemoryBackend.PuttingBackKeepsLevelsExactlyWhen | crates/core/src/memory.rs:576-589 | The same for every step that puts back, a consumer's single message or a dropped stream's |
| MemoryBackend.QueuesStayLevelledUnless | crates/core/src/memory.rs:676-702 | In every run all queues stay levelled until something put back does not fit, and then that queue is not |
| RequeueRun.ADroppedStreamBreaksTheOrder | crates/core/src/memory.rs:676-702 | A reachable requeue after which an empty queue is out of order |
| PriorityQueue.QueueState.InsertByPriority | crates/core/src/memory.rs:119-126 | The scan from the back computes that insertion |
| PriorityQueue.QueueState.PopFront | crates/core/src/memory.rs:555-558 | Takes the first pending envelope, if any |
| PriorityQueue.QueueState.RequeueUnread | crates/core/src/memory.rs:680-702 | Unread messages return to the front in their own order, with one wake-up |
| PriorityQueue.QueueState.SettledBy | crates/core/src/memory.rs:249-261 | The acks of one kind, in order |
| PriorityQueue.KindsPartitionAcks | crates/core/src/memory.rs:199-261 | The three kinds account for every ack |
| PriorityQueue.ProjectionReadsInOrder | crates/core/src/memory.rs:249-261 | The projection reads off exactly the acks of its kind, in settle order |
| MemoryBackend.NothingVanishes | crates/core/src/memory.rs:328-702 | In every interleaving each accepted envelope is pending, in a consumer's hand, in a stream, outstanding, delayed, held, settled, dead or lost, counted with multiplicity |
| MemoryBackend.NothingIsLost | crates/core/src/memory.rs:328-340 | Without a close, a delivery dropped unsettled or a torn-down timer, nothing is lost |
| MemoryBackend.LossStep | crates/core/src/memory.rs:328-340 | Those are the only steps that lose anything |
| MemoryBackend.DeferredCountsLiveHolds | crates/core/src/memory.rs:363-420 | The held counter is the number of live hold guards, so its saturating decrement never saturates |
| MemoryBackend.PrefetchHolds | crates/core/src/memory.rs:463-480 | A consumer never has more undropped deliveries out than its prefetch |
| MemoryStreams.PrefetchIsAsAsked | crates/core/src/memory.rs:455-489 | The consumer that a consume call started never has more than the prefetch asked for out, is never kept waiting below it, and does not exist on a closed backend |
| MemoryStreams.StreamsAreInOrder | crates/core/src/memory.rs:524-591 | While a stream is open, what its task popped is, in order, what was handed out, what waits and what it holds |
| MemoryStreams.WakeUpsAreUsedOnce | crates/core/src/memory.rs:549-574 | A woken consumer that finds nothing sleeps until the next signal |
| MemoryStreams.CloseEndsTheConsumers | crates/core/src/memory.rs:491-503 | Once closed, every consumer task can take a step that brings its end nearer, and takes no message |
| MemoryStreams.DroppedStreamsEndTheirConsumers | crates/core/src/memory.rs:537-589 | A dropped stream ends its task, which puts back what it holds |
| MemoryStreams.ClosedAcceptsNothing | crates/core/src/memory.rs:325-340 | A closed backend accepts no publish, dead letter or consumer, and no queue grows but by what is put back |
| MemoryRecords.PublishesAreScheduledAsAsked | crates/core/src/memory.rs:342-386 | Every publish is scheduled with the delay and the hold it asked for, however long after |
| MemoryRecords.RepublishesAreScheduledAsAsked | crates/core/src/memory.rs:635-657 | So is every retry and deferral |
| MemoryRecords.TimersDeliver | crates/core/src/memory.rs:325-340 | A timer that fires lets its hold go and inserts by priority in one step |
| MemoryRecords.SettlementsAreRecorded | crates/core/src/memory.rs:600-657 | Each settlement is recorded as what it was, on the delivered envelope's queue, and nothing else is |
| MemoryRecords.ClosedRefuses | crates/core/src/memory.rs:623-657 | A closed backend refuses retries, deferrals and dead letters, not acks |
| MemoryRecords.AnybodyMayCall | crates/core/src/memory.rs:423-503 | Publishes, closes, drops and timers are possible at any time |
| MemoryBackend.NoLostWakeUp | crates/core/src/memory.rs:537-580 | A consumer parked while its queue has something, or the backend is closed, can always wake |
| MemoryBackend.QueuesAreLevelled | crates/core/src/memory.rs:80-131 | In every run without a requeue each queue is what FIFO levels hold after exactly that run's insertions and pops |
| MemoryBackend.PendingStep | crates/core/src/memory.rs:328-372 | What each step inserts into or pops from a queue, seen from the event |
| MemoryBackend.ConservedStep | crates/core/src/memory.rs:328-702 | Every step conserves the count of every envelope |
| MemoryBackend.HeldStep | crates/core/src/memory.rs:363-420 | Every step keeps the held counters exact |
| MemoryBackend.PermitsStep | crates/core/src/memory.rs:524-598 | Every step conserves every consumer's permits |
| MemoryBackend.WakeStep | crates/core/src/memory.rs:491-580 | Every step keeps every parked consumer wakeable |
| Topology.NothingSaturates | crates/rabbitmq/src/topology.rs:226-235 | The saturating product and the narrowing fallback are never taken |
| Topology.TtlIsLeastCover | crates/rabbitmq/src/topology.rs:195-235 | The TTL is the least positive multiple of the clamped step that covers the delay, refused exactly when that is past the maximum |
| Topology.TtlIsLeastMultiple | crates/rabbitmq/src/topology.rs:195-235 | The same in terms of the arguments alone: the least multiple of the least whole millisecond step, from 1 to the maximum, that covers the granularity |
| Topology.StepIsTheStep | crates/rabbitmq/src/topology.rs:210-229 | There is exactly one such step, and it is the clamped one |
| Topology.DocumentedTtls | crates/rabbitmq/src/topology.rs:216-223 | The documented examples |
| Topology.Limits | crates/rabbitmq/src/topology.rs:140-164 | The limits, and that the longest deferral is the longest TTL whose double the broker accepts |
| Topology.HoldNameReads | crates/rabbitmq/src/topology.rs:177-193 | The name is the queue, the suffix, a dot and the TTL in decimal |
| Topology.TtlMonotone | crates/rabbitmq/src/topology.rs:226-235 | A longer delay never gets a shorter hold, nor is it accepted where a shorter one is refused |
| Topology.TtlIdempotent | crates/rabbitmq/src/topology.rs:226-235 | Rounding twice changes nothing |
| Topology.RetryHoldsNeverShrink | crates/core/src/retry.rs:211-231 | With a factor of at least 1 and no jitter the hold of a later attempt is never shorter |
| Topology.ShrinkingFactorShrinksHolds | crates/core/src/retry.rs:211-231 | The factor bound is needed |
| Topology.DeferredQueueArgs | crates/rabbitmq/src/topology.rs:286-312 | The arguments depend on the queue name and the TTL alone |
| Topology.ExpiresIsTwiceTheTtl | crates/rabbitmq/src/topology.rs:302-311 | For every TTL produced the expiry is its unclamped double, above the TTL and within the broker's range |
| Topology.NameDeterminesArguments | crates/rabbitmq/src/topology.rs:39-56 | Equal hold names mean equal queue, TTL and arguments |
| Topology.NameCheckIsExact | crates/rabbitmq/src/backend.rs:337-359 | The declare-time check passes if and only if every hold name fits an AMQP short string |
| HoldQueue.HoldQueuesAreTimers | crates/rabbitmq/src/topology.rs:16-37 | In every run, late publishes included, each message that leaves does so exactly one TTL after its publish, in order and never early, and a promptly published one is never lost and has left once due |
| HoldQueue.PublishIsLostExactlyWhen | crates/rabbitmq/src/publisher.rs:467-491 | In every run a message is lost if and only if its publish landed one TTL or more after the last declare and no declare followed before the deletion instant |
| HoldQueue.ALatePublishHappens | crates/rabbitmq/src/publisher.rs:467-491 | A run that loses a message this way |
| HoldQueue.SharedQueueIsLateExactlyWhen | crates/rabbitmq/src/topology.rs:16-25 | A shared queue delays a message exactly when something in front of it is due later |
| HoldQueue.StepKeeps | crates/rabbitmq/src/topology.rs:26-37 | Every step keeps the queue sorted, conserved and on time, and loses late messages only |
| HoldQueue.DeparturesAreTrue | crates/rabbitmq/src/topology.rs:16-37 | In every run the recorded publish, declare and departure instants are those of the clock at the event |
| Connection.SingleFlight | crates/rabbitmq/src/connection.rs:244-320 | At most one task dials, and an install only replaces a dead connection |
| Connection.GenerationTracksCurrent | crates/rabbitmq/src/connection.rs:336-347 | The generation is the index of the current connection or one behind, and both only grow |
| Connection.ClosingIsFinal | crates/rabbitmq/src/connection.rs:324-336 | A call that starts after mark_closing never dials or succeeds, and at most one install follows it |
| Connection.CloseClosesTheSlotUnless | crates/rabbitmq/src/connection.rs:453-470 | After close the slot is dead unless one install slipped in after the look |
| Connection.LateInstallLeaks | crates/rabbitmq/src/connection.rs:299-305 | A task past its check can still swap in a live connection after close is done |
| Connection.CloseLeaksExactlyWhen | crates/rabbitmq/src/connection.rs:299-305 | One close can leave a live connection if and only if a task stands between check and swap with one when close looks |
| Connection.CloseCanLeaveAConnectionOpen | crates/rabbitmq/src/connection.rs:299-305 | A reachable state where it has |
| Connection.StepKeeps | crates/rabbitmq/src/connection.rs:244-347 | Every step keeps the lock, slot and closing invariants, and both counters grow |
| ConnectionCalls.CallsAnswerTruthfully | crates/rabbitmq/src/connection.rs:244-336 | A call fails only for the close or the policy, hands out only a connection just seen alive or its own, begins no dial once closing, and a wait that ends then fails |
| ConnectionCalls.CallsAfterTheCloseFail | crates/rabbitmq/src/connection.rs:324-336 | In every run a call that starts once closing is set is at its first check or has failed, whatever the other tasks do |
| ConnectionCalls.OneInstallAfterTheClose | crates/rabbitmq/src/connection.rs:296-303 | In every run no second install follows one made after closing was set |
| ConnectionCalls.CallsHandOutCurrentConnections | crates/rabbitmq/src/connection.rs:244-347 | Whatever a call hands out has been the current connection in the run |
| ConnectionCalls.NoConnectionGoesAstray | crates/rabbitmq/src/connection.rs:291-305 | Whatever was dialled and lives is the current connection or in the hands of the task about to install it |
| ConnectionCalls.CallsCanGetOn | crates/rabbitmq/src/connection.rs:244-347 | Every call that does not wait for the lock can take its next step |
| ConnectionCalls.TheLockComesBack | crates/rabbitmq/src/connection.rs:249-254 | The lock is always held by a call that is past it and can go on |
| ConnectionCalls.AnythingMayGoWrong | crates/rabbitmq/src/connection.rs:244-347 | Connections may die, dials fail, policies decline and close begin wherever they can |
| Connection.ConnectionHandle.Install | crates/rabbitmq/src/connection.rs:339-347 | The machine's swap and bump: what is replaced is dead, and the generation is the index of the new connection |
| Connection.ConnectionHandle.MarkClosing | crates/rabbitmq/src/connection.rs:442-447 | The machine's step: every call from then on fails at its first check, and a second call changes nothing |
| Connection.ConnectionHandle.Live | crates/rabbitmq/src/connection.rs:324-336 | Its three answers are where the machine's check, peek and status steps take the task: failed, connected to a live current connection, or on to the lock or the policy |
| CloseNotify.NoSleeperIsForgotten | crates/rabbitmq/src/connection.rs:357-368 | With the waiter armed before the flag is checked, once every mark_closing is through each sleeper has its wake-up |
| CloseNotify.SleepersAreWokenExactlyWhen | crates/rabbitmq/src/connection.rs:442-447 | In every run once the flag is up, all sleepers have their wake-up if and only if the call that set it has notified or nobody is asleep |
| CloseNotify.WhatOneCallPromises | crates/rabbitmq/src/connection.rs:442-447 | The call that found the flag down has woken everyone when it returns; another call has exactly if the first has |
| CloseNotify.SecondCallMayReturnEarly | crates/rabbitmq/src/connection.rs:442-447 | A run in which a call that did not set the flag returns with a sleeper still un-notified |
| CloseNotify.CloseSignal.MarkClosing | crates/rabbitmq/src/connection.rs:442-447 | The machine's one or two steps: with the flag down it wakes every sleeper, with the flag up it changes nothing |
| CloseNotify.CloseSignal.ArmThenCheck | crates/rabbitmq/src/connection.rs:357-361 | Arming and then checking puts a task to sleep, with a waiter on record, exactly when the flag is down |
| CloseNotify.CheckingFirstForgetsASleeper | crates/rabbitmq/src/connection.rs:357-368 | Checking before arming forgets a sleeper for good |
| CloseNotify.SleepsAnswerTruthfully | crates/rabbitmq/src/connection.rs:357-368 | A sleep is refused only once the flag is up, reported as slept out only while it is down, and begun only then |
| CloseNotify.StepKeeps | crates/rabbitmq/src/connection.rs:357-368 | Every step keeps sleepers accounted for |
| Reconnect.BackoffPolicyIsLimited | crates/rabbitmq/src/reconnect.rs:246-254 | The built-in policy gives up exactly at its limit, never without one, and tries at once first |
| Reconnect.BuiltinIsLimited | crates/rabbitmq/src/reconnect.rs:246-254 | So the bounds below apply to it, whatever its backoff and jitter |
| Reconnect.BuiltinWaitsItsBackoff | crates/rabbitmq/src/reconnect.rs:246-254 | It waits as its backoff says, and not before the first attempt |
| Reconnect.EnsureConnected | crates/rabbitmq/src/connection.rs:256-319 | The dialling loop, against the recursive account of its rounds |
| Reconnect.DialsAreBounded | crates/rabbitmq/src/connection.rs:256-319 | One call dials at most n times and has then ended |
| Reconnect.ConnectsOnTheFirstSuccess | crates/rabbitmq/src/connection.rs:256-319 | Undisturbed, it connects on the first dial that succeeds within n, else gives up after exactly n |
| Reconnect.TheFirstDecidingRoundAnswers | crates/rabbitmq/src/connection.rs:256-319 | What a call answers whatever closes and fails when: the first round that decides does |
| Reconnect.Recover | crates/rabbitmq/src/backend.rs:516-579 | The resubscribing loop around it, against its recursive account; it stops at once when closing or without a policy |
| Reconnect.TheFirstDecidingTrialAnswers | crates/rabbitmq/src/backend.rs:533-578 | What a recovery answers: the first turn that does not just try again decides |
| Reconnect.RecoverTerminates | crates/rabbitmq/src/backend.rs:516-579 | At most n times max(1, n) dials and max(1, n) subscriptions, then over |
| Reconnect.BuiltinRecoveryTerminates | crates/rabbitmq/src/backend.rs:516-579 | The same for the built-in policy with max_attempts = n |
| Reconnect.BoundIsReached | crates/rabbitmq/src/backend.rs:516-579 | There is a script that needs exactly n times n dials |

## Left out

- Settlement.NoJobIsLost: does not say when a hold queue is deleted, only what a deletion costs; when that can happen is the subject of `HoldQueue`.
- Connection.CloseLeaksExactlyWhen: one call of `close`; a second one would look at the slot again.
- HoldQueue.HoldQueuesAreTimers: a message moves the instant it is due; a broker may be late, never early.
- WorkerRun.DrainEnds: counts steps, so it assumes that a job's handler, and whatever a step awaits, does return.
- ConfirmPool.SuccessMeansRouted: needs publishes not to be dropped mid-confirm; exactly when it fails with them is the subject of `Misattribution`.
- ConfirmPool.CloseLeavesNothing: one closer; a second `close` finds the semaphore closed and no channel left.
- Retry.ExponentialDelay: exact reals instead of `f64`; rounding and underflow of `powf` are not modelled.
- The concurrent protocols are machines over values rather than classes, since their steps interleave; aliasing of the shared state is not modelled.
- In `MemoryBackend` a queue's implicit creation is a step of its own, and `queue_names` and similar read-only helpers are not modelled.
- Dropping the futures of `Worker::run` or `ensure_connected` part-way.
- The derive macros, the queue and job traits, typed payloads; payloads are opaque and decoding is one of the outcomes of a run.
- Envelope JSON, AMQP headers and undecodable bodies (`discard_malformed`), the AMQP wire protocol, TLS and `lapin`.
- `WorkerBuilder::build` and the other builders, which validate configuration.
- Topology redeclaration after a reconnect, which is best effort and only logged.
- `delivery_stream` beyond `recover`: generation checks decide when to resubscribe, not what is lost.
- Logging, error texts, `Debug` output and the examples.
