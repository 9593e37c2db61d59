# Block pipeline verification

A Dafny model of the block-producing pipeline of the chain indexer framework, of the ordered-commit Kafka consumer
behind it, and of the transfer table that follows a chain through re-orgs, with proofs about every run of each.

`dafny verify dfyconfig.toml` checks the whole project (Dafny 4.11).

## How it is modelled

JavaScript runs one task at a time and interleaves only at `await`. Every class of the program is a Dafny class whose
fields are the program's fields, and whose methods are the stretches of code between two waits, with the program's own
loops. What a suspended coroutine is waiting for is part of the state. The environment decides which step comes next:
which fetch is answered and how, which log, message or delivery arrives, which timer fires, when unsubscribe is called.

Each class has a `State` datatype and a function `Next` (with one function for every kind of step) that says what a
step does; every method is proved to take `View()` to what `Next` says. The theorems are about `Run`, that is, about
every sequence of enabled steps. Hashes are abstract digests; where a proof needs a hash to determine its block, the
map from hashes to headers is a parameter. A successful answer of a worker carries the height that was asked for.

| file | program part |
|---|---|
| `Chain.dfy`, `Fetches.dfy` | hashes, blocks, requests made to workers |
| `Queue.dfy` | the sparse-record FIFO |
| `ProducedBlocksModel.dfy`, `RestartPoint.dfy`, `BlockProducer.dfy` | the collection of produced blocks, the restart height, the batched insert drain |
| `LogHandler.dfy`, `BlockSubscription.dfy`, `SubscriptionRuns.dfy` | backfilling and live block subscription |
| `SubscriptionEndings.dfy` | errors, unsubscribing, and what earlier subscriptions leave behind |
| `SubscriptionRestarts.dfy` | restarts by the liveness timer |
| `SubscriptionProgress.dfy` | what keeps the subscription going: jobs, logs, timer, the next block |
| `WorkerChannel.dfy`, `SessionReplies.dfy` | matching worker replies with requests |
| `BlockPolling.dfy`, `ErigonBlockPolling.dfy`, `ErigonRuns.dfy`, `ErigonProgress.dfy` | the sequential and the prefetching poller |
| `KafkaConsumer.dfy`, `KafkaRuns.dfy` | the ordered-commit consumer, one by one and concurrent |
| `TransferTable.dfy` | the re-org-aware transfer table |

Main results: gap-freedom of the block stream over whole runs (`WholeRunGapFree`), the in-flight invariant behind it
(`InFlight`), hash links in the live stream (`LiveStreamHashLinked`), the exact restart height and exactly when it is
safe (`RestartPoint`, `RestartSafeAndTight`), batched insertion as one-by-one insertion (`BatchedEqualsOneByOne`),
the prefetching poller as a refinement of the sequential one (`PipelinedRefinesSequential`), ordered commit
(`CommittedPrefix`, `NothingLostBeforeError`) and the consumer's commits, retries and errors read off the events alone
(`ConsumerOfRun`, `OutcomeOfRun`), the live stream as what the logs ask for (`LiveStreamFollowsLogs`), exactly when a
next block can still come (`NextBlockCanCome`, `NextHeightCanCome`), and the transfer table as truncate-then-append
(`SavesAgreeWithFold`, `ReplayChangesNothing`).

Results that show where the code falls short of what one might expect of it. Where a condition is given it is exact:
proved in both directions.

- `RestartSafe`, `RestartSafeAndTight`: a restart leaves out heights that the node has otherwise exactly when the
  re-org is deeper than `maxReOrgDepth + 1` and older blocks have already been dropped from the collection;
  `DeepReOrgSkipsHeights` is such a case. Only a walk that finds no agreement down to height 1 goes by another rule:
- `RestartWrapsAtGenesis`: height 0 means "latest" to the collection, so that walk starts again from the top, and
  resumes at a remainder of the depth.
- `NodeHashesAfterRestart`, `ReproducedHeightsKeepOldHashes`: heights produced anew are rejected for as long as they
  are stored. After a re-org and a restart the collection holds the node's hashes and no others exactly when something
  was produced from below everything stored, or production has gone more than `maxReOrgDepth` past the old top.
- `StaleSessionEnds`, `StaleFailureEndsStream`, `StaleFailureFromFresh`: the loop of an abandoned session drops out
  unnoticed exactly when its block has arrived. The answer is looked at before the session id, so that a late failure
  closes the session that has taken over, and is reported to its observer.
- `RestartKeepsStreamExactlyWhen`: a restart by the timer keeps the stream free of gaps, whatever comes, exactly when
  the live loop is not waiting for a block, or what it is waiting for has already arrived and is an error;
  `OverlappingRestartLeavesGap` is a run that gives one block twice and the next one never.
- `ReOrgErrorPassesBlock`: a live re-org error has already moved `nextBlock` past the block it rejected. A restart by the
  timer can go on without the block that was due exactly when that is the block rejected.
- `UnsubscribeInsideSubscribeIsLost`, `UnsubscribeWorksUnlessWaiting`: unsubscribing ends the stream exactly when
  subscribe is not waiting for the node; otherwise everything goes on as if it had not been called.
- `FailureThenFullQueueStalls`, `SilencedExactlyWhenFull`, `SilencedFromStart`: after a failed fetch the Erigon poller
  keeps filling its queue. A poller at rest can be brought back by new subscriptions exactly while there is room in the
  queue; once it is full, no later subscription on the same object is given a block.
- `ReplyResolvesOnlyItsOwn`, `SharedCallBackId`, `LowerHeightSharesId`: a reply resolves its own request alone exactly
  when no other outstanding request has the same sum of time and height. Where heights do not fall, that is another
  request for the same height in the same millisecond; where a subscription starts lower down while prefetched blocks
  are outstanding, a different height can be meant.
- `LossLeavesGapBelow`: an insertion that fails for good can leave the collection without a lower block, too, that was
  passed over while it was queued. What the collection is then, in every run, is what `StoreAfterFailures` says.
- `Queue.ShiftByN`: keeps the record intact exactly for positions that are not negative.

Where documentation and code disagree the code is followed: the comment above the mode choice of subscribe speaks of
50 blocks, the code compares with 20 (internal/block_subscription/abstract_block_subscription.ts:92-93); `getStartBlock`
is documented to return the last valid block, and returns the height after it
(internal/block_producers/block_producer.ts:318-338); `shiftByN` is documented to return null out of range, and returns
undefined for position 0 (internal/queue/queue.ts:45-64).

## Model

| member | source | states |
|---|---|---|
| Queues.ShiftByNIsRepeatedShift | internal/queue/queue.ts:45-64 | Removing up to the n-th item at once is n single removals, with the result of the last, for every n from 1 to the length. |
| Queues.Queue.Enqueue | internal/queue/queue.ts:17-20 | The item goes to the end of the sequence the record stands for; the keys stay exactly head up to tail. |
| Queues.Queue.Shift | internal/queue/queue.ts:27-37 | Takes the first item off, or answers null and changes nothing when there is none; the keys stay exact. |
| Queues.Queue.ShiftByN | internal/queue/queue.ts:45-64 | Drops everything up to the position and hands back the item there; null beyond the length, undefined for 0; the keys stay exactly head up to tail if and only if the position is not negative. |
| Queues.Queue.Front | internal/queue/queue.ts:71-77 | Shows what a removal would take, without removing it. |
| Queues.Queue.Clear | internal/queue/queue.ts:102-106 | Empties the queue from any state, broken ones included. |
| ProducedBlocks.ProducedBlocksModel.AddBlock | internal/block_producers/produced_blocks_model.ts:34-44 | Succeeds if and only if the height is fresh, then keeps exactly the records at most the depth below and none above; on failure nothing changes. |
| ProducedBlocks.ProducedBlocksModel.GetBlock | internal/block_producers/produced_blocks_model.ts:28-32 | The highest of the records that match the query, with its hash: the one of that height, or, without a height or with height 0, any; none exactly when nothing matches. |
| ProducedBlocks.WindowAfterAnyRun | internal/block_producers/produced_blocks_model.ts:15-44 | After any additions, with any of them rejected, the records are within the depth below the last accepted block, which is the highest one, and number at most depth + 1. |
| ProducedBlocks.RejectedRunChangesNothing | internal/block_producers/produced_blocks_model.ts:15-19 | A run of additions is rejected throughout if and only if every height is already stored, and then it changes nothing. |
| ProducedBlocks.SkippingPrunedBlocks | internal/block_producers/block_producer.ts:268-273 | Leaving out blocks that at least depth + 1 later ones follow makes no difference to the collection. |
| RestartPoints.AgreeExactlyUpToFork | internal/block_producers/block_producer.ts:334-341 | Two hash-linked chains have equal hashes exactly up to their fork height. |
| RestartPoints.ProducedWindow | internal/block_producers/produced_blocks_model.ts:34-44 | Producing heights first to m leaves exactly the window of the chain that ends at m. |
| RestartPoints.RestartPoint | internal/block_producers/block_producer.ts:320-360 | For a produced hash-linked chain and a node's chain that forks off at f, the restart height is f + 1 when f is stored and less than the depth below the top, and otherwise the bottom of the walk. |
| RestartPoints.RestartSafeAndTight | internal/block_producers/block_producer.ts:320-360 | With a full window the restart height is at most f + 1 if and only if the fork is at most depth + 1 below the top, and equals f + 1 if and only if it is less than the depth or just depth + 1 below. |
| RestartPoints.RestartSafe | internal/block_producers/block_producer.ts:320-360 | For every window and every fork: the restart leaves out no height from the first one produced on that the node has otherwise, if and only if the fork is at most depth + 1 below the top or everything produced is within the depth; with the separate condition for a walk that reaches height 0. |
| RestartPoints.DeepReOrgSkipsHeights | internal/block_producers/block_producer.ts:320-360 | Two hash-linked chains that part after height 5, and a restart at 8 after producing 10 blocks with a depth of 2. |
| RestartPoints.RestartFromNothing | internal/block_producers/block_producer.ts:325-332 | With nothing stored, the configured start block. |
| RestartPoints.RestartGivenUp | internal/block_producers/block_producer.ts:334-356 | The restart fails over the request for height h if and only if h is stored and within the depth, that request fails, and every higher height was answered with another hash. |
| RestartPoints.RestartWrapsAtGenesis | internal/block_producers/block_producer.ts:320-360 | When nothing down to height 1 agrees with the node, the walk starts over at the top, and the result is m minus the depth modulo m, or the start block. |
| RestartPoints.ReproducedHeightsKeepOldHashes | internal/block_producers/produced_blocks_model.ts:15-44 | Producing from a height in the window, or above it, up to t leaves the heights within the depth below t: up to the old top with the old hashes, above it with the new ones. |
| RestartPoints.NodeHashesAfterRestart | internal/block_producers/produced_blocks_model.ts:15-44 | For every window, fork and restart height: after producing up to t the collection holds only hashes of the node if and only if there was no re-org, the restart was below the window, or t is more than the depth above the old top. |
| BlockProducers.AddWithRetryOutcome | internal/block_producers/block_producer.ts:297-311 | Five attempts: the record is added if and only if at most four database faults come first and the height is fresh. |
| BlockProducers.OneDrainAtATime | internal/block_producers/block_producer.ts:118-123 | In every run at most one drain is active, exactly when the flag says so, and none is asleep over a waiting queue unless its predecessor ended in a failure. |
| BlockProducers.DeliveryResumesDrain | internal/block_producers/block_producer.ts:98-127 | Whatever happened before, after a delivery exactly one drain is active. |
| BlockProducers.RestartingAfterFailedDelivery | internal/block_producers/block_producer.ts:98-111 | In every run: a restart of the producer is under way if and only if a delivery has failed since the last one. |
| BlockProducers.BatchedEqualsOneByOne | internal/block_producers/block_producer.ts:264-285 | Under every interleaving of deliveries and insertions, once no drain is active the queue is empty and the collection is what adding every delivered block in turn gives, for rising fresh heights. |
| BlockProducers.StoreAfterFailures | internal/block_producers/block_producer.ts:264-311 | In every run, failures and repeated heights included: the collection is what adding the blocks inserted with success in turn gives, and each delivered block is one of those, lost or passed over, or still to come. |
| BlockProducers.LossLeavesGapBelow | internal/block_producers/block_producer.ts:264-285 | A run in which a block that fails for good leaves a lower one missing that adding all the others in turn would have kept. |
| BlockProducers.BlockProducer.OnDelivered | internal/block_producers/block_producer.ts:98-127 | Queues a delivered block and starts the drain if none is active; a failed delivery queues nothing and has the producer restarted. |
| BlockProducers.BlockProducer.ProcessQueue | internal/block_producers/block_producer.ts:264-285 | Takes one entry, or the entry that leaves depth others behind it, or ends the drain. |
| BlockProducers.BlockProducer.OnSettled | internal/block_producers/block_producer.ts:264-311 | A settled insertion goes on with the drain, or ends it with the queue left in place. |
| BlockProducers.BlockProducer.GetStartBlock | internal/block_producers/block_producer.ts:320-360 | The bounded loop returns the height of the backward walk, or the fetch that failed. |
| BlockProducers.BlockProducer.AddBlockToMongo | internal/block_producers/block_producer.ts:297-311 | The recursion tries at most five times; on failure the collection is as it was. |
| LogHandlers.RequestsConserved | internal/block_subscription/abstract_block_subscription.ts:109-164 | For any stream of logs: one fetch for every height passed and one more for every accepted repetition; the cursor never falls back. |
| LogHandlers.RejectedLogsDoNotInterfere | internal/block_subscription/abstract_block_subscription.ts:130-151 | Deleting all rejected logs leaves the fetches and the cursor as they were. |
| LogHandlers.DoubledLogChangesNothing | internal/block_subscription/abstract_block_subscription.ts:148-151 | A log that arrives twice in a row asks for what one of it would, anywhere in any stream. |
| LogHandlers.PoisonedLogChangesNothing | internal/block_subscription/abstract_block_subscription.ts:130-146 | A log without a hash, with the zero hash, without a number or with one below the height received last changes nothing, anywhere in any stream. |
| LogHandlers.ForwardLogsAreHeeded | internal/block_subscription/abstract_block_subscription.ts:109-164 | Logs of ever new blocks at heights that do not fall ask for one block for every height passed and one more for every height repeated. |
| LogHandlers.RequestsStepwise | internal/block_subscription/abstract_block_subscription.ts:154-161 | The fetches of a stream go on by 0 or 1 from the height before the start, and end at the height received last. |
| SubscriptionRuns.WholeRunGapFree | internal/block_subscription/abstract_block_subscription.ts:61-180 | From one subscribe over any chain of backfill sessions, live phases and restarts: the stream starts at s or s - 1, every next height is the same or one more, and exactly one more in backfill. |
| SubscriptionRuns.LiveStreamHashLinked | internal/block_subscription/abstract_block_subscription.ts:308-315 | Adjacent live blocks are at one height, or are parent and child one height apart. |
| SubscriptionRuns.InFlight | internal/block_subscription/block_subscription.ts:101-142 | In an active session, which started more than 20 below the last finalized block, one fetch is in flight, for the next block, and that block is final; the queue holds the following heights in order; no height is asked for twice; the queue stays within 2499 plus the number of workers and the heights within the last finalized block or the first round. |
| SubscriptionRuns.JobAddedKeepsPrefetch | internal/block_subscription/block_subscription.ts:216-245 | A job that asks for the first fresh height keeps the session's requests consecutive, the queue in order, and the queue length within the limit plus the throttled jobs. |
| SubscriptionRuns.StartingAllJobs | internal/block_subscription/block_subscription.ts:106-108 | The jobs started for all workers ask for consecutive heights from the next block on. |
| SubscriptionProgress.NoWorkerIdle | internal/block_subscription/block_subscription.ts:216-245 | At every point of an active session: each worker has a job, or everything up to the last finalized block has been asked for. |
| SubscriptionProgress.ThrottledJobGoesOn | internal/block_subscription/block_subscription.ts:226-244 | A paused job goes on once the queue is below 2500, and asks its worker for the first height that nobody has asked for. |
| SubscriptionRuns.StaleSessionEnds | internal/block_subscription/block_subscription.ts:113-141 | The loop of an earlier session that resumes leaves everything else as it was if and only if its block has arrived; if the fetch failed, it closes the active session, sets the fatal flag and reports an error. |
| SubscriptionRuns.LogArrivesSafely | internal/block_subscription/abstract_block_subscription.ts:109-164 | Whatever log arrives, the live phase keeps its order of fetches and its stream. |
| SubscriptionProgress.LiveStreamFollowsLogs | internal/block_subscription/abstract_block_subscription.ts:109-284 | From a live loop at rest the blocks emitted are those that the logs ask for, one by one and in order; all of them once the loop is at rest again. |
| SubscriptionProgress.TimerRestartsExactlyWhenQuiet | internal/block_subscription/abstract_block_subscription.ts:332-354 | The timer restarts the subscription at the next block if and only if the logs since it was armed leave the hash received last as it was; otherwise it is armed anew. |
| SubscriptionProgress.RejectedExactlyWhenUnlinked | internal/block_subscription/abstract_block_subscription.ts:308-315 | After a live block the next one is rejected if and only if it is one higher and not its child. |
| SubscriptionProgress.NextBlockCanCome | internal/block_subscription/abstract_block_subscription.ts:61-284 | At every point of an uninterrupted run: another block can come without a call and without an error, if and only if the loop in charge has not been given a failure or a block of another chain. |
| SubscriptionEndings.LiveErrorIsFinal | internal/block_subscription/abstract_block_subscription.ts:241-283 | After a failed fetch or a re-org found, nothing is emitted until the next subscribe or timer restart. |
| SubscriptionEndings.UnsubscribeEndsStream | internal/block_subscription/abstract_block_subscription.ts:189-212 | After unsubscribe nothing is emitted while backfilling, and at most the block in flight while live. |
| SubscriptionEndings.UnsubscribeInsideSubscribeIsLost | internal/block_subscription/abstract_block_subscription.ts:64-106 | After any run that has subscribe waiting for the node and no live fetch pending: with unsubscribe called there, whatever could happen can still happen, and gives the same stream and the same error. |
| SubscriptionEndings.UnsubscribeWorksUnlessWaiting | internal/block_subscription/abstract_block_subscription.ts:189-212 | Nothing but a block that the live loop already waits for can follow an unsubscribe, if and only if subscribe was not waiting for the node. |
| SubscriptionEndings.StaleFailureEndsStream | internal/block_subscription/block_subscription.ts:113-141 | After a late failure of an earlier session nothing is emitted in the active one, and at most the block in flight while live. |
| SubscriptionEndings.StaleFailureFromFresh | internal/block_subscription/block_subscription.ts:113-141 | A run of a new subscription in which a second session is closed by the late failure of the first, before its first block. |
| SubscriptionEndings.OverlappingRestartLeavesGap | internal/block_subscription/abstract_block_subscription.ts:332-354 | A run in which a timer restart overlaps with a live fetch: block 0 is given twice, then block 2. |
| SubscriptionEndings.DormantBetweenSubscriptions | internal/block_subscription/abstract_block_subscription.ts:61-73 | In every run, over errors, restarts and what is left suspended: where a caller may subscribe, gap-freedom applies if and only if no live loop waits for a block. |
| SubscriptionEndings.DormantAfterUnsubscribe | internal/block_subscription/abstract_block_subscription.ts:189-212 | After unsubscribe gap-freedom applies to the next subscribe if and only if no live fetch was pending, or it has come back since. |
| SubscriptionRestarts.ReOrgErrorPassesBlock | internal/block_subscription/abstract_block_subscription.ts:251-263 | A re-org error emits nothing; after a restart from there some way of going on passes over the block that was due, if and only if that is the block rejected. |
| SubscriptionRestarts.RestartKeepsStreamExactlyWhen | internal/block_subscription/abstract_block_subscription.ts:332-354 | A restart by the timer keeps the stream free of gaps over every run that follows, if and only if no live fetch is pending, or the one pending has been answered with a failure or a block that the re-org check rejects. |
| SubscriptionRestarts.OverlapBreaksStream | internal/block_subscription/abstract_block_subscription.ts:241-284 | Otherwise a run follows, for any number of workers, without an error and without another call, in which the stream goes wrong. |
| SubscriptionRestarts.ShelteredRun | internal/block_subscription/abstract_block_subscription.ts:241-284 | While the old wait can only end in an error, the stream stays in order up to that error, over sessions, live phases and restarts. |
| BlockSubscriptions.BlockSubscription.Subscribe | internal/block_subscription/abstract_block_subscription.ts:61-66 | Waits for the last finalized block on behalf of a new observer. |
| BlockSubscriptions.BlockSubscription.OnFinalizedKnown | internal/block_subscription/abstract_block_subscription.ts:64-73 | Clears the queue and resets the cursor and the next block for the new subscription. |
| BlockSubscriptions.BlockSubscription.OnLatestKnown | internal/block_subscription/abstract_block_subscription.ts:76-101 | Waits on, backfills when the start is more than 20 below the last finalized block, or goes live. |
| BlockSubscriptions.BlockSubscription.BackFillBlocks | internal/block_subscription/block_subscription.ts:101-114 | Opens a session, starts one job for every worker and waits for the first block. |
| BlockSubscriptions.BlockSubscription.ContinueBackFill | internal/block_subscription/block_subscription.ts:110-129 | Waits for the next promise up to the last finalized block, and else closes the session and subscribes from there. |
| BlockSubscriptions.BlockSubscription.AddWorkerJobToQueue | internal/block_subscription/block_subscription.ts:216-236 | Asks the worker, enqueues the promise, and pauses when the queue holds 2500 or more. |
| BlockSubscriptions.BlockSubscription.OnAnswered | internal/block_subscription/block_subscription.ts:160-193 | Settles the request and nothing else. |
| BlockSubscriptions.BlockSubscription.OnJobWakes | internal/block_subscription/block_subscription.ts:228-230 | Pauses again while the queue holds 2500 or more. |
| BlockSubscriptions.BlockSubscription.OnBackFillResumes | internal/block_subscription/block_subscription.ts:113-141 | Reports a failure, drops out of a stale session, or emits and goes on, into the chained subscribe at the end. |
| BlockSubscriptions.BlockSubscription.OnJobResumes | internal/block_subscription/block_subscription.ts:238-244 | Assigns the worker the next height in an active session below the last finalized block, and ends the job otherwise. |
| BlockSubscriptions.BlockSubscription.OnLog | internal/block_subscription/abstract_block_subscription.ts:109-165 | Discards malformed and repeated logs, fetches the heights passed over and the log's own, and starts the live loop. |
| BlockSubscriptions.BlockSubscription.EnqueueMissedBlocks | internal/block_subscription/abstract_block_subscription.ts:326-330 | The loop fetches exactly the heights between the last one received and the current one. |
| BlockSubscriptions.BlockSubscription.OnLiveResumes | internal/block_subscription/abstract_block_subscription.ts:241-284 | Reports a failure or a missed re-org, or emits, remembers the block and goes on. |
| BlockSubscriptions.BlockSubscription.ContinueLive | internal/block_subscription/abstract_block_subscription.ts:241-243 | Waits for the next promise, or stops when the queue is empty or an error was reported. |
| BlockSubscriptions.BlockSubscription.OnUnsubscribe | internal/block_subscription/abstract_block_subscription.ts:189-212 | Closes the session, drops the queue and stops listening. |
| BlockSubscriptions.BlockSubscription.OnTimerFires | internal/block_subscription/abstract_block_subscription.ts:332-354 | Restarts the subscription at the next block if no log was accepted since, whatever is in flight, and arms itself again otherwise. |
| WorkerChannels.NothingLostOrRepeated | internal/block_subscription/block_subscription.ts:154-202 | Whatever is asked and replied: each request either listens under its own id or was resolved, once. |
| WorkerChannels.WorkerErrorResolvesAll | internal/block_subscription/block_subscription.ts:184-193 | After any run, an error of the worker leaves every request resolved, once, and nobody listening. |
| WorkerChannels.ReplyResolvesItsRequest | internal/block_subscription/block_subscription.ts:157-182 | With rising heights and a clock that does not run back, ids rise, and a reply resolves exactly its own request, if it is still outstanding. |
| WorkerChannels.ReplyResolvesOnlyItsOwn | internal/block_subscription/block_subscription.ts:157-182 | In every run: the reply to an outstanding request resolves that request alone if and only if no other outstanding one has the same sum of time and height. |
| SessionReplies.SessionRepliesResolveTheirRequests | internal/block_subscription/block_subscription.ts:154-245 | At every point of a backfill session, for every worker: its ids rise, and each reply resolves its own request, once, and no other. |
| WorkerChannels.SharedCallBackId | internal/block_subscription/block_subscription.ts:157-182 | Where heights do not fall, a reply resolves its request alone if and only if no other outstanding request is for the same height in the same millisecond. |
| WorkerChannels.SharedCallBackIdResolvesBoth | internal/block_subscription/block_subscription.ts:160-182 | Of two requests with the same sum of time and height, equal or not, the first reply resolves both. |
| WorkerChannels.LowerHeightSharesId | internal/block_subscription/block_subscription.ts:157-182 | A run in which the reply for height 1000 resolves the request for height 900. |
| WorkerChannels.WorkerChannel.GetBlock | internal/block_subscription/block_subscription.ts:154-200 | Registers a listener under the time plus the block number. |
| WorkerChannels.WorkerChannel.OnMessage | internal/block_subscription/block_subscription.ts:160-182 | Resolves the listeners of the id and keeps the others. |
| WorkerChannels.WorkerChannel.OnError | internal/block_subscription/block_subscription.ts:184-193 | Resolves every outstanding request, in order. |
| WorkerChannels.WorkerChannel.Dispatch | internal/block_subscription/block_subscription.ts:160-182 | The listeners of the id are resolved in order and leave; the others stay. |
| BlockPollers.SequentialStream | internal/block_subscription/block_polling.ts:56-80 | A subscription is given start, start + 1, and so on, none above the heads it was told of, with earlier loops still suspended. |
| BlockPollers.EveryStreamIsSequential | internal/block_subscription/block_polling.ts:56-80 | Every such stream of blocks is produced by some run of the sequential poller. |
| BlockPollers.NextBlockCanCome | internal/block_subscription/block_polling.ts:56-80 | At every point of a subscription, the sleep at the head included: the block due, whichever it is, can come next, given a head at its height or above. |
| BlockPollers.NothingEmittedWithoutLoop | internal/block_subscription/block_polling.ts:46-86 | After unsubscribe, and after the node has failed to answer, nothing is emitted until the next subscribe. |
| BlockPollers.ErrorsAreReported | internal/block_subscription/block_polling.ts:82-86 | The observer is told of an error if and only if the node has failed to answer. |
| BlockPollers.BlockPoller.OnSubscribe | internal/block_subscription/block_polling.ts:32-44 | Starts a polling loop one below the start block under a fresh id. |
| BlockPollers.BlockPoller.OnLatestKnown | internal/block_subscription/block_polling.ts:60-69 | Sleeps when there is nothing new, and else asks for the first new block. |
| BlockPollers.BlockPoller.OnWakes | internal/block_subscription/block_polling.ts:60-66 | Polls again, or ends when a later subscription or unsubscribe has taken over. |
| BlockPollers.BlockPoller.OnFails | internal/block_subscription/block_polling.ts:82-86 | Reports the error and ends the loop. |
| BlockPollers.BlockPoller.OnBlockKnown | internal/block_subscription/block_polling.ts:68-79 | Emits the block and asks for the next, unless a later subscription has taken over. |
| ErigonRuns.AdjacentEmissionsLinked | internal/block_subscription/erigon_block_polling.ts:157-195 | In every run, across failures, new subscriptions and stale queues, adjacent blocks with no re-org reported between them are parent and child, one height apart. |
| ErigonRuns.ReOrgClearsTheWay | internal/block_subscription/erigon_block_polling.ts:167-177 | When a re-org is reported the queue is empty, and the first block fetched after it is accepted. |
| ErigonRuns.PipelinedRefinesSequential | internal/block_subscription/erigon_block_polling.ts:231-262 | From an idle, empty poller, up to the first error: start, start + 1, and so on, none above a reported head, and a single subscription of the sequential poller, told no other heads and not unsubscribed, emits the same blocks. |
| ErigonProgress.PollingOutlivesRun | internal/block_subscription/erigon_block_polling.ts:231-262 | Until somebody subscribes or unsubscribes or the node fails to answer a poll, the polling loop lives on under the current id, through sleeps and waits for room; only a re-org ends it. |
| ErigonProgress.NextHeightCanCome | internal/block_subscription/erigon_block_polling.ts:157-262 | At every point of an error-free subscription: the block due can come next, given a head at its height or above, if and only if the consumer has not been given a failure or a block of another chain. |
| ErigonProgress.ReOrgEndsSubscription | internal/block_subscription/erigon_block_polling.ts:167-177 | From the moment a re-org is found nothing is fetched or emitted until the next subscribe. |
| ErigonProgress.NothingFetchedWithoutLoop | internal/block_subscription/erigon_block_polling.ts:226-268 | In every run: after unsubscribe, and after the node has failed to answer a poll, no block is asked for until the next subscribe. |
| ErigonRuns.QueueNeverOutgrowsWorkers | internal/block_subscription/erigon_block_polling.ts:241-252 | In every run, over any number of subscriptions and stale queues: never more than 100 promises a worker are queued. |
| ErigonRuns.RoundRobin | internal/block_subscription/erigon_block_polling.ts:241-260 | In a subscription started empty, the outstanding heights of any two workers differ by at most one, and none has more than 101. |
| ErigonRuns.StalledForGood | internal/block_subscription/erigon_block_polling.ts:242-252 | With the queue full and the consumer stopped, no run emits anything any more. |
| ErigonRuns.Revives | internal/block_subscription/erigon_block_polling.ts:159-219 | With room in the queue and the consumer stopped, new subscriptions lead on to a block, over failed entries and re-orgs in what is queued. |
| ErigonRuns.SilencedExactlyWhenFull | internal/block_subscription/erigon_block_polling.ts:157-261 | After any run that leaves the consumer stopped: no further run emits a block if and only if the queue is full. |
| ErigonRuns.FailureThenFullQueueStalls | internal/block_subscription/erigon_block_polling.ts:184-252 | After any run that ends in an error: the next head ends all emission, on whatever subscriptions follow, if and only if it is as far ahead as there is room in the queue. |
| ErigonRuns.SilencedFromStart | internal/block_subscription/erigon_block_polling.ts:184-252 | A run of a new poller, with one failed fetch and a head 100 blocks a worker further, after which nothing is ever emitted. |
| ErigonBlockPollers.ErigonBlockPoller.PollBlocks | internal/block_subscription/erigon_block_polling.ts:241-261 | The inner loop fetches on without a pause until the head, a full queue or a change of polling id. |
| ErigonBlockPollers.ErigonBlockPoller.OnSubscribe | internal/block_subscription/erigon_block_polling.ts:205-219 | Clears the error flag and starts a polling loop under a fresh id, keeping queue and remembered hash. |
| ErigonBlockPollers.ErigonBlockPoller.EnqueueFetch | internal/block_subscription/erigon_block_polling.ts:248-252 | Asks the worker whose turn it is, enqueues the promise and starts the consumer if it is at rest. |
| ErigonBlockPollers.ErigonBlockPoller.OnLatestKnown | internal/block_subscription/erigon_block_polling.ts:233-241 | Sleeps when there is nothing new, and else fetches on. |
| ErigonBlockPollers.ErigonBlockPoller.OnWakes | internal/block_subscription/erigon_block_polling.ts:237-247 | Goes on after a sleep, or fetches on when there is room in the queue. |
| ErigonBlockPollers.ErigonBlockPoller.ContinueConsuming | internal/block_subscription/erigon_block_polling.ts:159-161 | Waits for the next promise, or stops when the queue is empty or an error was reported. |
| ErigonBlockPollers.ErigonBlockPoller.OnConsumerResumes | internal/block_subscription/erigon_block_polling.ts:159-192 | Reports a failure, finds a re-org and unsubscribes, or emits and goes on. |
| ErigonBlockPollers.ErigonBlockPoller.OnReOrgReported | internal/block_subscription/erigon_block_polling.ts:169-194 | Drops the queue and reports the re-org. |
| KafkaConsumers.RetriesAreBounded | internal/kafka/consumer/asynchronous_consumer.ts:25-35 | A message is given up exactly after maxRetries + 1 failures or a fatal one, with no success before. |
| KafkaConsumers.GivenUpAsFatal | internal/kafka/consumer/asynchronous_consumer.ts:25-35 | A message given up is rejected with an error that is fatal exactly when the failure it was given up at is a fatal own or client error, or an unknown value. |
| KafkaConsumers.CommittedPrefix | internal/kafka/consumer/abstract_consumer.ts:229-268 | In every run up to and including the first error, in both forms, committed messages are a prefix of the accepted ones, each handled with success. |
| KafkaConsumers.NothingLostBeforeError | internal/kafka/consumer/abstract_consumer.ts:148-268 | Before the first error the queue is the accepted rest in order, nothing accepted is behind the start offset, the drain rests exactly when all is committed, the consumer is paused exactly while the buffer is full, and the one-by-one form handles nothing ahead of its turn. |
| KafkaRuns.ConsumerOfRun | internal/kafka/consumer/abstract_consumer.ts:171-268 | In every run up to the first error, told from the events alone: accepted are the messages that arrived at the start offset or above, in order; committed are the first so many as waits went through; the rest is queued. |
| KafkaRuns.ArrivalsAccepted | internal/kafka/consumer/abstract_consumer.ts:171-198 | Accepted are exactly the messages at the start offset or above; each lower one starts a seek until one has gone through. |
| KafkaRuns.OutcomeOfRun | internal/kafka/consumer/abstract_consumer.ts:208-268 | The observer is told of an error exactly at a message that cannot be deserialised, a failed seek, a commit that fails maxRetries + 1 times, or the failure of the front message after maxRetries others or a fatal one; the consumer stops exactly when it is fatal. |
| KafkaRuns.PromisesFollowCalls | internal/kafka/consumer/asynchronous_consumer.ts:25-49 | In every run each promise is where the calls made for its message have brought it. |
| KafkaRuns.HandledOfRun | internal/kafka/consumer/abstract_consumer.ts:241-252 | Handled are exactly the messages that the observer has taken with success. |
| KafkaRuns.RejectedPromiseIsReported | internal/kafka/consumer/abstract_consumer.ts:255-263 | A rejected promise is waited for maxRetries + 1 times before the observer is told, and once when the error is fatal. |
| KafkaConsumers.KafkaConsumer.OnData | internal/kafka/consumer/abstract_consumer.ts:171-199 | Skips a message behind the start offset, seeking there unless a seek has gone through; queues any other and starts the drain. |
| KafkaConsumers.KafkaConsumer.OnBadData | internal/kafka/consumer/abstract_consumer.ts:195 | Reports a message that cannot be deserialised, and queues nothing. |
| KafkaConsumers.KafkaConsumer.OnSeekEnds | internal/kafka/consumer/abstract_consumer.ts:174-190 | Remembers a seek that has gone through, and reports one that has failed. |
| KafkaConsumers.KafkaConsumer.HandleBackpressure | internal/kafka/consumer/abstract_consumer.ts:148-160 | Pauses at the buffer limit and resumes below it. |
| KafkaConsumers.KafkaConsumer.ReportError | internal/kafka/consumer/abstract_consumer.ts:302-308 | Drops the queue and begins to disconnect on a fatal error, and tells the observer of any. |
| KafkaConsumers.KafkaConsumer.OnCallEnds | internal/kafka/consumer/asynchronous_consumer.ts:25-35 | A call of the observer fulfils its promise, is repeated, or gives the message up. |
| KafkaConsumers.KafkaConsumer.SafeCommitMessage | internal/kafka/consumer/abstract_consumer.ts:208-221 | Commits after up to maxRetries faults, and reports the fault beyond that. |
| KafkaConsumers.KafkaConsumer.OnWaitEnds | internal/kafka/consumer/abstract_consumer.ts:241-267 | Commits and goes on, tries again, or reports the error. |
| TransferTables.GuardedSaveIsReplace | examples/matic_transfer/consumer/src/services/transfer.ts:39-49 | The guarded save is truncate-then-append if and only if the guard fires or nothing is stored at the height or above. |
| TransferTables.SavesAgreeWithFold | examples/matic_transfer/consumer/src/services/transfer.ts:39-49 | A run of saves leaves the table of the plain truncate-then-append fold, whichever of equally late transfers the database reports. |
| TransferTables.ReplayChangesNothing | examples/matic_transfer/consumer/src/services/transfer.ts:39-49 | Saving a rising run of batches a second time leaves the table as it was. |
| TransferTables.TransferService.Save | examples/matic_transfer/consumer/src/services/transfer.ts:28-58 | Empty batches change nothing; others are saved as the step function says, which is truncate-then-append on a chronological table. |
| TransferTables.TransferService.GetLastTransferBlock | examples/matic_transfer/consumer/src/interfaces/transfer_methods.ts:15-20 | The height of a transfer with the latest timestamp, 0 for an empty table. |
| TransferTables.TransferService.AddAllTransfers | examples/matic_transfer/consumer/src/interfaces/transfer_methods.ts:29-35 | The loop appends every transfer in order. |
| TransferTables.TransferService.DeleteTxsForReorg | examples/matic_transfer/consumer/src/interfaces/transfer_methods.ts:44-52 | Keeps the transfers below the height, all of them and in their order, deletes the others, and answers how many those were. |

## Left out

- WholeRunGapFree: does not cover a timer restart while the live loop still waits for a block; that wait carries no session id and can write `nextBlock` of the new subscription, and `RestartKeepsStreamExactlyWhen` says when that matters.
- LiveStreamHashLinked: says that emitted blocks are linked, not that every re-org error is justified; the last live block is not updated while backfilling.
- BatchedEqualsOneByOne: does not cover insertions that fail five times or heights that are already stored; `StoreAfterFailures` does, with the blocks that were inserted in place of those delivered.
- RestartPoint: requires the node to answer every height it is asked for; `RestartGivenUp` says when a failed request ends the walk.
- RestartKeepsStreamExactlyWhen: requires at least one worker; without any, no block can be asked for.
- NextBlockCanCome: requires at least one worker, for the same reason, as does `NextHeightCanCome`.
- UnsubscribeInsideSubscribeIsLost: does not cover a subscribe that waits while a live loop of an earlier subscription still waits for a block, since that loop may take what is left in the queue.
- CommittedPrefix: ends with the first error reported; what arrives after the queue was cleared is not modelled.
- WorkerChannel: the replacement of a worker that exits, with the listeners of the old one, is not modelled.
- Kafka, MongoDB, web3 and worker threads themselves are steps of the environment; one insertion, creation and pruning together, is one step.
- Failures of the node inside subscribe, exceptions thrown by `observer.next` of a subscription, and the teardown of a log subscription that fails are not modelled.
- Deserialisation is taken to keep the order of messages; the start offset is that of a single topic; pausing of single partitions and what a disconnect brings about are not modelled.
- Session and polling ids are fresh numbers instead of clock readings; the clock matters only in `WorkerChannel.dfy`.
- Hashes are digests without letter case: the Erigon poller lowers the case before comparing, the other subscription compares the strings as they come.
- The subscriptions own a queue where the program's classes extend it.
- Concurrent calls of subscribe on one subscription are not modelled: a caller subscribes first of all, or after unsubscribe.
- What a restart of the producer does while it is under way, Kafka production, block getters and their timeouts, coders, formatters, the bloom filter, errors, logging and the public wrappers are not modelled: field copying and client plumbing.
