# pgqueue, modelled and proved

pgqueue is a message queue whose state is a handful of PostgreSQL tables changed by short transactions.
Consumers, a garbage collector, replay and batch operations all race on the same rows. This project models
that state machine, the push-delivery protocol around it and the smaller algorithms it leans on, and proves
what holds of every run. `dafny verify dfyconfig.toml` checks all of it.

## How the model is built

- **Rows and runs.** A channel message row and a topic subscription row carry the same delivery columns, so
  `Lease` is one machine for both. An action whose WHERE clause does not match changes nothing; a run is *any*
  sequence of attempted actions. `Channel` and `Topic` add the message, subscription and dead-letter (DLQ) tables.
- **Transactions.** `ChannelDb` and `TopicDb` hold the tables as mutable fields. Each transaction is a method
  proved to be a run of row actions (`trace`), so every theorem about runs covers every interleaving of
  committed transactions. `Valid()` says that the tables are reachable from an empty queue.
- **Environment.** The database clock is a number that only moves forward. `uuidv7()` inside the database yields
  some id not used before. A retry delay is an arbitrary non-negative input. Array parameters are sequences.
  Ids are numbers whose order is byte order (`UuidV7` proves that correspondence).
- **Protocols.** `Notifier`, `Wakeup`, `Listener` and `Shutdown` are machines whose steps are the source's
  critical sections, so their runs are the interleavings of its goroutines.

| module | subject |
|---|---|
| `Lease`, `Claims` | delivery state of one row, fencing, retry budget, miss classification |
| `Channel`, `ChannelStore`, `ChannelConsume` | channel tables, single-message transactions, the consume loop |
| `ChannelGc`, `ChannelReplay`, `ChannelReplayFrom`, `Paging` | collection passes, paged replay, keyset pagination |
| `Batch` | grouped ack and nack as refinements of the single operations |
| `Topic`, `TopicHistory`, `TopicStore`, `TopicGc`, `TopicReplay` | per-subscriber delivery, referential integrity, where its rows come from, purges, DLQ replay |
| `Notifier`, `Wakeup`, `Listener` | LISTEN bookkeeping, no lost wakeup, reconnects |
| `UuidV7`, `ErrorText`, `Shutdown`, `Fake` | id generator, UTF-8 truncation, Close, the in-memory test double |

## Where code and documentation differ

The model follows the code in each case.

- A dry-run DLQ replay of a channel is documented to report exactly what a real run would replay
  (replay.go:181-186). Each page is rolled back, so an id with dead letters on two pages is counted twice.
  `DryRunNeverFewer` gives the exact condition and `DryRunCanOverstate` a reachable counterexample for every page size.
- `Close` is documented to leave no queue-owned goroutine running (pgqueue.go:556-561). A second, concurrent `Close`
  returns at once: `SecondCloseCanReturnEarly`. `CloseJoins` proves the promise for the call that marks the queue,
  `QuietUnlessJoining` for every other call made while no Close is still joining.
- The id generator is documented as strictly increasing. A borrow at the last 48-bit millisecond wraps:
  `NextIsGreater` is an if-and-only-if, `LastMillisecondWraps` the input. Its comment also says that an overflow
  reseeds the counter (uuid.go:69-70); the code sets it to 0.
- The classifying SELECT after a missed UPDATE is said to share its snapshot (channel.go:127-129). Transactions run at
  READ COMMITTED, so `MissIsExplained` allows any run in between.
- `Listen` is documented to return nil only for a subscribed channel (pglisten/listener.go:260-262). Three families of
  calls break this. A waiter whose channel is inactive at a reconnect is released with nil: `NilWithoutSubscription`,
  and `NilIsSubscribedIff` for the exact condition. A LISTEN issued while an UNLISTEN of the same channel is still to
  be issued is undone by it, and the channel stays marked confirmed: `ConfirmedWithoutSubscription`, and
  `ConfirmedIsSubscribedIff` for the exact condition over whole runs. `SeparateCallsAreSafe` is the rule for callers.
  While the session is down a confirmed channel also answers nil: `NilAtOnceIsSubscribedIff`, and `ReconnectRecovers`
  for what happens next.
- The fake says that the real queue selects pending rows by id (fake/fake.go:389-393). channel.go orders by
  (available_at, id): `OrderCanDiffer`. `RunAgreesIff` gives the exact condition and `NoRetryAgrees` the case of a
  caller that never nacks. The fake also refuses an id that sits only in its DLQ, which a channel accepts; the
  simulation is therefore stated on states and not on error codes.

## Model

| member | source | states |
|---|---|---|
| `Lease.RunKeepsInv` | channel.go:516-572 | In every reachable table each row is well formed, no two rows share a claim, and a row that has left pending is never ahead of the clock |
| `Lease.ReturnedRowIsEligible` | gc.go:1236-1252 | A row that is published, reinstated, reset or replayed passes the available_at test at once, although reset and ReplayFrom do not write that column, and has its whole budget unless it was reset |
| `Lease.Fenced` | channel.go:105-146 | Once an issued claim does not own a row it never owns it again, whatever runs afterwards |
| `Lease.ClaimNeverMoves` | channel.go:528-548 | While a claim owns one row no run ever makes it own another |
| `Lease.SettledAtMostOnce` | channel.go:574-602 | Over a whole run at most one ack or nack succeeds under a given claim |
| `Lease.LeaseIsExclusive` | channel.go:528-548 | After a claim, reclaim or extension, whatever else runs: up to and including now + lease the holder owns the row, the stored deadline is exactly that, and nobody else can take it; after that a row it still owns is timed out |
| `Lease.RetryDelayIsExact` | channel.go:672-702 | A nacked or deferred row is not handed out before now + delay, whatever runs, and is eligible from then on |
| `Lease.RetryCountIsDeliveries` | channel.go:427-483 | retry_count equals the deliveries since insertion or replay while pending, and is one less otherwise |
| `Lease.BuriedAfterExactBudget` | channel.go:604-627 | A row becomes a dead letter exactly at delivery max_retries + 1, whichever path handled the earlier failures |
| `Lease.DeliveriesNeverExceedBudget` | gc.go:1230-1235 | No row is ever handed out more than max_retries + 1 times |
| `Claims.MissIsExplained` | queries.go:116-139 | For an issued claim, whatever commits between the missed UPDATE and the classifying SELECT, the reason is exact at the later snapshot, case by case |
| `Claims.ForgedClaimCanBeMisreported` | queries.go:116-139 | Being issued is needed: a token invented by the caller can be minted in the gap and is then reported expired although it is held |
| `Channel.RunProjects` | pgqueue.go:1241-1276 | The delivery columns of a channel run exactly as the lease machine does |
| `Channel.ReachableIsOk` | pgqueue.go:1349-1366 | Every reachable channel keeps its key and column constraints and the lease invariant |
| `Channel.Fenced` | channel.go:516-572 | Fencing of channel claims across redelivery, nack, GC, replay, a DLQ round trip and a republish of the same id |
| `Channel.SettledAtMostOnce` | channel.go:574-602 | After one successful ack or nack no later one under that claim succeeds on any message |
| `Channel.LeaseIsExclusive` | channel.go:516-572 | The same exclusive lease on a message, across every action of the channel |
| `Channel.RetryDelayIsExact` | channel.go:486-513 | The same exact delay for a nacked or deferred message |
| `Channel.CreatedWhenInserted` | publish.go:326-363 | created_at, body and max_retries of every message of every reachable channel are those of the publish or DLQ replay that inserted it |
| `Channel.DoneWhenAcked` | channel.go:105-125 | processed_at of a completed message is the clock of the ack that completed it, under its claim |
| `Channel.ErrorIsLastReason` | channel.go:672-702 | error_message is the reason of the last nack since the message was inserted or replayed |
| `Channel.RetryCountIsDeliveries` | channel.go:427-483 | Exact retry count of every message in every reachable channel |
| `Channel.DeadAfterExactBudget` | channel.go:629-670 | Every DLQ row of every reachable channel entered it after exactly max_retries + 1 deliveries, and records that number, the message's body, the reason and the time |
| `Channel.Conservation` | channel.go:629-670 | For every (id, body): rows at the start plus accepted publishes equal rows in either table plus rows purged, over any run |
| `ErrorText.TruncateErrorMsg` | channel.go:718-737 | The trim loop computes the longest valid cut of the sanitised message |
| `ErrorText.TruncatedIsLongestValidPrefix` | channel.go:710-737 | On any bytes: valid UTF-8, at most 1024 bytes, the longest valid prefix that fits, at most 3 bytes of room wasted |
| `ErrorText.TruncatedIsIdempotent` | channel.go:719-721 | Short valid text is untouched and truncating twice is truncating once |
| `ErrorText.StrayBytesKeepTheRest` | channel.go:722-726 | Any non-empty run of bytes that start no character, whatever they are, costs one replacement character and none of the valid text on either side |
| `ErrorText.LoneBytesAreStray` | channel.go:722-726 | Continuation bytes and bytes that no character uses are such a run, in any mix and in front of any text |
| `ChannelStore.ChannelDb.constructor` | pgqueue.go:1241-1276 | A new channel is the empty reachable state |
| `ChannelStore.ChannelDb.Publish` | publish.go:326-363 | A nil id is generated, a taken id is rejected and changes nothing, otherwise the publish action happens |
| `ChannelStore.ChannelDb.PublishBatch` | batch.go:643-691 | Accepted iff no id is duplicated in the batch or the table; then exactly the batch's rows are added, each with its own body, otherwise nothing |
| `ChannelStore.ChannelDb.Ack` | channel.go:105-146 | Succeeds iff the claim owns the message, independent of the clock; a stale receipt changes nothing and is classified |
| `ChannelStore.ChannelDb.ExtendVisibility` | channel.go:154-191 | Out-of-range durations are rejected; succeeds iff the claim owns the message; claim and counts are kept |
| `ChannelStore.ChannelDb.Nack` | channel.go:211-246 | While the budget lasts the row is pending again with one more retry, the truncated reason and available_at = now + delay; when it is spent one DLQ row replaces it; nothing on a stale receipt; no other row is touched |
| `ChannelStore.ChannelDb.MoveToDlq` | channel.go:629-670 | One DLQ row takes over the body and one more attempt; the message row is gone |
| `ChannelStore.ChannelDb.RetryMessage` | channel.go:672-702 | Back to pending with the attempt counted, claim cleared, available after the delay |
| `ChannelStore.ChannelDb.ReplayMessage` | replay.go:576-647 | Missing and in-flight messages are refused; any other becomes deliverable now with its whole budget |
| `ChannelStore.ChannelDb.PurgeQueue` | gc.go:497-526 | Empties both tables as a run of deletions and nothing else |
| `ChannelConsume.ClaimMessage` | channel.go:516-572 | The consumer owns what it is handed, under a claim never used before, and is told the row's true contents; the deadline it is told is the one the row stores |
| `ChannelConsume.ReclaimAttempt` | channel.go:427-513 | A timed-out row is dead-lettered if its budget is spent, put off by the backoff of its new retry count under a policy, and handed back otherwise; each on the row's columns, and nothing else changes |
| `ChannelConsume.ScanBacklog` | channel.go:287-349 | Skipped rows are the old backlog in order, each once, at most 64, each accounted for as above; each stop reason means what it says |
| `ChannelConsume.BacklogIsOrdered` | channel.go:402-411 | The backlog is exactly the rows in flight past their deadline and within their TTL, by (visibility_timeout, id) |
| `ChannelConsume.NextPendingIsLeast` | channel.go:392-400 | The pending probe's row is pending, available and within its TTL, and no such row comes before it by (available_at, id) |
| `ChannelConsume.FetchPending` | channel.go:287-349 | A due pending row is delivered first, the least at the moment of delivery, also when a skip made it due; a timed-out row only if none is due; nothing past its TTL; every skipped row is dead or put off by its backoff; empty after fewer than 64 skips means that nothing is due |
| `ChannelGc.RecoverySplits` | gc.go:1230-1235 | Exhausted and retryable rows split the timed-out rows |
| `ChannelGc.RecoveryIsOrderFree` | gc.go:589-608 | Promote-then-reset and reset-then-promote have exactly the same possible results, and leave nothing timed out |
| `ChannelGc.EveryMessageBuried` | gc.go:662-694 | Every promoted message has its own new DLQ row |
| `ChannelGc.PromoteExhausted` | gc.go:621-649 | For every page size the paged loop ends with exactly the set-based promotion and its count |
| `ChannelGc.ResetTimedOut` | gc.go:1211-1263 | For every page size the paged loop ends with exactly the set-based reset and its count |
| `ChannelGc.PurgeRows` | gc.go:875-901 | The paged delete removes exactly the rows past their age |
| `ChannelGc.PurgeDeadRows` | gc.go:1169-1194 | The paged delete removes exactly the DLQ rows past their retention |
| `ChannelGc.RetentionSparesTimedOut` | gc.go:951-990 | Retention never touches a timed-out row |
| `ChannelGc.RetentionIsExact` | gc.go:951-990 | A message or dead letter goes iff a policy that is switched on says its time is up; everything kept is unchanged |
| `ChannelGc.CompletedPurgeIsExact` | gc.go:1066-1090 | Of the completed messages exactly those acked more than the TTL ago, by the clock of the ack |
| `ChannelGc.PendingPurgeIsExact` | gc.go:1114-1162 | Of the pending messages exactly those published or reinstated more than the age ago |
| `ChannelGc.DeadPurgeIsExact` | gc.go:1169-1194 | Of the dead letters exactly those that died more than the retention ago |
| `ChannelGc.CollectQueue` | gc.go:546-608 | A pass leaves nothing timed out; reclaimed is the number of rows that were, purged the number of rows retention deleted |
| `Paging.AfterPage` | replay.go:796-845 | Whatever a page took out of the table, its cursor finds exactly the rows it did not see |
| `ChannelReplay.OnePassIsReplay` | replay.go:883-928 | Trying each row once reinstates exactly the first row of each original id that is not live, and nothing else changes |
| `ChannelReplay.ReplayIsUnique` | replay.go:883-928 | That description determines the resulting tables |
| `ChannelReplay.DedupeByMessageId` | replay.go:869-881 | Keeps exactly the first row of each original id |
| `ChannelReplay.InsertMessages` | replay.go:938-985 | Inserts exactly the ids not live, with the dead letter's body and a fresh budget; live rows are untouched |
| `ChannelReplay.ReinsertPage` | replay.go:883-928 | A page's dedupe, insert and delete equal the one-pass replay of its rows; the count is the rows that moved |
| `ChannelReplay.ReplayPage` | replay.go:716-778 | A page examines the next rows in order; a dry run rolls it back |
| `ChannelReplay.ReplayDlq` | replay.go:656-697 | For every page size and limit: the first min(limit, n) rows by id are examined once each, the tables end as the one-pass replay, replayed + skipped is the number examined; a dry run changes nothing |
| `ChannelReplay.DryRunNeverFewer` | replay.go:759-771 | A dry run never reports fewer replayed rows than a real run, and the same number iff no id that is not live has dead letters on two pages |
| `ChannelReplay.DryRunCanOverstate` | replay.go:181-186 | For every page size some reachable channel makes a dry run overstate |
| `ChannelReplayFrom.ReplayFrom` | replay.go:340-376 | A real run replays exactly as many rows as its dry run reports, min(limit, candidates), the lowest ids, all deliverable at once |
| `ChannelReplayFrom.ReplayableIsExact` | replay.go:300-306 | The candidates are exactly the acked messages published or reinstated at or after the cutoff, by the clock of that step |
| `ChannelReplayFrom.ReplayedAreEligible` | replay.go:506-549 | A settled row of a reachable channel is deliverable as soon as it is replayed, with a whole budget and its body |
| `ChannelReplayFrom.ReplayFromPage` | replay.go:382-426 | A page rewrites exactly the next candidates and leaves the rest ahead of the cursor |
| `Batch.GroupReceiptsByQueue` | consume.go:337-360 | Fails iff a receipt has no queue type; otherwise one group per queue, in input order without repeats |
| `Batch.GroupIsDistinct` | consume.go:337-360 | A group holds exactly its queue's receipts and no (message, claim) pair twice |
| `Batch.GroupInOrder` | consume.go:337-360 | A group lists its receipts at ascending input positions |
| `Batch.GroupAt` | consume.go:337-360 | The first occurrence of each receipt of the queue is in its group, after those before it |
| `Batch.PartitionIsExact` | batch.go:275-321 | Succeeded and failed together are the receipts given, each as often as given |
| `Batch.HeldInOrder` | batch.go:286-297 | Succeeded lists receipts at ascending input positions |
| `Batch.HeldAt` | batch.go:286-297 | Every matching receipt is in succeeded, right after the matching ones before it |
| `Batch.StaleInOrder` | batch.go:286-305 | Failed lists receipts at ascending input positions |
| `Batch.StaleAt` | batch.go:286-305 | Every missed receipt is in failed, right after the missed ones before it |
| `Batch.FinishBatch` | batch.go:275-321 | Succeeded and failed keep input order and split by ownership at the matching statement; reasons come from the one snapshot of the classifying query |
| `Batch.BatchMissIsExplained` | queries.go:187-232 | Whatever commits between the two, a miss whose claim was issued gets the reason that is true at the classifying query, case by case |
| `Batch.ClassifyBatchMisses` | queries.go:187-232 | Index-aligned reasons, each the one the single operation would report |
| `Batch.AcksAreSingles` | batch.go:204-214 | The set-based ack equals the single acks one after the other, each of which succeeds |
| `Batch.AckBatch` | batch.go:171-226 | Same tables and outcomes as single acks on the matching receipts first and the misses after; every succeeded message is completed now and no other is touched |
| `Batch.RetriesAreSingles` | batch.go:918-949 | The set-based retry equals the single retries, each of which succeeds |
| `Batch.MoveAllToDlq` | batch.go:951-1003 | The batch's dead-letterings are single ones, each of which succeeds, one per message |
| `Batch.FiredNackIsSingle` | batch.go:553-573 | Each action of a nack batch is what the single nack does in that state |
| `Batch.MissesStay` | batch.go:289-301 | No receipt that missed becomes a match through the batch |
| `Batch.StaleSingleIsNoOp` | queries.go:143-155 | A single ack or nack of a missed receipt changes nothing afterwards |
| `Batch.BudgetSplits` | batch.go:541-592 | Each held message is either retried or dead-lettered |
| `Batch.ByBudgetInOrder` | batch.go:541-573 | Retried and dead-lettered messages keep the order of the receipts |
| `Batch.ByBudgetAt` | batch.go:541-573 | Every held receipt is on the side its budget says, right after those before it |
| `Batch.NackBatch` | batch.go:397-451 | Same tables and outcomes as single nacks on the matching receipts first and the misses after; every succeeded message is nacked with its own delay and no other is touched; the DLQ grows by exactly the spent messages |
| `Batch.NackBatchColumns` | batch.go:918-1003 | Row by row: pending again with one more retry, the reason and available_at = now + its own delay, or dead with the reason and the time |
| `Batch.DuplicateReceiptBuriesTwice` | consume.go:339-347 | Without deduplication a repeated receipt would put its message on the DLQ list twice |
| `Topic.ReachableIsOk` | pgqueue.go:1112-1131 | In every reachable topic each subscription and DLQ row refers to an existing message whose body it shares, and no (message, subscriber) pair has two rows |
| `Topic.RunKeepsInv` | gc.go:1033-1064 | Every action keeps that integrity, purges and replays included |
| `Topic.ReinstateNeverSkips` | replay.go:1001-1046 | Replaying a dead letter always finds its message and never finds a row in its place |
| `Topic.PublishFansOut` | publish.go:293-323 | A publish starts a delivery for a subscriber iff the subscriber is active |
| `Topic.DeliveriesAreKept` | pubsub.go:423-462 | Through any run without a purge, a delivery keeps a row in one of the two tables |
| `Topic.Fenced` | pubsub.go:204-252 | Once a claim does not hold a (message, subscriber) delivery it never holds it again |
| `Topic.SettledAtMostOnce` | pubsub.go:388-421 | One delivery is settled by at most one successful ack or nack |
| `Topic.RetryCountIsDeliveries` | pubsub.go:653-703 | Exact retry count per subscriber |
| `Topic.BuriedAfterExactBudget` | pubsub.go:328-380 | A delivery moves to the DLQ exactly at delivery max_retries + 1 |
| `Topic.DeadOnBudget` | pubsub.go:423-462 | Every DLQ row of every reachable topic records exactly max_retries + 1 |
| `TopicHistory.LeaseIsExclusive` | pubsub.go:736-770 | After a claim, reclaim or extension of a delivery its holder has it alone until exactly the deadline, whatever else runs short of a purge of the row |
| `TopicHistory.RetryDelayIsExact` | pubsub.go:464-505 | A nacked or deferred delivery is not handed out before its delay is over, and is eligible from then on |
| `TopicHistory.CreatedWhenPublished` | publish.go:251-291 | created_at and body of every message of every reachable topic are those of its publish |
| `TopicHistory.DeliveryHasAnOrigin` | publish.go:293-323 | Every delivery goes back to a subscriber active when its message was published, or to the dead letter of that subscriber |
| `TopicHistory.NewDeliveryIsEligible` | publish.go:293-323 | A delivery just started is deliverable at once with a whole budget |
| `TopicHistory.DeadAfterExactBudget` | pubsub.go:423-462 | Every DLQ row was put there for its own subscriber after exactly max_retries + 1 deliveries, with the message's body, the reason and the time |
| `TopicHistory.ActiveIsSubscribed` | pubsub.go:95-128 | A subscriber is active iff its last call was a Subscribe |
| `TopicStore.TopicDb.Publish` | publish.go:251-291 | A taken id changes nothing; otherwise the message and one row per active subscriber appear together |
| `TopicStore.TopicDb.FanOut` | publish.go:293-323 | New row ids, one for each active subscriber and none besides |
| `TopicStore.TopicDb.Ack` | pubsub.go:204-252 | Succeeds iff the claim holds the delivery; otherwise nothing changes and the miss is classified |
| `TopicStore.TopicDb.Nack` | pubsub.go:328-380 | While the budget lasts the delivery is pending again with one more retry, the reason and available_at = now + delay; when it is spent one DLQ row for its subscriber replaces it; nothing on a stale receipt; no other row is touched |
| `TopicStore.TopicDb.MoveSubToDlq` | pubsub.go:423-462 | The subscription row becomes a DLQ row for its subscriber; the message stays |
| `TopicGc.PurgeMessages` | gc.go:875-947 | For every page size the paged delete removes exactly the completed or orphan messages, with their rows, and counts them |
| `TopicGc.PurgeSubs` | gc.go:1337-1375 | For every page size the paged delete removes exactly the stale pending rows, or the rows of inactive subscribers that no running claim protects |
| `TopicGc.InactivePurgeIsExact` | gc.go:1337-1375 | The inactive purge keeps exactly the rows of active subscribers and those whose claim still runs, unchanged, so that a later ack still settles |
| `TopicGc.InFlightDrains` | gc.go:1322-1336 | A delivery handed out survives every inactive purge until its lease is over, whatever else runs |
| `TopicGc.PendingPurgeIsExact` | gc.go:1114-1138 | The pending purge deletes exactly the pending deliveries of messages published more than the age ago, by the clock of the publish |
| `TopicGc.CompletedPurgeIsExact` | gc.go:1033-1064 | The completed purge deletes exactly the messages published more than the TTL ago with every delivery acked and no dead letter |
| `TopicGc.OrphanPurgeIsExact` | gc.go:917-947 | The orphan purge deletes exactly the messages that no delivery and no dead letter refers to |
| `TopicGc.MessagePurgeSparesDeliveries` | gc.go:1033-1064 | A delivery not yet acked outlives every message purge, with its message |
| `TopicGc.MessagePurgeSparesDeadLetters` | gc.go:917-947 | A dead letter keeps its message, so it stays replayable |
| `TopicReplay.FilterExisting` | replay.go:1048-1088 | Keeps exactly the rows whose message exists, in order |
| `TopicReplay.DedupeIsExact` | replay.go:1112-1129 | Deduplication keeps each delivery once and drops nothing when all are different |
| `TopicReplay.ResolveRecords` | replay.go:1101-1158 | The deliveries to re-create are the deduplicated ones of the rows, and every row is to be deleted |
| `TopicReplay.RevivePage` | replay.go:1001-1046 | Filter, deduplicate, insert and delete, set by set, equal reviving the rows one by one: the missing-message filter drops none, no delivery repeats, no insert meets a conflict |
| `TopicReplay.ReviveIsExact` | replay.go:1101-1158 | Each replayed DLQ row is gone and is exactly one fresh delivery to its own subscriber |
| `TopicReplay.ReviveKeepsDead` | replay.go:1024-1045 | Every other DLQ row is as before, and no other table changed |
| `TopicReplay.ReviveKeepsSubs` | replay.go:1024-1045 | Every other subscription row is as before, and no row comes from elsewhere |
| `TopicReplay.ReplayDlq` | replay.go:656-697 | For every page size and limit the call replays every row it examines and skips none; a dry run reports the same and changes nothing |
| `Notifier.OwnershipIsExact` | notify.go:206-242 | In every interleaving a channel is in flight iff a running confirmation carries its current waker, there is never a second one, and it is listening only if a Listen succeeded for that waker |
| `Notifier.WakeChanStartsListen` | notify.go:233-242 | After every wakeChan on an open notifier, in every interleaving, the channel has a waker and is listening or has a running confirmation that owns it; the call starts one exactly when there is neither |
| `Notifier.OwnerConfirms` | notify.go:277-294 | The channel's own confirmation makes it listen and clears its failures, or counts one more and frees it; no other channel is touched |
| `Notifier.FailureIsRetried` | notify.go:228-240 | After a failed confirmation the next wakeChan starts a new one |
| `Notifier.FailuresAreCounted` | notify.go:277-294 | The failure count is the number of failed confirmations since the last success or forget |
| `Notifier.ForgottenConfirmIsMute` | notify.go:259-276 | A confirmation that a forget overtook, whatever runs in between, leaves wakers, listening, in-flight and failure counts as they are |
| `Notifier.OutlivedForever` | notify.go:327-345 | It stays outlived: a recreated queue never gets the old waker back |
| `Notifier.Notifier.WakeChan` | notify.go:206-242 | Nothing once closed; otherwise the channel's waker, with a confirmation started only if none is due |
| `Notifier.Notifier.ConfirmListen` | notify.go:259-294 | The locked half of a confirmation |
| `Notifier.Notifier.Forget` | notify.go:327-345 | All bookkeeping of the channel is dropped |
| `Wakeup.NoLostWakeup` | consume.go:606-641 | In every interleaving, while a consumer is blocked on its channel's waker, every notification sent for a commit it did not see is still on its way to that waker |
| `Wakeup.CommitIsNotified` | publish.go:326-363 | Every commit under LISTEN puts exactly its own notification at the end of the stream, and is missed without |
| `Wakeup.EmptyReceiveBlocks` | consume.go:612-641 | A consumer that arms and then finds nothing waits on the waker its channel has |
| `Wakeup.PumpAloneWakes` | notify.go:379-400 | In every interleaving a consumer blocked while a notified commit is unseen is released by steps of the pump alone |
| `Wakeup.DrainedMeansWoken` | notify.go:379-400 | While LISTEN is in force and the queue not forgotten, once the pump has drained such a notification the consumer's generation is closed |
| `Wakeup.NothingMissed` | notify.go:97-120 | No commit is missed while LISTEN stays in force |
| `Listener.RebuildPending` | pglisten/listener.go:637-663 | Every active channel is queued again with its own waiters in their order; exactly the waiters of the other channels are released, each once |
| `Listener.ActiveIsCovered` | pglisten/listener.go:528-565 | Over any run, while the session lives every active channel is marked confirmed, queued or held by the drain |
| `Listener.StepMoves` | pglisten/listener.go:174-178 | Each step moves requests between queue, drain and the two kinds of answers one for one; only a Listen makes one |
| `Listener.AnsweredAtMostOnce` | pglisten/listener.go:174-178 | Over any run a caller is answered at most once, with nil or with an error, so the one-slot send never blocks; an unanswered one is still queued or held for the channel it asked for |
| `Listener.AnswerIsExact` | pglisten/listener.go:537-553 | Over any run a queued caller is answered nil iff its own LISTEN succeeded or a reconnect found its channel inactive, and with an error iff its own LISTEN failed |
| `Listener.NilIsSubscribedIff` | pglisten/listener.go:654-662 | A caller told nil is subscribed at that moment iff the answer does not come from a reconnect that finds its channel inactive |
| `Listener.NilWithoutSubscription` | pglisten/listener.go:654-662 | For every channel, a run in which a caller is told nil and nothing subscribes to the channel or will |
| `Listener.ConfirmedIsSubscribedIff` | pglisten/listener.go:279-294 | At every point of a run a confirmed channel is active, subscribed while the session lives and not about to be unsubscribed, iff no LISTEN of it is issued while an UNLISTEN of it is still to be issued |
| `Listener.NilAtOnceIsSubscribedIff` | pglisten/listener.go:288-291 | Without such an overlap, a call answered nil without waiting finds its channel active, and subscribed iff the session is alive |
| `Listener.ConfirmedWithoutSubscription` | pglisten/listener.go:537-563 | For every channel, a run after which it is active and confirmed, its caller was told nil, nothing is left to issue, and it is not subscribed |
| `Listener.SeparateCallsAreSafe` | pglisten/listener.go:310-347 | A caller that never overlaps Listen and Unlisten of one channel meets neither failure |
| `Listener.ReconnectRecovers` | pglisten/listener.go:582-618 | In every run, a channel active at a reconnect and not unlistened since is subscribed once the live session has nothing left to issue, whatever failed in between |
| `Listener.UnlistenReleases` | pglisten/listener.go:326-347 | Whatever runs after an Unlisten, until somebody listens again and as long as no UNLISTEN fails, the channel is unsubscribed once every UNLISTEN has been issued |
| `Listener.Listener.Listen` | pglisten/listener.go:279-308 | Bad names, a closed listener and a confirmed channel return at once; otherwise the request is queued |
| `Listener.Listener.ListenSucceeded` | pglisten/listener.go:537-553 | Success confirms the channel and answers its caller with nil |
| `Listener.Listener.ListenFailed` | pglisten/listener.go:543-551 | Failure answers its caller with the error, puts the rest back in front and gives the session up |
| `Listener.Listener.IssueUnlisten` | pglisten/listener.go:555-563 | UNLISTENs follow the LISTENs of their drain; a failed one changes nothing on the server |
| `Listener.Listener.ReconnectSession` | pglisten/listener.go:582-618 | A fresh session with the rebuilt queue |
| `UuidV7.Generator.NewAt` | uuid.go:94-147 | The next state and the sixteen bytes; a failed random read changes nothing |
| `UuidV7.NextIsGreater` | uuid.go:94-147 | For any clock below 2^48 the next id is greater in byte order iff the generator does not borrow past the last 48-bit millisecond |
| `UuidV7.IdsIncrease` | uuid.go:94-147 | Over any sequence of readings, forward, backward or stuck, later ids are greater |
| `UuidV7.RoomToSpare` | uuid.go:113-128 | A clock bound with room for the calls excludes the exception |
| `UuidV7.LastMillisecondWraps` | uuid.go:122-128 | A stuck clock at the last millisecond and a full counter yield a smaller id |
| `UuidV7.DriftIsBounded` | uuid.go:103-129 | 4096 * (pinned ms - largest reading) + counter never exceeds 2047 + calls |
| `UuidV7.TimestampRoundTrip` | uuid.go:150-157 | The timestamp read back is the pinned millisecond modulo 2^48 |
| `UuidV7.IdFields` | uuid.go:131-147 | Every id carries version 7, the variant, the counter and 62 of the random bits unchanged |
| `UuidV7.NextFields` | uuid.go:103-129 | A new millisecond resyncs and reseeds below 2048; the same one counts up; a full counter restarts at zero |
| `UuidV7.SmallerIsLess` | fake/fake.go:414-421 | Numeric order of equally long byte strings is byte order |
| `Shutdown.CloseJoins` | pgqueue.go:575-609 | In every interleaving, once the Close that marked the queue has returned nothing runs and nothing ever starts again |
| `Shutdown.SecondCloseCanReturnEarly` | pgqueue.go:580-584 | A concurrent second Close can return while a worker runs |
| `Shutdown.QuietUnlessJoining` | pgqueue.go:575-584 | A Close that finds the queue closed while no other Close is still joining finds nothing running, and nothing ever starts again |
| `Shutdown.StartRuns` | gc.go:172-185 | On an open queue collectors are registered and their first Start really starts the loop; on a closed one Start changes nothing |
| `Shutdown.WorkersAreCounted` | pgqueue.go:708-716 | A worker counts from its Add to its Done, and only on an open queue |
| `Shutdown.ClosedIsQuietIff` | pgqueue.go:695-716 | A closed queue is quiet iff no worker is tracked and every registered collector is still: one that was never registered never runs |
| `Shutdown.CloseKeepsInv` | gc.go:172-197 | A joining Close leaves every collector behind it still, even one whose Start raced with the mark, and returns only when all registered ones are |
| `Shutdown.Queue.TrackWorker` | pgqueue.go:708-716 | No Add once closed |
| `Shutdown.Queue.RegisterGc` | pgqueue.go:695-702 | A collector made after Close is not recorded |
| `Shutdown.Queue.MarkClosed` | pgqueue.go:580-586 | The first call gets the collectors to stop; the others nothing, and a quiet queue unless a Close is still joining |
| `Fake.FakeChannel.Publish` | fake/fake.go:211-280 | Accepts iff it does not know the id, and then the channel accepts too; ascending ids keep the queue sorted |
| `Fake.FakeChannel.Claim` | fake/fake.go:482-513 | Delivers the head under a fresh claim, a delivery the channel can make too; on an id-ordered queue it is the one the channel would make iff no waiting message became available before it |
| `Fake.FakeChannel.Ack` | fake/fake.go:324-337 | Succeeds iff the channel's claim is held; leaves as an ack and a purge leave the channel |
| `Fake.FakeChannel.Nack` | fake/fake.go:365-396 | Retries or dead-letters on the channel's guard, with the channel's counts, keeping the queue sorted |
| `Fake.StaleInBoth` | fake/fake.go:331-334 | A claim is held in the fake iff it is held in the channel |
| `Fake.InsertSortedById` | fake/fake.go:402-410 | The entry goes before the first greater id, the rest keeps its order, and an ordered queue stays ordered |
| `Fake.BytesLess` | fake/fake.go:414-421 | The loop decides byte order |
| `Fake.OrderCanDiffer` | fake/fake.go:389-393 | A run with ascending publishes after which the fake and the channel would deliver different messages first |
| `Fake.NextAgreesIff` | fake/fake.go:482-489 | In matching states with an id-ordered queue the next deliveries agree iff no waiting message became available before the head |
| `Fake.RunAgreesIff` | fake/fake.go:389-410 | The same after every run with ascending publishes, nacks included |
| `Fake.NoRetryAgrees` | fake/fake.go:211-280 | After every run with ascending publishes and no retried nack the next deliveries agree |
| `Fake.RunsMatch` | fake/fake.go:211-396 | Every run of publishes, claims, acks and nacks of the fake ends in a state that matches the channel's |

## Left out

- The topic consume loop, topic batches, topic ReplayFrom and the topic GC promotion and reset: the channel forms with a subscriber filter; their row actions are in `Topic`.
- SQL text, drivers, indexes, locks and SKIP LOCKED: a transaction is one atomic run of row actions on the rows it matches.
- Retry of batch transactions after a transient error, and the lock order inside one UPDATE.
- The loop over queue groups in AckBatch and NackBatch with its joined errors: each group is its own transaction.
- AckBatch: classifies the misses in the snapshot the batch itself leaves; commits of other transactions in between are covered by `BatchMissIsExplained`.
- NackBatch: the same.
- MoveAllToDlq: inserts and deletes row by row where the source uses one multi-row INSERT and one DELETE.
- A change of a topic's max_retries: a topic keeps one limit for life here, as it does unless its stored config is edited or the process default changes (publish.go:228-248).
- A lost server session that the listener has not noticed yet: the model drops the subscriptions when the run loop sees the error.
- Eventual delivery, in particular under a finite message TTL; no liveness is stated.
- Rows from older schemas (NULL max_retries, NULL DLQ subscriber and its fan-out to all active subscribers on replay).
- Configuration, option validation, backoff and jitter, metadata cache, migrations, statistics, logging, metrics and tracing.
- The handler worker pool: a handler loop is one tracked worker.
