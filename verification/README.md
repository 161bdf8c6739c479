# Verified models of the WhatsApp gateway's concurrent cores

This project models the parts of the gateway in which order, concurrency or bookkeeping is hard, and
proves what they promise. `dafny verify dfyconfig.toml` checks all of it.

## What is modelled

| modules | subject |
|---|---|
| `KeyedQueues`, `KeyedWorkers` | keyed FIFO workers: the lanes of the group commands and the chunk queues of the importer |
| `GroupOverflow`, `GroupLoop` | the numbered spill of group commands and the consumer's loop, as classes that update their fields |
| `GroupConsumer` | the whole consumer as a step relation: broker queue, deliveries, overflow, mover, lanes, settlements |
| `GroupPlaces`, `GroupConservation`, `GroupGuarantees` | where each delivery is, what is never lost, what never blocks |
| `GroupOrder`, `GroupDecisions`, `GroupDrain` | commands enter their lane in order of arrival; which ones enter and when a spill stalls; a spill drains |
| `GroupLedger`, `GroupCommands`, `GroupReplay`, `GroupOutcomes` | the ledger of group actions, the handler that replays commands over it, any run of deliveries, and what its reports stand for |
| `ImportRegistry`, `ImportProtocol`, `ImportWrites`, `ImportEvents` | the import row, the importer that checks, publishes and counts against it, and what the events of a run say of both |
| `Translation`, `TranslationExact`, `BuildPool`, `Batches`, `BatchesExact`, `BatchEncoding` | from a history chunk to batches: counting, the worker pool, the greedy splitter and the bytes of what it publishes |
| `PairingMachine`, `PairingGuarantees`, `PairingChoices`, `SessionManager` | pair and removal requests of a channel under any interleaving; the sections under the manager's mutex |
| `QrExpiry`, `PairingReplay` | the estimate of a QR code's emission; what a request that joins a pairing is shown |
| `PairingSlot` | the shared or exclusive slot that swaps the global device properties |
| `Cooldown` | one automatic reply per caller and window, with releases |
| `AnnexB` | the start-code scanner and access-unit splitter (Annex B of ITU-T H.264) |

Code that changes things in place is a class or a method with loops, proved against functions on values
(`View`, `Dispatch`, `TurnOn`, `Deliver`, `Allowed`, `Retain`, `Units`, `Translated`, ...). Protocols are
step relations: a state, events that are each one critical section or one exchange with the outside, and
runs as arbitrary sequences of enabled events. The environment (broker, database, clock, WhatsApp client,
shutdown) is free to answer in any way in every step, except where an assumption below says otherwise.

## How the environment is modelled

- Broker: the group queue is FIFO; deliveries come in queue order with growing tags and at most the prefetch
  unsettled. A publish is confirmed, refused (nothing was stored) or stored without a confirm.
- A delivery nacked back to the queue is not delivered again to the same consumer, which only nacks so when
  it ends.
- One round of the consumer's loop is one step, with one reading of the clock; the worker goroutines and the
  mover step in between rounds. The worker that a lane needs starts at any later time.
- Database: a statement runs and answers, runs and its answer is lost, or does not run.
- Group commands: deliveries of one command are handled one at a time (one channel has one lane). Different
  commands interleave freely, turn by turn. A process that dies inside a turn is a turn whose remaining
  statements did not run, or ran with their answers lost, and whose publication was not confirmed.
- Imports: one importer works on a channel at a time, and every import has an id that was not used before.
- Identities (clients, pairings, events, import ids) are compared and nothing else; a string is its bytes.
- Time is an integer; random jitter is any delay.

## Results worth knowing

- **Order of group commands** (`GroupOrder.ArrivalOrder`). The commands that entered a lane are exactly the
  first to arrive, and the rest are out as copies, one for each number in the window. Assumed: no publish is
  stored without a confirm and the stall guard does not fire; both give up order on purpose.
- **Which command enters its lane** (`GroupDecisions.EntersExactly`, `GroupDecisions.StallsExactly`), with no assumption
  on the broker: it enters exactly when fewer than the backlog are admitted and not started and it is the
  channel's turn, that is, no spill is out, the spill has stalled, or it is a copy all of whose predecessors in
  the spill have entered. A spill has stalled exactly when the mover has nothing left of it and it neither began
  nor had a copy enter within 30 seconds. Both are read off the run, not off the overflow's counters.
- **No command is lost** (`GroupGuarantees.NeverLost`). What was published is in the queue or with the consumer,
  and a second one of a command exists only as a copy the broker kept without a confirm, as the copy between
  its confirm and the original's ack (one command at a time), or beside an original whose ack for the copy was
  lost because the channel had already closed; the code ignores that the ack failed.
- **A spill drains** (`GroupDrain.SpillDrains`, `GroupDrain.NeverStuck`). The count `next - expected` alone does
  not fall while plain commands of the channel are still in the queue, since each takes a new number
  (`GroupDrain.PlainCommandWidens`); the measure counts all commands of the channel that are still to come.
  Consumer and mover have a step that lowers it, unless only the lanes can go on: the prefetch is used up by
  deliveries they have to settle, or the expected copy is next and its lane is full.
- **The total of an import** (`ImportProtocol.DoneTotal`, `ImportProtocol.TotalIsConfirmed`). It is off by exactly as
  much as the row's count was when it was last read. When no write gives up, the total is the number of
  confirmed batches plus the number of counts whose answer was lost, so it is right exactly when none was;
  `ImportProtocol.LostAnswerOvercounts` is such a run, with a total of 2 for one batch.
- **The skipped chats of an import** (`ImportEvents.DoneSkipped`). The end carries the number of different chats
  over all chunks, unless the writing of some chunk's chats was given up or cut short; then it is less.
- **Leaving a chunk** (`ImportEvents.ChunkIsCarriedThrough`). The importer leaves one only when cancelled, when the row
  is no longer this import's, or when every batch, and the end if it is due, was confirmed.
- **Reports of group actions** (`GroupOutcomes.ReportsAreEarned`). A success is published only after a try that
  succeeded, a failure only with an error that some turn on the group met.
- **Halts of a group action** (`GroupReplay.HaltLimit`). At most three unavailabilities outside a shutdown, plus
  one for each ledger write that came back as an error or never ran.
- **Logging a device out** (`PairingChoices.OnlyARelinkUnlinks`). A pair request takes a session away only if it is the
  linked device it found and it asked for the history and to link anew.
- **The byte limit of a batch** (`BatchEncoding.BatchesFit`, `BatchEncoding.EscapesExceed`). The accounted bytes leave 40
  to 44 for each chat, and what the ids leave of 501. As encoded, a batch keeps the limit as long as escaping the
  phones, identities and names adds no more than that; a chat whose name is n quotes, n above 42, can exceed it.
- **Cooldown keys** (`Cooldown.KeysTellApart`, `Cooldown.ChannelsCollideExactly`). A key joins channel and caller by a bar, so channels are told
  apart as long as their ids contain none. The law of the window needs a clock that does not go back in lock
  order: `Cooldown.ClockMustNotGoBack` shows what happens otherwise.

## Model

| member | source | states |
|---|---|---|
| `KeyedQueues.Queues.Offer` | internal/amqp/group_lanes.go:92-106 | a job is accepted unless the queue is closed or its backlog full; then it is appended, and a worker is started exactly when the key had none |
| `KeyedQueues.Queues.Take` | internal/amqp/group_lanes.go:110-121 | the oldest job of the key, or the end of the worker with the empty entry deleted |
| `KeyedQueues.Queues.Close` | internal/history/importer.go:133-136 | nothing is accepted any more |
| `KeyedWorkers.EveryRunKeepsOrder` | internal/amqp/group_lanes.go:92-123 | a key is in the map exactly while one worker owns it; its jobs start and finish one at a time in acceptance order, none is lost when a worker ends, and none waits beyond the backlog |
| `KeyedWorkers.RunKeepsOrder` | internal/history/importer.go:79-116 | the same from any sound state on, with or without a backlog, and across closing |
| `KeyedWorkers.OthersNeverBlock` | internal/amqp/group_lanes.go:92-123 | whatever other keys do, a key accepts what it would have accepted and keeps its queue |
| `KeyedWorkers.RefusedExactly` | internal/amqp/group_lanes.go:92-106 | in every run an offer is refused exactly when the pool was closed or as many jobs of the key as the backlog are accepted and not started; otherwise it is accepted last and the key has a worker |
| `GroupOverflow.Overflow.constructor` | internal/amqp/group_overflow.go:115-129 | no channel is tracked and nothing waits for the mover |
| `GroupOverflow.Overflow.Admits` | internal/amqp/group_overflow.go:145-156 | an untracked channel is let in, a stalled one forgotten, and a tracked one only with its expected copy or an older one |
| `GroupOverflow.Overflow.Admitted` | internal/amqp/group_overflow.go:158-172 | a copy in the lane counts as progress, and the expected one moves the window on or ends the spill |
| `GroupOverflow.Overflow.Send` | internal/amqp/group_overflow.go:174-188 | a new command takes the next number, a copy keeps its own, and the item waits for the mover and counts as unpublished |
| `GroupOverflow.Overflow.Take` | internal/amqp/group_overflow.go:196-199 | the mover takes the oldest item |
| `GroupOverflow.Overflow.Finish` | internal/amqp/group_overflow.go:198-201 | a settled item no longer counts as unpublished |
| `GroupOverflow.Backoff` | internal/amqp/group_overflow.go:235-254 | a retry waits at least the first delay and never more than the longest |
| `GroupOverflow.BackoffDoubles` | internal/amqp/group_overflow.go:235-254 | the wait before retry n is 200 ms times two to the n, and 5 s from where that is more |
| `GroupOverflow.MoveToTail` | internal/amqp/group_overflow.go:224-256 | the original is acked only at an attempt whose copy was confirmed; any other answer but a closed channel is retried, and it is handed back only if no attempt that was reached was confirmed; the waits double up to their limit |
| `GroupLoop.Consumer.Take` | internal/amqp/group_lanes.go:37-58 | one round over the real maps and counters does what `Dispatch` says, in lanes and overflow alike |
| `GroupConsumer.SortIsInTagOrder` | internal/amqp/group_lanes.go:65-75 | the requeue list is sorted by tag |
| `GroupConsumer.SortByTag` | internal/amqp/group_lanes.go:65-75 | sorting keeps exactly the deliveries of the list |
| `GroupPlaces.StepKeepsPlaces` | internal/amqp/group_lanes.go:37-79 | every step moves a delivery from one place to one other, or settles it |
| `GroupConservation.StepConserves` | internal/amqp/group_overflow.go:224-256 | every step keeps the balance between what was published and what is queued or still stands for it |
| `GroupGuarantees.StepCounted` | internal/amqp/group_overflow.go:186-201 | a spill's counter of unpublished copies is the number of its items with the mover, after every step |
| `GroupGuarantees.InExactlyOnePlace` | internal/amqp/group_lanes.go:37-79 | each delivery taken is in the inbox, a lane, a handler, the overflow or with the mover, in the requeue list, or settled: in exactly one of them |
| `GroupGuarantees.NeverLost` | internal/amqp/group_overflow.go:224-256 | published commands, copies kept without a confirm, the one copy whose original is still to be acked and originals whose ack was lost on a closed channel are together exactly what is queued or stands with the consumer; while the channel is open no ack is lost |
| `GroupGuarantees.SendNeverBlocks` | internal/amqp/group_overflow.go:123-123 | whenever a delivery is taken the overflow queue, as long as the prefetch, has room |
| `GroupGuarantees.StallForgetsNothingUnpublished` | internal/amqp/group_overflow.go:150-152 | the guard forgets a channel only when the mover has nothing left of its spill |
| `GroupGuarantees.GuardForgetsNothingUnpublished` | internal/amqp/group_overflow.go:150-152 | the same in every reachable state of the consumer |
| `GroupGuarantees.ReturnedMeansSettledOnce` | internal/amqp/group_lanes.go:59-63 | when the consumer returns every delivery was acked or nacked exactly once |
| `GroupGuarantees.HandsBackInTagOrder` | internal/amqp/group_lanes.go:61-79 | the requeue list goes back complete and in increasing tag order |
| `GroupOrder.StepKeepsOrder` | internal/amqp/group_overflow.go:145-188 | every orderly step keeps: arrivals are the admitted commands and then the outstanding copies by number, one per number in the window, none without a spill |
| `GroupOrder.StepKeepsLane` | internal/amqp/group_lanes.go:92-123 | a lane starts its commands in the order in which they entered it |
| `GroupOrder.RunKeepsOrder` | internal/amqp/group_lanes.go:37-58 | both hold over whole runs |
| `GroupOrder.ArrivalOrder` | internal/amqp/group_lanes.go:37-58 | in every orderly run a channel's commands enter and start in exactly the order of their first arrival |
| `GroupDecisions.EntersExactly` | internal/amqp/group_overflow.go:145-188 | in every run a command enters its lane exactly when fewer than the backlog are admitted and not started and no spill is out, the spill has stalled, or it is a copy whose predecessors have all entered; otherwise it waits under its own number, the next one, or 1 |
| `GroupDecisions.StallsExactly` | internal/amqp/group_overflow.go:145-164 | in every run a spill counts as stalled exactly when the mover has nothing left of it and more than 30 s passed since it began or a copy of it last entered |
| `GroupDecisions.GarbageIsDeadLettered` | internal/amqp/group_lanes.go:37-42 | a delivery that cannot be decoded is settled as a dead letter and never reaches a lane, the overflow or the mover |
| `GroupDecisions.HeardExactlyWhileOpen` | internal/amqp/group_overflow.go:241-245 | the broker hears the ack of a copied original exactly when the channel did not break before |
| `GroupDecisions.RecordsAreTheEvents` | internal/amqp/group_lanes.go:37-58 | what the results call published, kept without a confirm and first to arrive is what the events of the run say |
| `GroupDrain.StepRank` | internal/amqp/group_lanes.go:53-57 | with no new commands and room in the lane, each step of consumer or mover brings the spill's rank down |
| `GroupDrain.SpillDrains` | internal/amqp/group_overflow.go:145-202 | any interleaving drains a channel's spill within its rank |
| `GroupDrain.NeverStuck` | internal/amqp/group_lanes.go:53-57 | while a channel is tracked some step of consumer or mover lowers its rank, unless the prefetch is used up by deliveries only the lanes can settle or the expected copy is next and its lane is full |
| `GroupDrain.PlainCommandWidens` | internal/amqp/group_overflow.go:182-185 | a new command of a tracked channel makes its window one wider when it comes up, though the spill drains |
| `GroupLedger.Store.BeginAction` | internal/dedupe/store.go:118-135 | the row is opened or left as it is; it is finished if it was sent, or failed with a reason |
| `GroupLedger.Store.MarkActionDone` | internal/dedupe/store.go:137-139 | an existing row becomes sent with what was removed |
| `GroupLedger.Store.MarkActionFailed` | internal/dedupe/store.go:141-146 | an existing row becomes failed with its reason; an empty reason is refused |
| `GroupLedger.Store.RecordActionHalt` | internal/dedupe/store.go:148-161 | one more halt is counted and answered; without a row it is an error |
| `GroupLedger.Store.FinishAction` | internal/dedupe/store.go:163-175 | status, removed and failure are replaced, halts kept |
| `GroupCommands.Error.Text` | internal/amqp/rpc.go:33-35 | a classified error never has an empty text |
| `GroupCommands.Gateway.GroupHandler` | internal/gateway/groups.go:292-323 | a delivery changes the ledger, publishes and ends as `Deliver` says, group by group |
| `GroupCommands.Gateway.HandleGroup` | internal/gateway/groups.go:299-321 | one group: shutdown check, ledger, action or republication |
| `GroupCommands.Gateway.ApplyGroupAction` | internal/gateway/groups.go:341-379 | what trying the action does to the row and what it leaves to publish |
| `GroupCommands.Gateway.HaltOrGiveUp` | internal/gateway/groups.go:381-390 | below the limit the command halts for a replay, at the limit the group is given up |
| `GroupCommands.Gateway.Fail` | internal/gateway/groups.go:342-350 | the failure is kept in the ledger and reported; a lost write does not stop the command |
| `GroupReplay.DeliveriesArePlay` | internal/gateway/groups.go:292-323 | any sequence of deliveries, with restarts between them, is a run of turns |
| `GroupReplay.FinishedStays` | internal/gateway/groups.go:303-311 | a finished row never changes, its action is never tried, and only its one report is published |
| `GroupReplay.FinishingTurnAgrees` | internal/gateway/groups.go:341-379 | a turn that leaves a finished row publishes nothing but what the row will say from then on |
| `GroupReplay.FinishedOnce` | internal/gateway/groups.go:299-321 | once done or failed, a group is never applied again and every later delivery republishes the same ok, error and removed |
| `GroupReplay.OutcomeIsReported` | internal/gateway/groups.go:363-378 | what is published after a try is what it came to, and the command goes past a group only with its row finished unless the write never ran |
| `GroupReplay.HaltLimit` | internal/gateway/groups.go:381-390 | at most three unavailabilities outside a shutdown, plus one per write that came back as an error or never ran; at that number the row is finished |
| `GroupReplay.LastHaltGivesUp` | internal/gateway/groups.go:386-389 | with writes that succeed, the third one finishes the row as failed with its text, which the same turn publishes |
| `GroupReplay.ShutdownIsNoFailure` | internal/gateway/groups.go:294-321 | a setup that the shutdown overtook leaves no trace; an unavailability met in a shutdown leaves the group's row only opened, publishes nothing for it and requeues the command; nothing follows it in the delivery |
| `GroupReplay.AckedMeansAnswered` | internal/gateway/groups.go:299-322 | a delivery answers its groups in order and is acknowledged exactly when it answered all |
| `GroupOutcomes.ReportsAreEarned` | internal/gateway/groups.go:341-379 | in every run a success is published only after a try of the group that succeeded, with what it removed, and a failure only with the text of an error that some turn on the group met |
| `GroupOutcomes.ReachedGroupFails` | internal/gateway/groups.go:351-357 | when a delivery comes to a group that is not finished, an error of the setup, or else of the group's name, is its answer without a try; the row keeps it unless the write never ran, and the next group follows once the answer is confirmed |
| `GroupOutcomes.FailedSetupFailsEveryGroup` | internal/gateway/groups.go:105-124 | the first error that the setup meets is the answer for every group of the delivery that was not finished, and nothing is tried |
| `GroupOutcomes.FirstHaltsAreReplayed` | internal/gateway/groups.go:381-388 | the first two unavailabilities of a group publish nothing, leave it open and send the command to a later replay |
| `GroupOutcomes.RequeuedExactlyInShutdown` | internal/gateway/groups.go:292-302 | a command is requeued exactly when its handler sees the shutdown: at the start, before a group, in the pacing before a try, or behind an unavailability |
| `ImportRegistry.Registry.BeginHistoryImport` | internal/registry/history.go:26-36 | the channel's row is replaced by a fresh one, no other row changes |
| `ImportRegistry.Registry.ActiveHistoryImport` | internal/registry/history.go:38-52 | the row if it is live, nothing if not, and no answer on an error |
| `ImportRegistry.Registry.CountHistoryBatch` | internal/registry/history.go:54-68 | only the live row of this import counts one more batch, and its total is answered |
| `ImportRegistry.Registry.SkipHistoryChats` | internal/registry/history.go:70-84 | the skipped chats of the live row grow as a set |
| `ImportRegistry.Registry.FinishHistoryImport` | internal/registry/history.go:86-95 | an unfinished row of this import is finished; anything else is left alone without an error |
| `ImportRegistry.Registry.ClearHistoryImport` | internal/registry/history.go:97-105 | the row goes away |
| `ImportWrites.CountBatch` | internal/history/importer.go:279-313 | the loop of at most five writes does the counting steps of the protocol and answers its total |
| `ImportProtocol.StepKeeps` | internal/history/importer.go:190-341 | every step keeps the accounts of the row, of the run over a chunk and of the end messages |
| `ImportProtocol.RowCountsBatches` | internal/registry/history.go:54-68 | the row's count is the confirmed batches plus those taken twice less those missed or refused |
| `ImportProtocol.DoneTotal` | internal/history/importer.go:203-258 | an end is sent only after every batch of the final chunk was confirmed, and its total differs from the confirmed batches by exactly as much as the row's count did when it was last read |
| `ImportProtocol.TotalIsConfirmed` | internal/history/importer.go:203-261 | when no write gives up, the total is the confirmed batches over all chunks plus the counts whose answer was lost: it is right if and only if none was; the end is confirmed once at most |
| `ImportProtocol.DoneOnce` | internal/history/importer.go:247-261 | an end is confirmed once, and once more at most per bookkeeping that was given up |
| `ImportProtocol.LostAnswerOvercounts` | internal/history/importer.go:279-289 | a run in which no write gives up and yet the total is 2 for one batch |
| `ImportProtocol.ReplacedStep` | internal/history/importer.go:220-225 | after a replacement no step adds to the attempts and the one past its check together |
| `ImportProtocol.ReplacedImportStops` | internal/history/importer.go:315-341 | a replaced or cleared import sees one further publish attempt at most, and only one that was past its check |
| `ImportEvents.RowKeepsEveryWrite` | internal/registry/history.go:54-84 | the chats in the row are the union of those of all writes that ran while the row took them, and its batches are the counts that did |
| `ImportEvents.DoneSkipped` | internal/history/importer.go:264-277 | the end carries the number of different chats that reached the row, unless the last chunk's write was given up; that is all chats of all chunks if none was given up or cut short, and never more |
| `ImportEvents.QuietAfterTheEnd` | internal/registry/history.go:14-16 | in every run the row is found and takes writes until it was quiet for thirty minutes after the import ended |
| `ImportEvents.ChunkIsTakenUp` | internal/history/importer.go:170-193 | a chunk is taken up exactly when the row is found and there is something to publish or to record |
| `ImportEvents.KeepsTrying` | internal/history/importer.go:326-341 | a check that finds the row leads to the publication, and a failed check or publication to another check |
| `ImportEvents.ChunkIsCarriedThrough` | internal/history/importer.go:190-262 | a chunk is left only on cancellation, when the row is not this import's any more, or when all its batches and, if due, the end were confirmed |
| `ImportEvents.TotalCountsBatches` | internal/history/importer.go:203-261 | counted over the events of the run: with no write given up the total is the confirmed batches plus the lost answers, and one end at most is confirmed |
| `ImportEvents.ReplacedImportPublishesOnce` | internal/history/importer.go:315-341 | counted over the events: a replaced import attempts one further publication at most, and only if it was past its check |
| `ImportEvents.FiveAttempts` | internal/history/importer.go:291-313 | no write of the row is tried more than five times |
| `Translation.Translate` | internal/history/translate.go:51-112 | the three passes with their buckets compute the translation conversation by conversation |
| `Translation.Scan` | internal/history/translate.go:60-86 | headers, candidates and counters of the first pass |
| `Translation.Fill` | internal/history/translate.go:91-98 | each built message goes into the bucket of its chat, failures are counted |
| `Translation.WithMessages` | internal/history/translate.go:153-167 | a chat's messages in order and its first known profile name |
| `Translation.ProfileNameIsFirst` | internal/history/translate.go:156-159 | a chat's profile name is the first one known, and none only if no message has one |
| `Translation.FilledIsTable` | internal/history/translate.go:91-98 | filling the buckets by index gives every conversation its own messages back |
| `Translation.ChunkIsConserved` | internal/history/translate.go:51-112 | every message of a chunk is batched, oversized, out of the window, skipped or in a chat without a phone, exactly once |
| `Translation.ChatKeepsOrder` | internal/history/translate.go:74-112 | a published chat has its conversation's header, and its messages are the encodings of those built of the conversation's usable messages, in their order |
| `TranslationExact.UsableExactly` | internal/history/translate.go:74-86 | the candidates of a conversation are exactly its messages that are parsed, not empty, no edit and not too old, in order |
| `TranslationExact.HeadersExactly` | internal/history/translate.go:60-73 | the chats are exactly the private conversations with a phone, in order, with phone and identity |
| `TranslationExact.WithoutPhoneExactly` | internal/history/translate.go:68-71 | the chats reported as without a phone are exactly the private ones that have none |
| `TranslationExact.OutOfWindowExactly` | internal/history/translate.go:79-80 | what counts as out of the window is exactly the readable messages of chats that are too old |
| `TranslationExact.SkippedIsTheRest` | internal/history/translate.go:60-98 | everything else is counted as skipped, with the candidates that could not be built |
| `TranslationExact.FailsExactly` | internal/history/translate.go:100-107 | a chunk is given up exactly when a message that was built cannot be encoded |
| `BuildPool.EveryResultAtItsIndex` | internal/history/translate.go:114-133 | for every schedule each candidate is built once and its result stands at its index |
| `BuildPool.NeverStuck` | internal/history/translate.go:118-131 | until all is built some worker or the feeder can go on |
| `BuildPool.AtMostConcurrency` | internal/history/translate.go:114-124 | as many workers as the concurrency allows, or as there are candidates if these are fewer |
| `Batches.SplitMessage` | internal/history/batches.go:23-42 | one message on the variables of the loops |
| `Batches.SplitChat` | internal/history/batches.go:19-44 | the messages of one chat |
| `Batches.Split` | internal/history/batches.go:14-49 | the nested loops compute the greedy cut of the messages that fit, and report the others in order |
| `Batches.SplitIsFaithful` | internal/history/batches.go:14-49 | batches hold the fitting messages in order under their own headers, keep both limits, and have no empty or repeated chat |
| `Batches.KeptAndTooLarge` | internal/history/batches.go:23-26 | every message is batched or reported |
| `Batches.GreedyStaysAhead` | internal/history/batches.go:31-35 | on every prefix the greedy cut has no more batches than another one and no longer last batch |
| `Batches.SplitIsOptimal` | internal/history/batches.go:14-49 | no cut of the kept messages within the same limits uses fewer batches |
| `BatchesExact.KeptExactly` | internal/history/batches.go:23-26 | what is batched is exactly the messages for which a batch of their own keeps the byte limit, in order |
| `BatchesExact.TooLargeExactly` | internal/history/batches.go:23-26 | what is reported is exactly the other messages, in order, by their ids |
| `BatchesExact.LooksAtEveryMessage` | internal/history/batches.go:19-23 | the splitter looks at all messages of the chunk in order, each under the bytes of its own chat's header |
| `BatchEncoding.EncodedLength` | internal/history/batches.go:9-12 | the exact length of a batch as JSON, against the accounted bytes |
| `BatchEncoding.BatchesFit` | internal/history/batches_test.go:63-96 | every batch as JSON keeps the byte limit when its ids take no more than 501 bytes and escaping adds no more than 40 bytes per chat |
| `BatchEncoding.HeadFits` | internal/amqp/contracts.go:140-151 | with ids of 90 bytes at most the text before the chats takes no more than 501 bytes |
| `BatchEncoding.EscapesExceed` | internal/history/batches.go:59-68 | a chat named by n quotes, n above 42, whose only message just fits by the accounted bytes exceeds the limit by n less 42 bytes as JSON; it is published (`BatchEncoding.AloneIsPublished`) |
| `SessionManager.Manager.CountHolder` | internal/session/manager.go:283-291 | the channel's lock is found or made and counts one more holder; this is the section of `PairingMachine` of that name |
| `SessionManager.Manager.UncountHolder` | internal/session/manager.go:296-301 | the entry goes away with its last holder; this is the section of `PairingMachine` of that name |
| `SessionManager.Manager.BeginPairing` | internal/session/manager.go:305-325 | a request joins the live pairing, halts it if it wants another choice, or registers its own; this is `PairingMachine.Begin` |
| `SessionManager.Manager.Unregister` | internal/session/manager.go:327-332 | only this pairing's own registration is taken away; this is the section of `PairingMachine` of that name |
| `SessionManager.Manager.Drop` | internal/session/manager.go:582-588 | the session goes away only if it is still this client; this is `PairingMachine.Dropped` |
| `SessionManager.Manager.RetainQR` | internal/session/manager.go:339-360 | only the live pairing retains a code, with the estimate of its emission, and it is shown if still valid |
| `SessionManager.Manager.RetainCode` | internal/session/manager.go:369-378 | only the live pairing keeps a pairing code, and no empty one |
| `SessionManager.Manager.ClearQR` | internal/session/manager.go:400-408 | only the live pairing forgets what it retained |
| `PairingGuarantees.SectionsNeverOverlap` | internal/session/manager.go:283-303 | two pairing or removal sections of a channel never overlap |
| `PairingGuarantees.EntryWhileHeld` | internal/session/manager.go:283-303 | the lock's entry exists exactly while it has holders, and counts them |
| `PairingGuarantees.OneLoop` | internal/session/manager.go:159-253 | one registered pairing and one running QR loop per channel, and the registered pairing has one owner still to end it |
| `PairingGuarantees.OnlyOwnerUnregisters` | internal/session/manager.go:327-332 | only the request that began a pairing unregisters it |
| `PairingGuarantees.SupersededIsGone` | internal/session/manager.go:159-199 | once done is closed the pairing is unregistered, its slot released and its client dropped unless it was linked by then |
| `PairingGuarantees.SupersederFindsItGone` | internal/session/manager.go:160-166 | whenever a superseder starts over, in any run, the pairing it waited for is unregistered, its slot given back and its client dropped unless linked by then |
| `PairingGuarantees.WaitingEnds` | internal/session/manager.go:174-199 | the owner of a registered pairing alone can end it in six steps, whatever locks and slots others hold, so no superseder waits in vain |
| `PairingGuarantees.StepsAreDefined` | internal/session/manager.go:283-332 | what a request refers to always exists |
| `PairingChoices.OnlyARelinkUnlinks` | internal/session/manager.go:256-281 | in every run a pair request takes a session away only if it is the linked device it found and asked to link anew, brings in a client only if there was none or after that logout, and touches no pairing and no other client |
| `PairingChoices.LeavesAsItFound` | internal/session/manager.go:147-157 | in every run a pair request goes on to pair exactly a client it found not linked, or a new one after the logout it asked for |
| `PairingChoices.JoinsItsOwnChoiceOnly` | internal/session/manager.go:305-325 | in every run a request joins the live pairing exactly when the one that began it asked for the same history and phone, and halts it otherwise |
| `PairingChoices.LoopHasTheSlot` | internal/session/manager.go:182-204 | in every run a pairing connects and loops only with the slot and announces its end only without |
| `PairingChoices.EndedIsDropped` | internal/session/manager.go:327-337 | once the end of a pairing was announced its client is not the channel's session, unless it was linked when the owner looked at the end |
| `QrExpiry.ErrorNeverGrows` | internal/session/manager.go:352-358 | the estimate never precedes the emission and its error never grows over any number of rotations |
| `QrExpiry.ValidCodesAreShown` | internal/session/manager.go:67-72 | a valid code is always shown; an expired one no longer than the first was read late |
| `QrExpiry.ShownExactlyWhileValid` | internal/session/manager.go:339-360 | with the first code read on time, every code is shown and replayed exactly while it is valid |
| `PairingReplay.JoinerSeesLastCode` | internal/session/manager.go:78-81 | a request that joins a pairing by code is shown the last code kept since everything was last forgotten, and nothing without one |
| `PairingReplay.JoinerSeesValidCode` | internal/session/manager.go:78-84 | one that joins by QR code is shown the last code while it is valid, and longer only by as much as the first was read late |
| `PairingSlot.Slot.Acquire` | internal/deviceprops/slot.go:23-39 | the weight is taken, the properties saved and, for a history, swapped |
| `PairingSlot.Slot.GiveBack` | internal/deviceprops/slot.go:41-48 | weight and properties go back once; a second release changes nothing |
| `PairingSlot.HistoryIsAlone` | internal/deviceprops/slot.go:24-30 | a history holder shares the slot with nobody |
| `PairingSlot.PropsFitTheHolder` | internal/deviceprops/slot.go:36-45 | the global properties are the base value whenever a holder without history exists or nobody holds the slot, and the swapped ones while a history pairing works with them |
| `PairingSlot.WeightIsConserved` | internal/deviceprops/slot.go:40-48 | the free weight is the capacity less what is held, over any number of releases |
| `PairingSlot.GrantedExactly` | internal/deviceprops/slot.go:15-36 | a history pairing is granted the slot exactly when nobody holds it, another one exactly when no history pairing does and there is room |
| `Cooldown.CooldownKeys` | internal/call/autoreply.go:49-57 | one key for each caller identity that is not empty |
| `Cooldown.KeysTellApart` | internal/call/autoreply.go:49-57 | keys are equal exactly for the same channel and caller, for channels without a bar |
| `Cooldown.ChannelsCollideExactly` | internal/call/autoreply.go:49-57 | two channels can share a key exactly when one of them begins with the other and a bar |
| `Cooldown.KeysAreTheCallers` | internal/call/autoreply.go:49-57 | there is a key for every identity of the caller that is not empty, and no other |
| `Cooldown.Cooldown.Allow` | internal/call/autoreply.go:59-84 | purge, refusal or reservation on the map in place |
| `Cooldown.Cooldown.Release` | internal/call/autoreply.go:86-94 | exactly the entries with the reservation's token go away |
| `Cooldown.AnswersAreReference` | internal/call/autoreply.go:59-84 | a request is granted exactly when it has a key and no unreleased grant of the last window shares one: purging and tokens never change an answer |
| `Cooldown.AnsweredExactly` | internal/call/autoreply.go:59-94 | in every run of calls, on channels without a bar: a call is answered exactly when an identity of the caller is known and under none of them a call on the channel was answered within the window and not given back |
| `Cooldown.GrantsKeepApart` | internal/call/autoreply.go:69-83 | two grants that share a key are a window apart unless the earlier was released first |
| `Cooldown.ReleaseSparesOthers` | internal/call/autoreply.go:86-94 | a release never removes a key held by a newer grant |
| `Cooldown.ClockMustNotGoBack` | internal/call/autoreply.go:64-73 | a clock that goes back lets a purge grant what would have been refused |
| `AnnexB.NalStarts` | internal/call/annexb.go:72-93 | the scanner finds the starts of all codes, in order |
| `AnnexB.StartsAreTheCodes` | internal/call/annexb.go:72-93 | exactly one start for each 00 00 01 that a byte follows, one position earlier if a zero precedes it |
| `AnnexB.SplitAnnexB` | internal/call/annexb.go:24-56 | the loop cuts the stream into the units of its starts |
| `AnnexB.SplitLaw` | internal/call/annexb.go:24-65 | the units concatenate to the stream from its first start; each holds one slice at most with nothing that opens a unit after it, and splits into itself; each cut stands between a slice and a type that must not follow it |
| `AnnexB.SplitLawOnBytes` | internal/call/annexb.go:12-65 | the law on bytes: each unit begins with a start code, no header of types 1 and 5 to 9 follows one of types 1 and 5 in it, and each cut stands between such two |

## Left out

- GroupOrder.ArrivalOrder: assumes that no publish is stored without a confirm and that the 30-second stall guard does not fire, because both relax the order by design.
- GroupDrain.SpillDrains: assumes that no new command of any kind is published and that the lane has room when the expected copy reaches the head.
- GroupReplay.HaltLimit: counts the turns of one command one after the other; two handlers at work on the same command at once are not modelled.
- ImportProtocol.ReplacedImportStops: assumes that an import id is not used again after it was replaced.
- QrExpiry.ShownExactlyWhileValid: says nothing of an empty code or one without a lifetime, which forgets the estimate; `SessionManager.Manager.RetainQR` models that branch.
- PairingGuarantees.OneLoop: `DisconnectAll` and the process shutdown, which empty the maps wholesale, are not events of the machine.
- PairingSlot.Slot.Acquire: one call that is granted or gives up at once; how requests wait for the semaphore is in the step relation of the same module, without the bound on the wait and without its order among those that wait.
- GroupGuarantees.NeverLost: on a closed channel the model lets every settlement but that of a copied original be heard; a handled delivery whose ack was lost too is delivered again to another consumer.
- The QR loop's handling of each event is left to `QrExpiry` and `SessionManager`; in the machine the loop only runs and ends.
- The pacing between group actions, the muting of events around a logout and the limit on chunks of different channels at work at once.
- AMQP, Postgres, S3, HTTP and websocket plumbing: only the queue, the ledger row and the import row remain, with their outcomes.
- The WhatsApp client: login state, apply outcomes, QR events and parsed messages are answers of the environment.
- BatchEncoding.BatchesFit: bytes from 128 on are written as they are; the escapes of broken UTF-8 and of two line separators are left out, and messages are taken as the compact JSON they are.
- The id in a message's JSON (it is a parameter), logging, configuration, message mapping, photo decoding and scaling.
- Real timers, random jitter, audio and call streams, the frame pacing of `PlayAnnexB`.
- Ownership of shards, channel settings, avatar and group-name caches, call event forwarding: easy beside these cores.
- The 64-bit wrap-around of spill numbers and reservation tokens, which takes longer than any process lives.
