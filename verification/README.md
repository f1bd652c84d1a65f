# Run ownership, rollback and replay of a PostgreSQL graph runtime

Workers, API processes and a reaper share the PostgreSQL rows of one graph runtime. This project models how they do it and
proves what their users rely on:

- the lease protocol of runs, with its fencing token of run, owner and retry count;
- rollback of runs to captured baselines, immediate, deferred, and newest first across many runs;
- the queue of each thread and what reordering it means;
- the durable event log, its retention, and its replay into live streams;
- the pruning of checkpoints;
- the worker's event buffer, and the fan-out of messages inside one process.

## How it is built

`Tables` holds all rows as one value, with a few history variables that nothing reads back. `RunStore`, `EventLog`,
`CheckpointMutations` and `CoreApi` say what each transaction does to that value, and `Protocol` makes each of them one atomic
step of a state machine whose histories are arbitrary sequences of steps. `StepCases`, `Moves` and `Kinds` sort the steps into
nine kinds, and `Invariants`, `LogInvariants`, `LogSteps` and `TerminalEvents` prove one invariant over all of them. The
theorems about whole histories stand in `Reachable`, `RunSteps`, `Fencing`, `ExclusiveExecution`, `RollbackFreeze`,
`LifoRollback`, `SequentialRuns`, `QueueOrder`, `Submissions`, `LogEvolution`, `RunScopes` and `ReplayPages`; `Histories` states
the main ones from the empty database on. What each operation answers is stated in terms of the rows alone, in both directions:
`QueueHeads` says which run a claim serves, `LeaseTime` how long a lease lasts and when the write fence lets a write through,
`Outcomes` what the owner, the reaper and a cancellation make of a run, `RetryWaits` how long a retry waits, `DeferredRollbacks`
when a deferred rollback is carried out, `Ancestry` which checkpoints survive pruning, `Retention` which events go, and
`Acceptance` when the API's requests are refused. `Delivery` puts commits and fan-outs on one time line; `Splices` and `RunStreams` place the
reads and the registration of the two kinds of event stream on it, `StreamHistories` says from the empty database on what the
streams emit and exactly when they lose something, and `LostEvents` and `LossExamples` give the losing histories.

The objects of the program are classes: `Database` with one field a table, `RunRepository`, `CheckpointStore` and `Endpoints`
on top of it, and `StreamEventBuffer`, `SeenSet`, `IdSource` and `StreamManager`. Each of their methods is proved to change
its fields as the specification functions say, loops included, so the theorems about histories speak about the methods.

## Assumptions

- A locked read sees the current row, so a transaction is one atomic step; `SKIP LOCKED` lets a claim pick any eligible run.
- Run identifiers are fresh, and every worker process has its own owner string.
- Baseline captures are ordered by a strictly increasing clock; time never goes back and is the same for all processes.
- A commit either happened or did not: a failed commit changes nothing.
- A message is fanned out after its event was committed, in any order, and none is lost (`Delivery.Causal`, `Splices.Timely`,
  `RunStreams.Delivered`); only the statements about event streams need this.
- Events of a running graph never carry a top-level terminal status, so only status changes record terminal events.

## Model

| member | source | states |
|---|---|---|
| `RunState.FinalStatusAbsorbs` | libs/langgraph-runtime-pg/src/langgraph_runtime_pg/run_state.py:29-56 | success, error and timeout absorb: along every path of accepted transitions the status never changes again |
| `RunState.OnlyRunningCompletes` | libs/langgraph-runtime-pg/src/langgraph_runtime_pg/run_state.py:29-56 | no path from a waiting run reaches success or timeout without passing through running |
| `Invariants.CoreStep` | libs/langgraph-runtime-pg/src/langgraph_runtime_pg/run_store.py:144-510 | every transaction keeps the ownership invariant: run and lease rows agree, one active run a thread, distinct queue positions, distinct captures, unique claim epochs, accepted writes in claim order |
| `Reachable.ReachedInv` | libs/langgraph-runtime-pg/src/langgraph_runtime_pg/run_store.py:144-844 | every database that any history reaches satisfies the ownership, event log and terminal event invariants |
| `Reachable.OwnershipAlways` | libs/langgraph-runtime-pg/src/langgraph_runtime_pg/run_store.py:258-334 | after every history: a lease row exists exactly when the run names an owner and agrees on owner, expiry and generation; waiting and finished runs have no owner, running ones have one; two runs of a thread are never both active |
| `Reachable.TransitionsAlwaysLegal` | libs/langgraph-runtime-pg/src/langgraph_runtime_pg/run_state.py:59-97 | after every history no transaction of a worker, the API or the reaper can ask for an illegal transition |
| `Reachable.NeverIllegal` | libs/langgraph-runtime-pg/src/langgraph_runtime_pg/run_store.py:382-509 | the same for any single state that satisfies the ownership invariant |
| `Fencing.WritesComeInClaimBlocks` | libs/langgraph-runtime-pg/src/langgraph_runtime_pg/checkpoint.py:41-57 | in every history the accepted worker writes of a thread form contiguous blocks, one per claim epoch (run, retry count), in claim order |
| `Histories.StaleWritesAreRejected` | libs/langgraph-runtime-pg/src/langgraph_runtime_pg/checkpoint.py:41-57 | a write under a superseded epoch, or one whose run was cancelled, requeued, finished or deleted, is rejected now and after any further history |
| `Histories.StoppingMakesStale` | libs/langgraph-runtime-pg/src/langgraph_runtime_pg/run_store.py:382-509 | whatever ends or requeues a running run makes its epoch stale at that step |
| `Histories.AcceptedWritesAreCurrent` | libs/langgraph-runtime-pg/src/langgraph_runtime_pg/checkpoint.py:41-57 | an accepted write carries the run's newest epoch, and all its older epochs are stale |
| `Histories.LeasesAreKept` | libs/langgraph-runtime-pg/src/langgraph_runtime_pg/run_store.py:312-337 | only the holder can end an unexpired lease: every other step leaves owner and generation in place, even an API cancel |
| `Histories.OneExecutionPerThread` | libs/langgraph-runtime-pg/src/langgraph_runtime_pg/run_store.py:161-172 | while a lease never lapses and its holder does not give it back, over any history the holder keeps run and generation and no other claim of the same thread is granted |
| `LeaseTime.HolderMayWrite` | libs/langgraph-runtime-pg/src/langgraph_runtime_pg/checkpoint.py:41-109 | in any database a worker's write is accepted if and only if its run is running under its owner and generation on this thread with an unexpired lease; then exactly this row, with its blobs, or these pending writes are stored, the row under the run's stamp, and nothing else changes |
| `LeaseTime.TimeLeftDecides` | libs/langgraph-runtime-pg/src/langgraph_runtime_pg/checkpoint.py:41-57 | from a granted claim on, in every history in which nobody stops the run, the seconds left, counted from the delays and renewals of the history alone, decide: with time left the holder's write is accepted and stored, without it refused, and the reaper takes the run exactly when the expiry has passed |
| `LeaseTime.LapsedEpochNeverWrites` | libs/langgraph-runtime-pg/src/langgraph_runtime_pg/checkpoint.py:41-57 | once the lease of an epoch has expired, or its run stopped, none of its writes is accepted after any further history: an expired lease cannot be extended |
| `LeaseTime.RenewedLeaseNeverLapses` | libs/langgraph-runtime-pg/src/langgraph_runtime_pg/run_store.py:312-337 | a holder that renews before the lease time since its claim, and since each renewal, is up keeps its run in every history in which nobody stops it: the lease never lapses, the run executes under the same generation, the reaper does nothing and no other claim of the thread is granted |
| `Histories.AcceptedRollbackFreezes` | libs/langhost/src/langhost/core_api.py:1439-1450 | from the moment a rollback of a leased run is accepted until the run is deleted no history changes the thread's checkpoints, writes or baselines, and the deferred rollback never meets a conflict |
| `RollbackFreeze.DeferredRollbackRestores` | libs/langgraph-runtime-pg/src/langgraph_runtime_pg/checkpoint_mutations.py:163-195 | from the moment a rollback of a leased run is accepted, whatever happens until its worker acknowledges, its lease has expired or it has no owner: then run, lease and baseline go, and the thread gets exactly the baseline that stood at the acceptance, with its event cursor untouched |
| `Histories.RollbackBringsBack` | libs/langgraph-runtime-pg/src/langgraph_runtime_pg/checkpoint_mutations.py:101-160 | if no other run was started on the thread since a run's first claim, then after any failures, requeues, reaps, re-claims and writes its rollback is accepted and restores checkpoints, writes and projection of that moment |
| `Histories.DeferredRollbackBringsBack` | libs/langgraph-runtime-pg/src/langgraph_runtime_pg/checkpoint_mutations.py:163-195 | the same when the rollback had to wait: retries before its acceptance, anything after it, and once the worker stopped the thread has the checkpoints, writes and projection of the moment before the run's first claim |
| `DeferredRollbacks.ExpiredRollbackCompletes` | libs/langgraph-runtime-pg/src/langgraph_runtime_pg/checkpoint_mutations.py:182-191 | after an accepted deferred rollback and any history, from the moment the lease expires whoever asks carries it out: run, lease and baseline go and the thread has the baseline of the acceptance |
| `DeferredRollbacks.AcknowledgedRollbackCompletes` | libs/langgraph-runtime-pg/src/langgraph_runtime_pg/checkpoint_mutations.py:182-191 | the worker that held the lease at the acceptance carries it out whenever it acknowledges, expired or not |
| `DeferredRollbacks.RollbackWaitsForItsWorker` | libs/langgraph-runtime-pg/src/langgraph_runtime_pg/checkpoint_mutations.py:182-191 | while the lease is unexpired an attempt by anybody else changes nothing |
| `DeferredRollbacks.UnownedRollbackCompletes` | libs/langgraph-runtime-pg/src/langgraph_runtime_pg/checkpoint_mutations.py:182-191 | a marked run without an owner is rolled back by whoever asks; no history produces one, since a marked run keeps its lease |
| `Acceptance.RollbackRefusedExactly` | libs/langgraph-runtime-pg/src/langgraph_runtime_pg/checkpoint_mutations.py:74-133 | after every history a rollback on a thread is refused if and only if another run executes or waits for its rollback, somebody else changed a checkpoint since the run's first claim, a later run was claimed, or the baseline was superseded; or the run was never claimed and is neither waiting nor interrupted |
| `Acceptance.RollbackLosesOnlyItsOwn` | libs/langgraph-runtime-pg/src/langgraph_runtime_pg/checkpoint_mutations.py:101-160 | an accepted rollback loses or changes no checkpoint but the run's own, and no run, event or table of others |
| `Acceptance.SupersededIsRefused` | libs/langgraph-runtime-pg/src/langgraph_runtime_pg/checkpoint_mutations.py:266-271 | after a pruning or an explicit state update no claimed run of the thread can be rolled back |
| `SequentialRuns.NewestFirstRestores` | libs/langhost/src/langhost/core_api.py:1668-1709 | one request over resting runs of any number of threads, and of none, in the order unclaimed first, then newest capture first, succeeds at every step and brings each thread back to the state before its oldest listed run |
| `Histories.NewestFirstBringsBack` | libs/langhost/src/langhost/core_api.py:1668-1709 | whatever runs were executed one after another on any number of threads, each thread since a point of its own, one such request undoes them all exactly; rolling back any run but the newest of its thread, which has the latest capture, is refused |
| `LifoRollback.StackStep` | libs/langgraph-runtime-pg/src/langgraph_runtime_pg/checkpoint_mutations.py:24-71 | retries, writes, cancellations, lease steps and everything on other threads keep the stack of runs that can be undone |
| `QueueOrder.OneCandidate` | libs/langgraph-runtime-pg/src/langgraph_runtime_pg/run_store.py:150-202 | at most one run of a thread is eligible, whichever worker asks |
| `QueueHeads.ClaimServesExactlyTheNext` | libs/langgraph-runtime-pg/src/langgraph_runtime_pg/run_store.py:144-310 | after every history a claim serves a run if and only if it is due, pending, and on a free thread the first resume, or without resumes and open interrupts the first message; it then runs under a fresh lease with one attempt more, or ends if its attempts are used up; any other claim changes nothing |
| `QueueHeads.ResumesGoFirst` | libs/langgraph-runtime-pg/src/langgraph_runtime_pg/run_store.py:150-202 | on a free thread the pending resume with the least position is served as soon as it is due, open interrupts or not, and no other run of the thread, whoever asks |
| `QueueHeads.MessagesGoInOrder` | libs/langgraph-runtime-pg/src/langgraph_runtime_pg/run_store.py:160-202 | without resumes and open interrupts the same holds for the message with the least position |
| `QueueHeads.InterruptsHoldMessages` | libs/langgraph-runtime-pg/src/langgraph_runtime_pg/run_store.py:219-220 | while a thread has open interrupts no claim of an ordinary message has an effect |
| `QueueOrder.ReorderRoundTrip` | libs/langhost/src/langhost/core_api.py:1602-1616 | after a successful reorder the queue reads exactly as requested |
| `QueueOrder.ReorderDecidesTurns` | libs/langhost/src/langhost/core_api.py:1582-1616 | after a successful reorder the listed runs get their next turns in the requested order, despite retries, back-off, resumed runs and later submissions, absent further edits and withdrawals |
| `Acceptance.ReorderAcceptedExactly` | libs/langhost/src/langhost/core_api.py:1582-1616 | after every history a permutation of the queue is accepted if and only if the client saw exactly the waiting messages by rising position, and then the queue is the requested one |
| `RunSteps.AttemptsAreBounded` | libs/langgraph-runtime-pg/src/langgraph_runtime_pg/run_store.py:281-285 | in every history a run is claimed at most three times and changes status at most seven times |
| `RunSteps.SpentNeverRuns` | libs/langgraph-runtime-pg/src/langgraph_runtime_pg/run_store.py:232-257 | a run that used up its attempts and is not executing never executes again |
| `RetryWaits.NobodyGivesUpEarly` | libs/langgraph-runtime-pg/src/langgraph_runtime_pg/run_store.py:405-470 | in no history a run has ended as an infrastructure failure before its attempts reached the lesser of its own limit and the one that every process grants |
| `RetryWaits.RetryWaitsOutItsDelay` | libs/langgraph-runtime-pg/src/langgraph_runtime_pg/run_store.py:60-62 | after an infrastructure failure with attempts left, in every history, no new attempt starts before min(base * 2^(n-1), 30) seconds have passed, and from then on a run that still waits is served as soon as it is next in its thread |
| `Outcomes.FailureOutcome` | libs/langgraph-runtime-pg/src/langgraph_runtime_pg/run_store.py:405-470 | after every history, a failure of an executing run: an infrastructure failure below the lesser of both limits puts it back in the queue, due after the back-off, with one event that is not terminal; any other failure ends it with one terminal event; the lease goes and everything else stays |
| `Outcomes.ShutdownOutcome` | libs/langgraph-runtime-pg/src/langgraph_runtime_pg/run_store.py:472-525 | a worker that shuts down always puts its executing run back in the queue, due after the back-off, and remembers a drained checkpoint |
| `Outcomes.ReapOutcome` | libs/langgraph-runtime-pg/src/langgraph_runtime_pg/run_store.py:779-844 | the reaper takes an executing run if and only if its expiry has passed: back to the queue with back-off, or, with its attempts used up, to an infrastructure error with one terminal event |
| `Outcomes.RequeueIdlesThread` | libs/langgraph-runtime-pg/src/langgraph_runtime_pg/run_store.py:472-525 | a shutdown and the reaper leave the run's thread idle and all other thread columns as they were, but for the error that the reaper sets when it ends the run |
| `Outcomes.FinishOutcome` | libs/langgraph-runtime-pg/src/langgraph_runtime_pg/run_store.py:339-403 | the owner of an executing run can always finish it: status and reason are those of the ending, and exactly the preceding events and then one terminal event with the given payload are recorded |
| `Outcomes.CancelOutcome` | libs/langhost/src/langhost/core_api.py:1451-1485 | a cancellation always interrupts an unfinished run with one terminal event, an executing one under the lease it has, and changes nothing about a finished one |
| `Outcomes.ReleaseOutcome` | libs/langgraph-runtime-pg/src/langgraph_runtime_pg/production_worker.py:895-919 | the lease of a cancelled run is given back if and only if its own worker asks, and the thread then shows whether interrupts are open |
| `RunSteps.TerminalIsFinal` | libs/langgraph-runtime-pg/src/langgraph_runtime_pg/run_state.py:43 | a terminal status never changes again, although the table allows interrupted to pending |
| `RunSteps.FuelDecreases` | libs/langgraph-runtime-pg/src/langgraph_runtime_pg/run_store.py:429-509 | a measure that no step raises and every status change lowers |
| `Reachable.TerminalExactlyOnce` | libs/langgraph-runtime-pg/src/langgraph_runtime_pg/run_store.py:555-563 | after every history an unfinished run has no terminal event and a finished one that is not being rolled back has exactly one, whoever won the race, and retention never deletes it |
| `Reachable.SequencesAreDense` | libs/langgraph-runtime-pg/src/langgraph_runtime_pg/run_store.py:564-608 | the sequences ever given to a thread are 1, 2, 3, ... up to its counter, each once, and no run counter or watermark is ahead |
| `Reachable.NoSequenceReused` | libs/langgraph-runtime-pg/src/langgraph_runtime_pg/run_store.py:564-590 | a sequence is never used twice, not even after pruning or rollback deleted its row |
| `Reachable.RecordRepairsCounters` | libs/langgraph-runtime-pg/src/langgraph_runtime_pg/run_store.py:570-581 | in any database, however stale its counters, a new event is numbered above every row of its thread |
| `LogInvariants.BatchIsFold` | libs/langgraph-runtime-pg/src/langgraph_runtime_pg/run_store.py:632-705 | the batch path leaves the same rows and counters as recording its events one by one, or fails for the same reason |
| `LogSteps.PruneKeepsLog` | libs/langgraph-runtime-pg/src/langgraph_runtime_pg/run_store.py:739-777 | a pruned row of an existing run lies at or below both watermarks, and the watermarks stay below the counters |
| `Retention.RetentionDeletesOnlyOldRows` | libs/langgraph-runtime-pg/src/langgraph_runtime_pg/run_store.py:707-777 | what a retention pass deletes is an event of one old finished run, created before the cutoff, not terminal, and no newer than what it leaves of this kind |
| `Retention.RetentionDeletesOldRows` | libs/langgraph-runtime-pg/src/langgraph_runtime_pg/run_store.py:724-777 | if the old events of such a run fit into one batch the pass may delete all of them, and its watermark then covers them |
| `LogEvolution.HistoryEvolves` | libs/langgraph-runtime-pg/src/langgraph_runtime_pg/run_store.py:527-777 | any history only appends events and deletes rows for good; a deleted run never returns |
| `RunScopes.OneThreadAlways` | libs/langgraph-runtime-pg/src/langgraph_runtime_pg/run_store.py:540-564 | all events ever recorded of a run lie on one thread, even after the run was deleted |
| `StreamBuffer.NothingIsLost` | libs/langgraph-runtime-pg/src/langgraph_runtime_pg/production_worker.py:144-191 | while every publication succeeds the log and the pending events are exactly the emission, and the last flush leaves nothing pending |
| `StreamBuffer.PrefixExactlyWithoutRepeats` | libs/langgraph-runtime-pg/src/langgraph_runtime_pg/production_worker.py:144-191 | for every history of emissions, failures, cancellations and timers the log is a prefix of the emission, position by position, if and only if no step commits a non-empty flush after a cut off publication had committed part of what is pending; at most 32 events are ever pending |
| `StreamBuffer.CancellationCanRepeat` | libs/langgraph-runtime-pg/src/langgraph_runtime_pg/production_worker.py:176-183 | the case exists: a run cancelled after its batch committed publishes the batch again in its last flush |
| `StreamBuffer.WaitingHasTimer` | libs/langgraph-runtime-pg/src/langgraph_runtime_pg/production_worker.py:152-191 | unless a firing timer is itself cut off, in every history fewer than 32 events wait while the graph goes on, and always under a running timer |
| `StreamBuffer.DeltasComeInBatches` | libs/langgraph-runtime-pg/src/langgraph_runtime_pg/production_worker.py:152-160 | deltas alone are committed in batches of exactly 32 as long as no timer fires |
| `StreamBuffer.PublishIsOneByOne` | libs/langgraph-runtime-pg/src/langgraph_runtime_pg/production_worker.py:228-260 | the choice between the batch path and single records does not change the log |
| `StreamBuffer.StreamEventBuffer.Add` | libs/langgraph-runtime-pg/src/langgraph_runtime_pg/production_worker.py:152-160 | adding a delta refuses after an error, flushes at 32, and otherwise starts the timer |
| `StreamBuffer.StreamEventBuffer.Flush` | libs/langgraph-runtime-pg/src/langgraph_runtime_pg/production_worker.py:162-174 | flushing raises a recorded error or publishes what is pending, and ends the timer |
| `StreamBuffer.StreamEventBuffer.OnEvent` | libs/langgraph-runtime-pg/src/langgraph_runtime_pg/production_worker.py:577-589 | a delta is buffered; any other event is published only after the deltas before it |
| `ReplayReader.ReplayThread` | libs/langhost/src/langhost/protocol_api.py:366-419 | the page loop refuses, stops or catches up where the specification says so, emits the matching rows of the pages read, and ends at their cursor |
| `ReplayReader.WhyItEnds` | libs/langhost/src/langhost/protocol_api.py:366-419 | a replay is refused if and only if its cursor is below the watermark; it has caught up only at a page of fewer than 32 rows, and stops after a full page only because the client went away or pruning overtook its cursor |
| `ReplayPages.ReplayIsGapless` | libs/langhost/src/langhost/protocol_api.py:326-419 | whatever is appended, pruned or rolled back between pages, a reader is refused at once or has at every page boundary scanned in order exactly the recorded events in (since, cursor], except those of deleted runs; from zero on it may lack what was pruned before it started |
| `EventStreams.NothingTwice` | libs/langhost/src/langhost/protocol_api.py:366-460 | for any pages and any queue no sequence is emitted twice and none at or below the cursor |
| `Delivery.QueueIsFannedOut` | libs/langgraph-runtime-pg/src/langgraph_runtime_pg/production_worker.py:305-317 | a queue registered at some moment holds exactly the events of its kind that were fanned out since then |
| `StreamHistories.ThreadStreamRepeatsNothing` | libs/langhost/src/langhost/protocol_api.py:305-460 | a protocol stream whose replay caught up, on a reachable time line of commits and fan-outs, emits no sequence twice and none at or below its cursor (`EventStreams.NothingTwice` has the other endings) |
| `StreamHistories.ThreadStreamAccountsForAll` | libs/langhost/src/langhost/protocol_api.py:305-460 | once its replay caught up, for a client that follows the queue: every matching event of the thread after the cursor, whenever it commits, is emitted, unless its message went out before the queue was registered and its row was pruned, or belongs to a deleted or non-resumable run, or asks for an input that was not open when the thread row was read |
| `StreamHistories.RequestIsShownExactly` | libs/langhost/src/langhost/protocol_api.py:305-358 | in a stream whose replay caught up, a request for input of a resumable run, in the table when it did, is emitted if and only if its interrupt was open when the thread row was read or its message was fanned out after the registration |
| `StreamHistories.LateRequestIsLost` | libs/langhost/src/langhost/protocol_api.py:305-358 | the losing family: the run stops to ask after the thread row was read and its message goes out before the registration, so the stream never shows the request |
| `LossExamples.RequestCanBeLost` | libs/langhost/src/langhost/protocol_api.py:305-358 | the loss happens in a history from the empty database, with a client that subscribes to everything |
| `EventStreams.RunReplayIsGapless` | libs/langhost/src/langhost/streaming.py:400-433 | a resume at or above the run's watermark gets every event recorded after it; from zero on only pruned, never terminal, events are missing |
| `StreamHistories.RunStreamIsGapFreeExactly` | libs/langhost/src/langhost/streaming.py:468-569 | a run stream that was not refused, and whose client stays, leaves no gap if and only if it replays (it created the run or the run is resumable) or hears of all that was recorded before; no such event was gone from the table when it replayed, unless it is heard of; and its ending cuts nothing off: not the second look (nothing was recorded since the first), not a silence (every later event came out before it, or is loaded after it above the newest sequence shown), not a terminal message (which overtakes none) |
| `StreamHistories.OnlyFreshStreamsMissPruned` | libs/langhost/src/langhost/streaming.py:471-481 | an event that is gone from the table when the stream replays is lost only to a client without a cursor, lies at or below the run's watermark and is never the run's end; a resuming client is refused instead |
| `LossExamples.PrunedCanBeMissed` | libs/langhost/src/langhost/streaming.py:471-521 | the gap happens in a history from the empty database: a served, resumable run, nothing recorded since, and its first event was pruned |
| `RunStreams.EmittedExactly` | libs/langhost/src/langhost/streaming.py:471-567 | an event of interest is emitted if and only if its row was in the table at the first read and the stream replays, or the stream goes live and hears of it |
| `RunStreams.RunEmitsOnce` | libs/langhost/src/langhost/streaming.py:491-506 | whatever is read and heard, nothing is emitted twice, at or below the cursor, or against the modes |
| `StreamHistories.EndInBetweenIsLost` | libs/langhost/src/langhost/streaming.py:471-527 | the losing family: a run that completes between the two reads is not seen to end, although its terminal event is recorded and queued |
| `LossExamples.EndCanBeLost` | libs/langhost/src/langhost/streaming.py:471-527 | the loss happens in a history from the empty database, to the client that created the run |
| `LiveStream.RunSse` | libs/langhost/src/langhost/streaming.py:468-569 | the body of the run stream, with its refusals, its late join, its second look and its live loop, emits what the specification says |
| `LiveStream.FollowRun` | libs/langhost/src/langhost/streaming.py:529-569 | the live loop emits what the filter over the heard envelopes specifies: up to the first terminal message, or, after a silence that finds the run ended, with the rows above the newest sequence shown |
| `LiveStream.EmitOnce` | libs/langhost/src/langhost/streaming.py:491-506 | the seen set emits each selected sequence above the cursor exactly once and nothing else |
| `LiveStream.FollowLive` | libs/langhost/src/langhost/protocol_api.py:421-457 | the live loop emits what the filter over the queue specifies, given the sequences already replayed |
| `LiveStream.EmitEnvelopes` | libs/langhost/src/langhost/streaming.py:491-506 | the run stream's loop emits what the same filter specifies |
| `EventFilter.MatchNamespace` | libs/langhost/src/langhost/protocol_api.py:205-223 | a namespace matches if there is no selector, or if and only if some selector is a prefix of it within the depth |
| `EventFilter.ChannelsSelect` | libs/langhost/src/langhost/protocol_api.py:226-232 | a method is shown if and only if there is no selection, everything is selected, or the method in full or its channel is: "input" for all input methods, otherwise what stands before the first colon |
| `PruneWalk.PruningPreservesReconstruction` | libs/langgraph-runtime-pg/src/langgraph_runtime_pg/checkpoint_mutations.py:232-265 | for every parent graph each delta channel of a head is reconstructed from the same checkpoints, contents and writes before and after pruning |
| `Ancestry.SurvivesExactly` | libs/langgraph-runtime-pg/src/langgraph_runtime_pg/checkpoint_mutations.py:232-265 | a checkpoint survives, with its contents and writes, if and only if a line of parents leads to it from a head and none before it on the line has, in its values or among the blobs under its version, the value of some delta channel of that head; cycles and missing parents included |
| `Ancestry.ValueStaysReachable` | libs/langgraph-runtime-pg/src/langgraph_runtime_pg/checkpoint_mutations.py:240-254 | if some ancestor of a head has the value of a delta channel, the surviving line from the head ends in the first such ancestor, unchanged |
| `Ancestry.NothingOlderIsKept` | libs/langgraph-runtime-pg/src/langgraph_runtime_pg/checkpoint_mutations.py:240-254 | beyond the point where all delta channels of a head have found their values nothing is kept for it |
| `PruneWalk.KeptIsExact` | libs/langgraph-runtime-pg/src/langgraph_runtime_pg/checkpoint_mutations.py:232-254 | a checkpoint survives if and only if it is a head or some delta channel of a head is reconstructed from it |
| `PruneWalk.HeadsStay` | libs/langgraph-runtime-pg/src/langgraph_runtime_pg/checkpoint_mutations.py:235-240 | every namespace keeps its newest checkpoint as its newest |
| `PruneWalk.PruningIsIdempotent` | libs/langgraph-runtime-pg/src/langgraph_runtime_pg/checkpoint_mutations.py:232-265 | pruning a second time deletes nothing more |
| `PruneWalk.WalkIsExact` | libs/langgraph-runtime-pg/src/langgraph_runtime_pg/checkpoint_mutations.py:240-254 | the one shared walk visits its start and exactly what the separate walks of the channels read |
| `PruneWalk.FindKept` | libs/langgraph-runtime-pg/src/langgraph_runtime_pg/checkpoint_mutations.py:232-254 | the nested loops over rows and ancestors end, with cycles too, and keep exactly the specified checkpoints |
| `SeenIds.WindowIsRemembered` | libs/langgraph-runtime-pg/src/langgraph_runtime_pg/redis_stream.py:324-344 | whatever is among that many newest ids is recognised |
| `SeenIds.BoundedExactlyIfPositive` | libs/langgraph-runtime-pg/src/langgraph_runtime_pg/redis_stream.py:324-344 | the set never exceeds maxlen, for all inputs, if and only if maxlen is positive |
| `SeenIds.SeenSet.Add` | libs/langgraph-runtime-pg/src/langgraph_runtime_pg/redis_stream.py:335-344 | adding an id answers whether it was new and, when the set is full, drops the oldest half |
| `FanOut.SubscriberSeesEachOnce` | libs/langgraph-runtime-pg/src/langgraph_runtime_pg/redis_stream.py:425-448 | a subscriber holds the replay of the newest 2000 messages sent since the buffer was last dropped, then every later message of its run exactly once, in order, whatever echoes arrive |
| `FanOut.SubscriberMissesNothing` | libs/langgraph-runtime-pg/src/langgraph_runtime_pg/redis_stream.py:664-682 | when all messages of its run originate in the subscriber's process: without a cursor a subscriber holds a tail of all that was sent, and all of it if and only if at most 2000 messages preceded it and no drop of the buffer had forgotten any |
| `FanOut.SecondArrivalIsSilent` | libs/langgraph-runtime-pg/src/langgraph_runtime_pg/redis_stream.py:418-448 | a message that arrives again for its run, as an event or as a control message, has no effect |
| `FanOut.BufferIsNewest` | libs/langgraph-runtime-pg/src/langgraph_runtime_pg/redis_stream.py:547-558 | the buffer of a run is the newest 2000 local messages since the buffer was last dropped |
| `FanOut.ReplayIsSuffix` | libs/langgraph-runtime-pg/src/langgraph_runtime_pg/redis_stream.py:649-662 | on ascending ids the replay is exactly what follows the client's cursor |
| `StreamManagers.IdSource.Generate` | libs/langgraph-runtime-pg/src/langgraph_runtime_pg/redis_stream.py:180-191 | ids ascend strictly even when the clock stands still or goes back |
| `StreamManagers.StreamManager.Put` | libs/langgraph-runtime-pg/src/langgraph_runtime_pg/redis_stream.py:514-558 | a publication is buffered unless it is a control message, the buffer is cut to 2000, and it is delivered once |
| `StreamManagers.StreamManager.DeliverLocal` | libs/langgraph-runtime-pg/src/langgraph_runtime_pg/redis_stream.py:425-448 | a message goes to every subscriber of its target exactly if its id is new in its scope |
| `StreamManagers.StreamManager.AddQueue` | libs/langgraph-runtime-pg/src/langgraph_runtime_pg/redis_stream.py:664-682 | replay and registration are one step |
| `StreamManagers.StreamManager.ClearRunBuffers` | libs/langgraph-runtime-pg/src/langgraph_runtime_pg/redis_stream.py:854-870 | the end of a run drops its control state at once and leaves its buffer until the grace period is over |
| `StreamManagers.StreamManager.DropLocalStore` | libs/langgraph-runtime-pg/src/langgraph_runtime_pg/redis_stream.py:828-842 | the drop after the grace period forgets the buffer and nothing else |
| `RunRepositories.RunRepository.Create` | libs/langgraph-runtime-pg/src/langgraph_runtime_pg/run_store.py:64-142 | creation returns the run that has the key if its target is the same, refuses otherwise, rejects busy threads on request, treats an empty key as never looked up but unique, and lets the unique index decide when the first look came too early |
| `Submissions.SubmissionIsIdempotent` | libs/langgraph-runtime-pg/src/langgraph_runtime_pg/run_store.py:75-142 | a submission repeated after any history in which its run still exists creates nothing and finds that run, which alone has the key, also when it lost the race at its first look |
| `Submissions.TakenKeyDecides` | libs/langgraph-runtime-pg/src/langgraph_runtime_pg/run_store.py:75-142 | after every history a submission under a key that a run has creates nothing: it finds that run if thread and assistant are the same and is refused otherwise, while an empty key is refused as a duplicate, and a first look that came too early lets the busy check come first |
| `Acceptance.SubmissionQueues` | libs/langgraph-runtime-pg/src/langgraph_runtime_pg/run_store.py:90-117 | after every history a submission without key is refused if and only if it wants an idle thread and finds a waiting or executing run; otherwise it waits last in its thread's queue, due at once |
| `Submissions.KeysNameOneRun` | libs/langgraph-runtime-pg/src/langgraph_runtime_pg/run_store.py:118-141 | in every reachable database an idempotency key names at most one run |
| `RunRepositories.RunRepository.ClaimNext` | libs/langgraph-runtime-pg/src/langgraph_runtime_pg/run_store.py:203-310 | a claim is the transaction of which `QueueHeads.ClaimServesExactlyTheNext` says whom it serves: an exhausted run ends, a free head gets baseline, lease and generation, and everything else changes nothing |
| `RunRepositories.RunRepository.Renew` | libs/langgraph-runtime-pg/src/langgraph_runtime_pg/run_store.py:312-337 | a renewal succeeds exactly for the owner of a running run with an unexpired lease row, and moves both expiries; `LeaseTime.RenewedLeaseNeverLapses` says that renewals in time keep the run |
| `RunRepositories.RunRepository.Finish` | libs/langgraph-runtime-pg/src/langgraph_runtime_pg/run_store.py:339-403 | finishing records the preceding events, ends the run and records one terminal event, or changes nothing |
| `RunRepositories.RunRepository.Fail` | libs/langgraph-runtime-pg/src/langgraph_runtime_pg/run_store.py:405-470 | a failure requeues with back-off or ends the run, and records it, or changes nothing; `Outcomes.FailureOutcome` says which, and with what delay |
| `RunRepositories.RunRepository.RequeueForShutdown` | libs/langgraph-runtime-pg/src/langgraph_runtime_pg/run_store.py:472-525 | a shutdown requeue releases only a running run of its owner |
| `RunRepositories.RunRepository.RequeueExpired` | libs/langgraph-runtime-pg/src/langgraph_runtime_pg/run_store.py:779-844 | the loop over expired runs is the sequence of the reaper's single steps |
| `RunRepositories.RunRepository.RecordOne` | libs/langgraph-runtime-pg/src/langgraph_runtime_pg/run_store.py:527-630 | recording an event refuses a missing run or thread and a thread that is not the run's, does not repeat a terminal event, numbers the row above counter and rows, and moves the counters |
| `RunRepositories.RunRepository.RecordMessageDeltas` | libs/langgraph-runtime-pg/src/langgraph_runtime_pg/run_store.py:632-705 | one cursor read, consecutive rows and one cursor write |
| `RunRepositories.RunRepository.PruneExpiredEvents` | libs/langgraph-runtime-pg/src/langgraph_runtime_pg/run_store.py:707-777 | if some old terminal run has expired rows, one such run loses the expired, non-terminal rows with its smallest sequences, at most a batch, and both watermarks rise to the newest of them; otherwise nothing changes |
| `RunRepositories.RunRepository.ReleaseCancelledLease` | libs/langgraph-runtime-pg/src/langgraph_runtime_pg/production_worker.py:895-919 | a cancelled run gives its lease back only to its own worker's last step |
| `CheckpointStores.CheckpointStore.Rollback` | libs/langgraph-runtime-pg/src/langgraph_runtime_pg/checkpoint_mutations.py:74-160 | a rollback is accepted exactly under its guards, and then restores and deletes, or only validates |
| `CheckpointStores.CheckpointStore.CompleteRollbacks` | libs/langgraph-runtime-pg/src/langgraph_runtime_pg/checkpoint_mutations.py:163-195 | the loop carries out each stopped rollback in its own transaction and leaves conflicts for later; `DeferredRollbacks` says when one counts as stopped |
| `CheckpointStores.CheckpointStore.Prune` | libs/langgraph-runtime-pg/src/langgraph_runtime_pg/checkpoint_mutations.py:198-271 | pruning is refused on an active thread and otherwise leaves exactly the kept checkpoints, those of `Ancestry.SurvivesExactly`, with no baselines |
| `Acceptance.PruneRefusedExactly` | libs/langgraph-runtime-pg/src/langgraph_runtime_pg/checkpoint_mutations.py:198-212 | pruning is refused if and only if a run of the thread executes or waits for its rollback; otherwise it leaves the specified rows, drops the baselines of this thread only and touches no other table |
| `Acceptance.UpdateRefusedExactly` | libs/langgraph-runtime-pg/src/langgraph_runtime_pg/checkpoint.py:59-101 | a write without worker identity is refused if and only if a rollback is pending on the thread or a run executes on it that the write does not name; otherwise it is stored as it is, and supersedes the thread's baselines if and only if it names no run |
| `CheckpointStores.CheckpointStore.Put` | libs/langgraph-runtime-pg/src/langgraph_runtime_pg/checkpoint.py:32-114 | a worker's write passes the fence exactly as `LeaseTime.HolderMayWrite` says and is stamped with its run; one without worker identity is refused while another run is active, and drops the baselines if its configuration names no run |
| `CoreApiEndpoints.Endpoints.Interrupt` | libs/langhost/src/langhost/core_api.py:1451-1485 | cancelling ends an unfinished run and records it, keeping the lease of a running one |
| `CoreApiEndpoints.Endpoints.RequestRollBack` | libs/langhost/src/langhost/core_api.py:1439-1450 | a rollback request is validated first, and carried out at once exactly if nobody holds the lease |
| `CoreApiEndpoints.Endpoints.RollBackMany` | libs/langhost/src/langhost/core_api.py:1685-1709 | one conflict abandons the whole request |
| `CoreApiEndpoints.Endpoints.ReorderQueue` | libs/langhost/src/langhost/core_api.py:1582-1616 | a reorder gives the requested runs the queue's positions, if the client's view is current |

## Left out

- StreamHistories.ThreadStreamAccountsForAll: a live message is identified by its sequence, and the resumable runs of a page are read together with the page rather than in the query right after it.
- FanOut.SubscriberMissesNothing: when messages of a run first arrive from another process, they are delivered but not buffered; `SubscriberSeesEachOnce` covers these.
- StreamHistories.RunStreamIsGapFreeExactly: for a client that stays; a time-out or a failed re-authorization cuts the stream off, and `RunStreams.EmittedExactly` covers these, in terms of what was heard.
- SeenIds.BoundedExactlyIfPositive: the bound that the class promises fails for a maximum of zero or less, where one id stays; the program uses 10,000.
- ReplayReader.ReplayThread: disconnects and failed re-authorization are the end of the supply of pages.
- RunRepositories.RunRepository.ClaimNext: the skip-locked query that chooses the candidate is a parameter, so any candidate is covered.
- RunRepositories.RunRepository.RequeueExpired: lease rows are deleted run by run instead of in one statement at the end.
- RunRepositories.RunRepository.PruneExpiredEvents: which of the prunable runs is chosen stays open, because the query skips locked rows.
- StreamManagers.StreamManager.Put: writing to Redis streams, expiry and publication over Pub/Sub are not part of this model; a batch is its messages one after the other.
- FanOut.ReplayIsSuffix: cursors that are not of the form milliseconds-sequence are compared as text by the program and are not modelled.
- The thread columns that a worker sets in the same transaction as an ending are a separate step, which may come at any time.
- Deleting runs and threads directly, copying threads, assistants, crons, and the cancel operation of the queue endpoint, which is a sequence of cancellations.
- Heartbeat columns, time stamps and trace data inside payloads, metrics, and the names of assistants added to events.
- Wire formats: how a row's payload becomes a protocol event or a server-sent frame; topic and payload stand for method and interrupt identifier.
- The polling endpoint for thread streams, which reads the same table again.
- Requests, authorization and validation of bodies; ill-formed selectors of a subscription.
- PostgreSQL and Redis themselves, and the older claim protocol based on Redis heartbeats.
