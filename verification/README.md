# Montana in Dafny

Montana is a rollup pipeline. Blocks arrive at a sequencer, which cuts them into numbered batches, has up to four
workers compress batches side by side, and submits them in the order of their numbers to an inbox address on L1. A
source reads the inbox back, a validator decompresses the batches and executes their blocks, and the executor keeps
its state in a trie database with a shared cache in front of it. This project models that pipeline and the smaller
protocols around it, and proves what it keeps, whatever the interleaving and whatever fails.

`dafny verify dfyconfig.toml` checks everything.

## How the pieces fit

**The batch pipeline.** `Pipeline` is a step relation: the producer feeds and closes the block channel, workers finish
or fail in any order, and the sequencer receives, spawns, flushes, collects, submits or skips. `SequencerRole.Sequencer`
is the role itself, with the fields the program has; its `Valid` says that replaying the steps recorded in its ghost
trace gives exactly its fields, and every method lets the surroundings take any number of steps between its own.
`Sequential` is a batcher without workers, heap or channels, whose log is easy to describe. `Refinement` shows that
every run of the pipeline is a run of that batcher, so the log of the pipeline has the same shape. `Drain` treats the
end of a run, its bound, and the failure that makes the program's final loop spin forever.

**L1.** `Transport` has the chain, the sink and the source; `ValidatorRole` the validator. `EndToEnd` composes them with
the pipeline into one system of interleaved actions, in which a sink call waits for its receipt while everything else
goes on, and the provider may have no answer for a block. A run may start after any earlier life, with any inbox, any
transactions left unmined and any two checkpoints. `Restarts` says when every inbox transaction gets a block of its own,
and what one life leaves to the next. `SystemRuns` shows that the validator and the sink objects take the system's actions.

**Execution.** `Store` says what reads see and what a change set does; `TrieDb` and `CachedDb` are the two databases,
`Executor` the executor. EVM execution is an arbitrary adaptive program whose next read, and whose final changes, may
depend on every answer so far. The uncached run with immediate writes is the reference the cached one is compared with.

**Arithmetic and the smaller protocols.** `BlobFee` compares the capped, saturating exponential with the unbounded one
of EIP-4844, section "Helpers"; `FeeTerms` certifies its terms at the excesses that matter. `BlockBuffer`,
`BatchRunner`, `Migration`, `Sync`, `Checkpoints` and `Derivation` each model one component with its loop and its failures.

## What the program does not do

Some promises fail. Each has its exact condition, or a run that shows it.

- A number whose preparation failed, or that was popped and lost, keeps the submission counter at or below it for ever,
  so no later batch is submitted (`Drain.FailureCapsProgress`). What the final drain loop then does depends on what is
  behind the failure. With any sound batch behind it the loop never ends (`Drain.WaitsForeverIff`, and
  `Drain.BlockedRunWaitsForever` for such a run); if everything behind it failed too it leaves, and the tick answers
  Complete with blocks lost (`Drain.CompleteWithLoss`). A submission error inside the loop leaves it as an error, which
  ends the node (crates/node/roles/src/sequencer.rs:868, crates/node/node/src/builder.rs:505).
- The final drain loop does not yield to the workers while the heap is not empty (crates/node/roles/src/sequencer.rs:871),
  so that it ends without failures depends on a runtime that lets the workers run beside it. While no result has come and
  the head of the line is not ready, nothing but a worker can move (`Drain.OnlyWorkersCanMove`), and that happens without
  any failure (`Drain.StarvingRunNeedsAWorker`). The model makes it a parameter which polls bring a delivery.
- A resumed sequencer restores its checkpoint but not its numbering, so the first N batches it cuts are skipped when the
  checkpoint says N (`Drain.CompleteMeansDelivered`, and `Drain.SkippedBlockIsLost` for such a run). A completed run
  without failures has delivered everything exactly when it was fresh or nothing was fed (`Drain.ResumeLosesNothingIff`).
- After a restart the source's numbers agree with the sequencer's exactly when the inbox and the mempool together held as
  many transactions as the checkpoint counts (`EndToEnd.SourceNumbersAgreeIff`); a lost receipt or save breaks this
  (`SystemRuns.MisnumberingRunDisagrees`), also while the transaction is still unmined (`SystemRuns.LeftoverRunDisagrees`).
  What the validator executes stays one contiguous piece of what the sequencer received even then
  (`EndToEnd.ExecutedFollowsReceived`); where it starts depends on both checkpoints and the inbox.
- The source reads one inbox transaction per L1 block and moves past blocks the provider answers with nothing. It reads
  everything exactly when no block holds two of them and no unanswered block holds one (`Transport.ReadsAllIff`,
  `EndToEnd.DeliveredAllIff`). The sink's wait for each receipt gives the first half as long as nothing is unmined when
  the first batch of a life is sent (`Restarts.OneInboxTxPerBlock`); an empty mempool at the start is enough. A leftover of
  an earlier life can share a block with an accepted batch, which is then never delivered
  (`SystemRuns.SharedBlockLosesBatch`).
- A block that fails can leave the cache ahead of the database, whether a transaction, a database read or the commit was what
  failed: as long as the database's accounts and slots are the old ones, a cache that was coherent still is exactly when
  no transaction had been committed to it (`Executor.FailedBlockCoherentIff`). Without database errors that is when the
  very first transaction failed (`Executor.AbortedBlockCoherentIff`; `Executor.AbortedBlockBreaksCoherence` has such a
  block for every store). A commit that lacks only its header has updated the database, too.
- Self-destructs can leave the cache wrong: a block leaves the overlay and the database in agreement exactly when every
  account was alive after the last transaction that touched it, and no slot or code of a destroyed account is remembered
  with a value of its own (`Store.BlockAgreesIff`). The real cache is coherent afterwards exactly when this holds for the
  keys it has (`CachedDb.CoherentAfterCommitIff`, `Executor.BlockExecutor.ExecuteBlock`).
- The blob fee's sum is EIP-4844's exactly up to an excess of 109540081 (`BlobFee.BlobSumExactIff`); from 126837720 on the
  fee is strictly lower than EIP-4844's (`BlobFee.BlobFeeIsTooLow`). In between it depends on the rounding of the division.
  With other arguments than the program's, zero excess gives back the factor exactly when the first product does not
  saturate (`BlobFee.ZeroExcessIff`).
- Three holders save their own copies to one checkpoint file. A restart keeps what each of the four fields counts exactly
  when the last save that reached the file was by an up-to-date holder and nothing new was made since, which can be read
  off the events (`Checkpoints.RestartKeepsProgressIff`). Each role's save erases the other's progress
  (`Checkpoints.ValidatorSaveForgetsSubmission`, `Checkpoints.SequencerSaveForgetsDerivation`).
- The last executed block of a checkpoint is never beyond the highest block at which syncing was complete, however
  many blocks the roles execute, because neither role records the blocks it executes (`Checkpoints.LoadIsNeverAhead`,
  crates/node/node/src/builder.rs:520-544).
- The ranges the derivation runner reports are the real ones exactly when every success was counted with its own number of
  blocks (`Derivation.RangesAreTrueIff`); a batch without a recorded count is counted as one block, which is wrong unless
  it has just one (`Derivation.UnknownCountIsWrongUnlessOne`).
- The batch runner's exit on a fatal error cannot be reached: no step of a submission has the one fatal error
  (`BatchRunner.BatchSubmissionRunner.SubmitBatch`, `BatchRunner.BatchSubmissionRunner.SubmitPending`).
- The doc comment at crates/node/roles/src/validator.rs:255 promises an error when execution fails; the code ignores
  the executor's result. The comment at crates/consensus/batch-runner/src/runner.rs:227 says that pending blocks go out
  when the runner is caught up; the code also wants the fetch of the next block to have failed. The model follows the code.
- The comment at crates/consensus/txmgr/src/gas.rs:190 calls the fee `MIN * (1 + excess/fraction)`; the code computes a
  hundred terms of the exponential series, and the model follows the code.

## Model

| member | source | states |
|---|---|---|
| `Wire.EncodeCalldata` | crates/consensus/anvil/src/sink.rs:48-54 | the buffer the sink builds is the 24-byte header and the data, and the source's decoder gives the same batch back |
| `Wire.HeaderRoundTrip` | crates/consensus/anvil/src/source.rs:80-100 | every encoded batch decodes, unchanged, under whatever number the source assigns |
| `Wire.DecodableIffHeader` | crates/consensus/anvil/src/source.rs:83-92 | exactly the calldata with a whole header are encodings of what they decode to; shorter ones take the fallback |
| `Wire.LeRoundTrip` | crates/consensus/anvil/src/sink.rs:51-53 | little-endian bytes give back every number that fits in them |
| `Pipeline.StepKeepsInv` | crates/node/roles/src/sequencer.rs:499-860 | each step of the sequencer, the producer or a worker, in any order, keeps counters, placement of numbers and batch contents consistent |
| `Pipeline.NumbersPartition` | crates/node/roles/src/sequencer.rs:499-618 | in every reachable state each assigned number is in exactly one place: submitted or skipped, with a worker, in the results channel, in the heap, failed in preparation, or lost |
| `Pipeline.InFlightIsExact` | crates/node/roles/src/sequencer.rs:499-522 | the in-flight counter is exact, its saturating subtraction never saturates, it is at most 4, and 5 only after the final flush |
| `Pipeline.NothingAfterLoss` | crates/node/roles/src/sequencer.rs:543-576 | after a submission error no later batch can be submitted: the lost number stays the next one |
| `Pipeline.BatchesAreTakenInOrder` | crates/node/roles/src/sequencer.rs:787-822 | each batch takes the oldest pending blocks under the next number: up to the configured maximum in normal mode, all of them in the flush |
| `Pipeline.CatchUpBatchSizes` | crates/node/roles/src/sequencer.rs:376-387 | a catch-up batch has at least 50, 25 or 12 blocks and at most 100, 50 or 25 with a backlog of 200, 50 or 10, and as many as allowed if so many are pending |
| `Sequential.MoveKeepsOrder` | crates/node/roles/src/sequencer.rs:528-576 | each move of the reference batcher keeps its log the consecutive batches after those of the checkpoint, refusing at most the last |
| `Sequential.LogIsContiguous` | crates/node/roles/src/sequencer.rs:528-576 | the blocks of the log are exactly those cut for its numbers and one contiguous piece of the input |
| `Refinement.StepSimulates` | crates/node/roles/src/sequencer.rs:499-860 | each pipeline step is one move of the sequential batcher or none |
| `Refinement.PipelineRefinesSequential` | crates/node/roles/src/sequencer.rs:499-860 | every run, with any interleaving and any failures, is a run of the sequential batcher with the same log, cuts and counters |
| `Refinement.SinkSeesConsecutiveBatches` | crates/node/roles/src/sequencer.rs:524-576 | resumed with N submitted batches, the sink sees N+1, N+2, ... without gap or repetition, all accepted but possibly the last, and their blocks are one segment of the received ones, a prefix when N is 0 |
| `Refinement.SinkCallsDescribeBlocks` | crates/node/roles/src/sequencer.rs:413-414 | in every run each sink call carries data that decompress, and a header with the number of the blocks they give and the numbers of the first and the last |
| `Drain.DrainIsBounded` | crates/node/roles/src/sequencer.rs:863-875 | after the channel closed, a run has at most three steps per running worker, two per waiting result and one per ready batch |
| `Drain.DrainedIffNoFailure` | crates/node/roles/src/sequencer.rs:863-875 | when nothing moves any more, everything cut has been submitted if and only if no preparation failed and no submission was lost |
| `Drain.FailureCapsProgress` | crates/node/roles/src/sequencer.rs:509-513 | a number that failed stays failed through every further run, and the submission counter never passes it |
| `Drain.WaitsForeverIff` | crates/node/roles/src/sequencer.rs:862-876 | at rest no step of anyone is possible, and the drain loop keeps waiting if and only if some batch from the submission counter on has not failed |
| `Drain.BlockedRunWaitsForever` | crates/node/roles/src/sequencer.rs:862-876 | a reachable run, for every codec and block: the first of two batches fails and the loop waits for ever |
| `Drain.CompleteWithLoss` | crates/node/roles/src/sequencer.rs:862-876 | a reachable run in which the only batch fails, the loop leaves at once and the block is lost |
| `Drain.StarvingRunNeedsAWorker` | crates/node/roles/src/sequencer.rs:862-874 | a reachable run without failures in which the heap is not empty and no step but a worker's is possible |
| `Drain.CompleteMeansDelivered` | crates/node/roles/src/sequencer.rs:843-877 | without failures, from any checkpoint N: once drained, the blocks ever fed are those of the first N batches followed by those of the accepted sink calls, each once and in order |
| `Drain.ResumeLosesNothingIff` | crates/node/roles/src/sequencer.rs:687-697 | such a run has delivered everything fed if and only if it was fresh or nothing was fed |
| `Drain.SkippedBlockIsLost` | crates/node/roles/src/sequencer.rs:559-563 | a reachable run: resumed from one batch, the only new batch is skipped and its block reaches nobody |
| `Drain.RestMeansDelivered` | crates/node/roles/src/sequencer.rs:843-877 | without failures: a run in which no step is left has emptied everything and delivered every block ever fed but those of the skipped batches |
| `SequencerRole.Sequencer.Resume` | crates/node/roles/src/sequencer.rs:687-697 | only the checkpoint is restored; numbering still starts at 1 |
| `SequencerRole.Sequencer.WorkerFinishes` | crates/node/roles/src/sequencer.rs:445-494 | some worker, not necessarily the oldest, delivers the batch of its own number and blocks, or an error; without failures never an error |
| `SequencerRole.Sequencer.CollectOne` | crates/node/roles/src/sequencer.rs:500-514 | the oldest result goes to the heap, or is dropped if it is an error, and the counter goes down by exactly one |
| `SequencerRole.Sequencer.CollectPreparedBatches` | crates/node/roles/src/sequencer.rs:499-522 | ends only when the results channel has been seen empty, and touches nothing but heap and counter |
| `SequencerRole.Sequencer.PeekLeast` | crates/node/roles/src/sequencer.rs:71-76 | the reversed order of the heap makes its head a batch with the least number |
| `SequencerRole.Sequencer.SubmitPreparedBatch` | crates/node/roles/src/sequencer.rs:555-576 | skip, sink error, save error and success each change the popped batch, the counter, the checkpoint and the list of sink calls as the step relation says; an error leaves the number unsubmitted |
| `SequencerRole.Sequencer.SkipOrSubmit` | crates/node/roles/src/sequencer.rs:555-576 | the sink is called with this batch unless the checkpoint is positive and covers its number; the checkpoint rises only with an accepted call, the counter only if the save worked, too |
| `SequencerRole.Sequencer.SubmitReadyBatches` | crates/node/roles/src/sequencer.rs:528-549 | submits until the least ready number is not the next one; returns how many, or reports a loss |
| `SequencerRole.Sequencer.AccumulateBlock` | crates/node/roles/src/sequencer.rs:632-660 | the oldest block moves from the channel to the end of the pending ones and the size follows |
| `SequencerRole.Sequencer.AccumulateBlocks` | crates/node/roles/src/sequencer.rs:730-757 | stops with the channel empty or the dynamic maximum pending, and goes beyond that maximum by at most its first block; reports a disconnect only for a closed, empty channel |
| `SequencerRole.Sequencer.RecalculateSize` | crates/node/roles/src/sequencer.rs:804-809 | the recomputed size is the total of the pending blocks |
| `SequencerRole.Sequencer.SpawnPreparationWorker` | crates/node/roles/src/sequencer.rs:407-440 | the first k pending blocks become the batch of the next number, in one worker, and the counters follow |
| `SequencerRole.Sequencer.SpawnCatchUpWorkers` | crates/node/roles/src/sequencer.rs:764-811 | starts workers until the slots are used up, nothing is pending, or less than half a batch is |
| `SequencerRole.Sequencer.WaitingBlocksAreFew` | crates/node/roles/src/sequencer.rs:764-841 | when no batch is due although a worker is free: fewer than 50, 25 or 12 blocks are pending with a backlog of 200, 50 or 10, and below that neither the size nor the number of blocks is reached |
| `SequencerRole.Sequencer.SpawnWorkers` | crates/node/roles/src/sequencer.rs:759-841 | when it starts none, no slot was free, nothing was pending, or no batch was due; when it starts one, size, count, backlog or time asked for it; with a backlog it goes on until the slots are used up, nothing is pending or less than half a batch is |
| `SequencerRole.Sequencer.DrainLoop` | crates/node/roles/src/sequencer.rs:863-875 | observed over any schedule of deliveries: leaves only with nothing in flight and an empty heap, or after a loss, and goes on only with work left; without failures it has left before there were more deliveries than there was work |
| `SequencerRole.Sequencer.FlushAndDrain` | crates/node/roles/src/sequencer.rs:843-877 | completes only with everything flushed and drained; without failures every block ever fed, but those of batches skipped after a resume, is then on L1, in order |
| `SequencerRole.Sequencer.Tick` | crates/node/roles/src/sequencer.rs:699-880 | whatever happens meanwhile, a tick is a run of the step relation that went through all phases: results were collected until none was left, everything next in line was submitted, a block was taken or the channel seen empty, a worker started or no batch due; Idle means no phase had anything to do, Progress that some counter moved, Complete that the pipeline is empty, and an error that a batch was lost |
| `SequencerRole.StuckOnlyIfDone` | crates/node/roles/src/sequencer.rs:863-875 | without failures a drained state in which nothing moved has nothing left |
| `Transport.L1Node.Mine` | crates/consensus/anvil/src/sink.rs:71-75 | a mined block takes some of the waiting transactions, first come first served, among foreign ones |
| `Transport.AnvilBatchSink.Submit` | crates/consensus/anvil/src/sink.rs:45-80 | a success put exactly this calldata behind all earlier ones; with nothing unmined before, in a block of its own; it fails only when the send does, and then nothing was sent, or when the patience is used up with the transaction unmined; the chain grew by exactly the blocks mined meanwhile |
| `Transport.ReadsAllIff` | crates/consensus/anvil/src/source.rs:59-105 | for every chain and every pattern of answers the source reads all inbox transactions in order if and only if no block holds two and no unanswered block holds one |
| `Transport.AnvilBatchSource.FindInboxTx` | crates/consensus/anvil/src/source.rs:74-76 | the scan finds the first inbox transaction of a block, or there is none |
| `Transport.AnvilBatchSource.ScanBlock` | crates/consensus/anvil/src/source.rs:69-104 | the cursor moves to the block, which is recorded as seen behind the missing ones, and the deliveries stay the numbered decoding of the first inbox transactions of the scanned blocks |
| `Transport.AnvilBatchSource.NextBatch` | crates/consensus/anvil/src/source.rs:47-108 | across head growth, errors and missing answers each call delivers the next such batch or none; it sees each block as it is unless the provider misses it, is an error only if a query that was due fails, and is None only if every block there was at the call is scanned or missing |
| `ValidatorRole.ProgressOnlyGrows` | crates/node/roles/src/validator.rs:256-308 | whatever is delivered in whatever order, derivation never goes back and what was executed stays executed |
| `ValidatorRole.RedeliveryIsHarmless` | crates/node/roles/src/validator.rs:260-264 | a batch derived once has no effect when it comes again, however much later |
| `ValidatorRole.Validator.ProcessBatch` | crates/node/roles/src/validator.rs:256-333 | an old batch changes nothing, an undecodable one is an error that changes nothing, any other executes its blocks in order and is recorded even if the save then fails |
| `ValidatorRole.Validator.Tick` | crates/node/roles/src/validator.rs:358-406 | exactly the delivered batches take effect, in the order of delivery; it stops before the tenth only at a failed query, at a batch that was rejected, or when every block there was is scanned or missing |
| `EndToEnd.ActionKeepsWire` | crates/consensus/anvil/src/sink.rs:45-80 | each action of sequencer, sink, L1, source and validator keeps the log, the inbox and the deliveries aligned, for any codec, any old inbox, any leftovers and any missing answers |
| `EndToEnd.ActionKeepsInv` | crates/node/roles/src/validator.rs:256-308 | for any start: as long as every block was read in full, each action keeps the executed blocks those of the old batches the validator's checkpoint does not cover, then those cut for the new deliveries |
| `EndToEnd.ExecutedFollowsReceived` | crates/node/roles/src/validator.rs:256-308 | in every reachable state after any earlier life, as long as every scanned block was read in full: every new delivery, a still unanswered one included, is a batch the sink sent, but for the number; the executed blocks are those of uncovered old batches and then one contiguous piece of the received ones; from a fresh start a prefix |
| `EndToEnd.DeliveredAllIff` | crates/consensus/anvil/src/source.rs:59-105 | in every reachable state as many batches are delivered as the scanned blocks hold inbox transactions if and only if none held two and no unanswered one held any |
| `EndToEnd.SourceNumbersAgreeIff` | crates/consensus/anvil/src/source.rs:74-101 | after a restart with any inbox and any leftovers: new deliveries are the sent batches, and the source gives them the sequencer's numbers if and only if inbox and mempool held as many transactions as the checkpoint counts |
| `Restarts.SendsAloneIff` | crates/consensus/anvil/src/sink.rs:62-75 | every send of a life finds nothing unmined if and only if the first one does |
| `Restarts.OneInboxTxPerBlock` | crates/consensus/anvil/src/sink.rs:71-75 | then waiting for receipts gives each inbox transaction a block of its own, reading the first of each block reads them all, and the end is a start for which this holds again |
| `Restarts.NextLifeFollows` | crates/consensus/anvil/src/sink.rs:62-75 | whatever happened, the next life finds the old inbox and behind it exactly what this life sent, mined or not |
| `Restarts.ReadAllIffNothingMissed` | crates/consensus/anvil/src/source.rs:69-71 | then everything is read if and only if no block answered by nothing held an inbox transaction |
| `EndToEnd.CaughtUpHasEverything` | crates/node/roles/src/validator.rs:256-308 | with nothing on its way any more: all old and accepted batches are delivered if and only if every block was read in full, and then the validator has executed, behind the old batches, exactly what the sink calls carried that its checkpoint does not skip |
| `EndToEnd.NothingIsLeftBehind` | crates/node/roles/src/sequencer.rs:843-877 | a system at rest without failures that read every block in full has put on L1 every block ever fed but those the sequencer skipped, and the validator has executed exactly these if its checkpoint covers the old inbox |
| `EndToEnd.DeliveredIsSent` | crates/consensus/anvil/src/source.rs:74-101 | delivery i is the batch sent for that place in the inbox, but for the number, which each side takes from its own count |
| `EndToEnd.HeadersDescribeBlocks` | crates/node/roles/src/sequencer.rs:478-486 | in every reachable state every batch on L1, and every new delivery while all is read in full, has data that decompress and a header with the number of the blocks they give and the numbers of the first and the last |
| `SystemRuns.ScansDeliver` | crates/consensus/anvil/src/source.rs:59-105 | scans with any answers deliver the numbered decoding of what they read and the validator has processed each of it in turn |
| `SystemRuns.ValidatorTick` | crates/node/roles/src/validator.rs:358-406 | a tick of the validator object with its source, while L1 grows and whatever the provider has no answer for, is a run of the system's scan actions; it shows each block as it is unless it was missing, and stops before the tenth batch only at a failed query, a rejected batch, or with only missing blocks left |
| `SystemRuns.SinkCall` | crates/consensus/anvil/src/sink.rs:45-80 | a call of the sink object is a run of the system's actions: a failed send, or a send, the blocks mined meanwhile and the answer, which is a success exactly when the send, the receipt and the save were |
| `SystemRuns.MisnumberingRunDisagrees` | crates/consensus/anvil/src/source.rs:74-79 | a reachable run after a lost receipt: the source numbers the sequencer's batch 1 as 2 |
| `SystemRuns.LeftoverRunDisagrees` | crates/consensus/anvil/src/source.rs:74-79 | the same with an empty inbox and the lost transaction still unmined |
| `SystemRuns.SharedBlockLosesBatch` | crates/consensus/anvil/src/sink.rs:62-75 | a reachable run in which a leftover and an accepted batch share a block: the batch is never delivered although nothing failed and nothing is on its way |
| `Store.ApplyKeepsSameReads` | crates/execution/database/src/triedb.rs:262-312 | stores no read can tell apart stay so under the same changes |
| `Store.AgreeIffNoneDestroyed` | crates/execution/database/src/cached.rs:217-246 | after one change set cache and database agree if and only if it destroyed no account |
| `Store.AgreeAfterBlock` | crates/execution/database/src/cached.rs:217-258 | through a whole block without self-destructs they stay in step |
| `Store.BlockAgreesIff` | crates/execution/database/src/triedb.rs:262-312 | for any block, self-destructs included: they agree if and only if each account survives its last touch and no wiped slot or destroyed account's code keeps a value of its own |
| `Store.SlotAfterBlock` | crates/execution/database/src/triedb.rs:299-311 | after any block the overlay shows a slot's last write, and the database the same unless the account was destroyed later |
| `Store.OverlayUnnoticedIff` | crates/execution/database/src/cached.rs:217-246 | changes that reached only the cache go unnoticed if and only if every key was last written its old value |
| `Store.DestroyedAccountStaysCached` | crates/execution/database/src/cached.rs:220-224 | a block that ends with a self-destruct leaves the account alive in the cache and gone from the database |
| `Store.LastAccountWriterWins` | crates/execution/database/src/triedb.rs:262-297 | across a block's transactions the last one to touch an account decides it |
| `Store.LastSlotWriterWins` | crates/execution/database/src/triedb.rs:299-311 | the last write to a slot decides it unless the account is destroyed later, whoever touches the account otherwise |
| `Store.IterationOrderIsIrrelevant` | crates/execution/database/src/triedb.rs:263-311 | writing a change map account by account has the same effect in every order |
| `TrieDb.TrieDatabase.BasicRef` | crates/execution/database/src/triedb.rs:156-188 | nonce, balance and code hash are the committed ones, and any code attached is the stored one |
| `TrieDb.TrieDatabase.WriteSlots` | crates/execution/database/src/triedb.rs:299-311 | written slots hold the new value, zeros are deleted, all other slots are untouched |
| `TrieDb.TrieDatabase.WriteAccount` | crates/execution/database/src/triedb.rs:266-311 | one account's update or deletion, code and slots together have the effect of its change alone |
| `TrieDb.TrieDatabase.WriteChanges` | crates/execution/database/src/triedb.rs:263-311 | whatever the iteration order, success has the effect of the change map; a failure counts only for the code written so far |
| `TrieDb.TrieDatabase.CommitBlock` | crates/execution/database/src/triedb.rs:251-325 | success applies exactly the transactions one after another and stores the header under the block's number; failure stores no header and leaves accounts and slots untouched unless only the header was missing |
| `CachedDb.CommitShowsOverlay` | crates/execution/database/src/cached.rs:217-246 | copying a change set into the three caches shows readers exactly the old view with the changes on top |
| `CachedDb.UncachedUntouched` | crates/execution/database/src/cached.rs:248-258 | a block whose changes are all cached and destroy nothing changes no uncached answer below |
| `CachedDb.CoherentAfterCommitIff` | crates/execution/database/src/cached.rs:248-258 | after committing any block the cache is coherent with the new database if and only if every cached account, slot and code survived the block |
| `CachedDb.CachedDatabase.BasicRef` | crates/execution/database/src/cached.rs:87-120 | a hit is answered from the cache, a miss by the database and remembered; either way as the overlay does, and filling the cache changes no later answer |
| `CachedDb.CachedDatabase.CodeByHashRef` | crates/execution/database/src/cached.rs:122-143 | a hit is answered from the cache, a miss is remembered unless empty; either way as the overlay does, and filling the cache changes no later answer |
| `CachedDb.CachedDatabase.StorageRef` | crates/execution/database/src/cached.rs:145-168 | answers as the overlay does; a cached zero reads like an absent slot |
| `CachedDb.CachedDatabase.Commit` | crates/execution/database/src/cached.rs:218-245 | readers then see the overlay of the old view, and every touched key is cached |
| `CachedDb.CachedDatabase.CommitBlock` | crates/execution/database/src/cached.rs:252-258 | the database gets exactly the block, and its header under the block's number; if nothing was destroyed no read through the cache changes; a failure stores no header |
| `Executor.RunDependsOnReads` | crates/execution/vm/src/executor.rs:135-144 | a transaction's outcome depends on the store only through its reads |
| `Executor.CachedRunEqualsUncached` | crates/execution/vm/src/executor.rs:81-120 | over a coherent cache, with the database written once per block, every transaction has the result of uncached execution with immediate writes |
| `Executor.BlockKeepsCoherence` | crates/execution/vm/src/executor.rs:81-120 | a completed block without self-destructs leaves cache and database in agreement |
| `Executor.CommittedShowsInNonces` | crates/execution/vm/src/executor.rs:144-147 | whatever a block has committed to the cache raised some nonce and lowered none |
| `Executor.FailedBlockCoherentIff` | crates/execution/vm/src/executor.rs:101-117 | whatever the failure was, as long as accounts and slots of the database are the old ones: a coherent cache stays so if and only if nothing had been committed to it |
| `Executor.AbortedBlockCoherentIff` | crates/execution/vm/src/executor.rs:101-107 | after a block that an EVM error broke off the cache is coherent if and only if its first transaction was the failing one |
| `Executor.AbortedBlockBreaksCoherence` | crates/execution/vm/src/executor.rs:101-107 | over every store a payment that counts its nonce, followed by a failing transaction, leaves the cache wrong |
| `Executor.BlockExecutor.ExecuteTx` | crates/execution/vm/src/executor.rs:122-175 | the result is that of the program over the old view, its changes are in the cache, and an error changes no answer |
| `Executor.BlockExecutor.ExecuteTxs` | crates/execution/vm/src/executor.rs:99-107 | each transaction ran over the effects of those before it, up to the first error, whether of the EVM or of a read |
| `Executor.BlockExecutor.ExecuteBlock` | crates/execution/vm/src/executor.rs:81-120 | success: exactly the block in the database and its header under its number, a coherent cache stays so if and only if what it holds survived, and without self-destructs the results are those of uncached execution; failure, of a transaction, a read or the commit: how far it got, what cache and database then hold, and when the cache is still coherent |
| `Executor.BlockExecutor.ExecuteBlocks` | crates/consensus/derivation-runner/src/runner.rs:274-283 | over consecutive blocks each header is the state after just its own block and all others stay; on a coherent cache, while nothing is destroyed, each block has the result of uncached execution over the state the block before it left |
| `Executor.OneMoreHeader` | crates/execution/database/src/triedb.rs:319-321 | storing a block's header under its own number keeps every earlier header the state after its own block |
| `BlobFee.FakeExponential` | crates/consensus/txmgr/src/gas.rs:213-242 | the loop with its early exit and stop gives the saturating sum of the first hundred terms, divided |
| `BlobFee.ExactIsPartialPlusRest` | crates/consensus/txmgr/src/gas.rs:213-242 | the unbounded loop, which ends for every positive denominator, splits after any number of terms |
| `BlobFee.FeeMonotone` | crates/consensus/txmgr/src/gas.rs:213-242 | monotone in factor and numerator, with saturation, rounding and the stop |
| `BlobFee.FeeBounds` | crates/consensus/txmgr/src/gas.rs:213-242 | at least the factor unless the first product saturates, and at most three times it while numerator is at most denominator |
| `BlobFee.CappedAtMostExact` | crates/consensus/txmgr/src/gas.rs:213-242 | saturation only makes terms and sums smaller |
| `BlobFee.CapLosesNothingIff` | crates/consensus/txmgr/src/gas.rs:235-238 | when the first hundred terms fit, the stop loses nothing if and only if term 100 is zero |
| `BlobFee.AgreesBelow` | crates/consensus/txmgr/src/gas.rs:213-242 | agreement with EIP-4844 at one numerator carries over to all smaller ones |
| `FeeTerms.LastExactTerm` | crates/consensus/txmgr/src/gas.rs:225-229 | at excess 109540081 term 100 of the series is zero |
| `FeeTerms.FirstInexactTerm` | crates/consensus/txmgr/src/gas.rs:225-229 | at the next excess it is one |
| `BlobFee.BlobFeeIsExact` | crates/consensus/txmgr/src/gas.rs:186-195 | for every excess up to 109540081 (more than 32 update fractions) the blob fee is EIP-4844's |
| `BlobFee.BlobSumExactIff` | crates/consensus/txmgr/src/gas.rs:213-242 | for every excess, saturated or not: the sum before the division is the original's if and only if the excess is at most 109540081 |
| `BlobFee.BlobFeeIsTooLow` | crates/consensus/txmgr/src/gas.rs:186-195 | for every excess from 126837720 on the fee is strictly below EIP-4844's |
| `BlobFee.ZeroExcessIff` | crates/consensus/txmgr/src/gas.rs:213-242 | with zero excess the fee is the factor if and only if the first product does not saturate |
| `BlockBuffer.ExecutedBlockBuffer.TryPush` | crates/common/sequencer/src/buffer.rs:126-142 | full exactly when no slot is free; a full or locked buffer is left as it was; success enqueues last and takes one slot |
| `BlockBuffer.ExecutedBlockBuffer.Push` | crates/common/sequencer/src/buffer.rs:91-113 | among any steps of other tasks slots stay conserved; a finished push has put its block last, and one that was not dropped is unfinished only while no slot is free |
| `BlockBuffer.ExecutedBlockBuffer.PendingBlocks` | crates/common/sequencer/src/buffer.rs:176-192 | drains exactly the queue, in order, and has given back at least as many slots by the time it returns |
| `BlockBuffer.ExecutedBlockBuffer.OtherTasks` | crates/common/sequencer/src/buffer.rs:91-192 | any interleaving of pushes, cancellations and drains keeps free, queued, acquired and owed slots equal to the capacity, and drained then queued blocks the enqueued ones |
| `BlockBuffer.ExecutedBlockBuffer.IsFull` | crates/common/sequencer/src/buffer.rs:155-157 | full exactly when every slot is queued, acquired or owed; a queue at capacity is full and none is above it |
| `BatchRunner.BatchSubmissionRunner.FetchBlocks` | crates/consensus/batch-runner/src/runner.rs:173-221 | takes the blocks as the source has them, stops early only at the first one it does not have or when the size target is reached, which no block before the last did; the cursor moves by what was fetched |
| `BatchRunner.BatchSubmissionRunner.SubmitBatch` | crates/consensus/batch-runner/src/runner.rs:293-356 | serialisation and compression errors are both reported as compression failures and keep the sink from being called; otherwise it is called once, with this number, the compressed blocks and a header that describes them, and only its error can follow |
| `BatchRunner.BatchSubmissionRunner.SubmitPending` | crates/consensus/batch-runner/src/runner.rs:232-278 | the sink is called with the pending blocks under the next number unless they cannot be prepared; accepted or not, the batch counts as attempted and the pending list is cleared; the fatal exit is never taken |
| `BatchRunner.BatchSubmissionRunner.RunOnce` | crates/consensus/batch-runner/src/runner.rs:134-284 | fetches what fits and the head promises, or one block without a backlog; then submits everything gathered exactly when a limit is reached or, without a backlog, the next block is missing; below both limits at each loop head |
| `BatchRunner.BatchSubmissionRunner.Run` | crates/consensus/batch-runner/src/runner.rs:125-285 | over any number of passes, with any heads and blocks, attempted batches and pending blocks tile the fetched range and the sink was called once, in order, for each batch that could be prepared |
| `BatchRunner.BatchSubmissionRunner.CallsCarryBatches` | crates/consensus/batch-runner/src/runner.rs:232-284 | the calls bear increasing numbers, and each carries the compressed blocks of the batch of its number under a header that describes them |
| `BatchRunner.BatchSubmissionRunner.SinkGetsBatch` | crates/consensus/batch-runner/src/runner.rs:293-340 | the sink gets attempted batch i if and only if serialisation and compression succeed, once and under number i; the data decode to its blocks, and the header names the blocks right after all earlier batches |
| `BatchRunner.BatchSubmissionRunner.BatchesTile` | crates/consensus/batch-runner/src/runner.rs:125-285 | attempted batch i holds the consecutive blocks right after all earlier batches |
| `BatchRunner.EstimateIsPerTransaction` | crates/consensus/batch-runner/src/runner.rs:181-184 | the estimated size is 256 bytes per transaction, however the blocks are grouped |
| `Migration.LastEntryWins` | crates/execution/migration/src/migrator.rs:197-218 | a key ends with the value of the last usable entry for it |
| `Migration.OtherKeysStay` | crates/execution/migration/src/migrator.rs:197-218 | a key that no usable entry is for keeps what the destination had |
| `Migration.Migrator.Migrate` | crates/execution/migration/src/migrator.rs:176-341 | whatever the batch size the committed result is the in-order fold of the usable entries and the two counts add up; a failure leaves the fold of whole batches |
| `Migration.MigrateAll` | crates/execution/migration/src/migrator.rs:373-389 | accounts first, each with its own two counts; it fails only at a migrator that can fail, and a failure in the first leaves storage untouched |
| `Sync.PositionAfter` | crates/node/node/src/sync.rs:217-233 | after n undisturbed ticks the stage stands n times the tick size further, but never beyond the goal |
| `Sync.ReachedAfter` | crates/node/node/src/sync.rs:217-233 | the goal is reached after n ticks if and only if n is at least the distance divided by the tick size, rounded up |
| `Sync.SyncStage.Initialize` | crates/node/node/src/sync.rs:133-154 | starts at the checkpoint with the tip as target; without a tip it fails and keeps the old target |
| `Sync.SyncStage.Tick` | crates/node/node/src/sync.rs:185-244 | takes over the tip when it is refreshed and fails without one; Complete exactly when the new target is near enough; otherwise it fetches consecutive blocks, never past target minus threshold, and stops early only at a block that is missing or whose fetch fails |
| `Sync.SyncStage.RunUntilComplete` | crates/node/node/src/builder.rs:438-485 | with a fixed tip and all blocks available, Complete comes on exactly tick ceil(distance / blocks per tick) + 1 |
| `Checkpoints.CheckpointFile.Save` | crates/node/checkpoint/src/lib.rs:68-86 | the file changes exactly when the renaming is reached, and then to the whole new checkpoint |
| `Checkpoints.CheckpointFile.SaveMany` | crates/node/checkpoint/src/lib.rs:49-86 | whatever file was there: after any cut-off saves it holds the last checkpoint that got as far as the renaming, or is the old one if none did, and loads unless it was torn before |
| `Checkpoints.LoadIsNeverAhead` | crates/node/node/src/builder.rs:491-597 | in every run of three holders with crashes and restarts, no field of any copy or of the file claims more than was truly done |
| `Checkpoints.ActiveStageOnlyGrows` | crates/node/node/src/builder.rs:491-557 | in the active stage no field of any copy decreases and the synced block stays |
| `Checkpoints.TraceDecides` | crates/node/node/src/builder.rs:491-597 | for batches submitted and derived and blocks synced and executed: in every run from the first start each copy and the file have the full count exactly when the trace of events says so |
| `Checkpoints.RestartKeepsProgressIff` | crates/node/checkpoint/src/lib.rs:68-86 | for all four fields: after every run a restart keeps the count if and only if the last save that reached the file was by an up-to-date holder and nothing new was made since |
| `Checkpoints.ValidatorSaveForgetsSubmission` | crates/node/roles/src/validator.rs:303-308 | a validator save after the sequencer's makes a restarted sequencer submit batch 1 again |
| `Checkpoints.SequencerSaveForgetsDerivation` | crates/node/roles/src/sequencer.rs:570-575 | a sequencer save after the validator's makes a restarted validator derive batch 1 again |
| `Derivation.TilesAreDisjoint` | crates/consensus/derivation-runner/src/runner.rs:291-298 | ranges given to successes lie in order and never share a block |
| `Derivation.RangesAreTrueIff` | crates/consensus/derivation-runner/src/runner.rs:289-302 | the reported ranges are where the executed blocks really lie if and only if every success was counted with its own number of blocks |
| `Derivation.UnknownCountIsWrongUnlessOne` | crates/consensus/derivation-runner/src/runner.rs:291 | the first success of a runner without recorded counts gets a true range if and only if its batch has one block |
| `Derivation.DerivationRunner.FinalizeBatch` | crates/consensus/derivation-runner/src/runner.rs:289-307 | the batch gets the range right after the last one, as long as its recorded count, or one block |
| `Derivation.DerivationRunner.DeriveBatch` | crates/consensus/derivation-runner/src/runner.rs:237-317 | for repeats and any order: exactly the batches at or below a positive checkpoint are skipped, and change nothing; successes execute the batch, are given as many blocks as recorded or one, and keep numbers increasing and ranges tiled; failures get no range and need a fault or undecodable data |
| `Derivation.DerivationRunner.DeriveMany` | crates/consensus/derivation-runner/src/runner.rs:237-317 | over any deliveries the successes tile the finalized range; without faults, decodable batches in order from the next one on succeed once each and exactly their blocks are executed, in order |

## Left out

- `BatchDriver`, `InMemoryBatchQueue` and its mutex-guarded wrappers, `apply_genesis`, `bump_gas_caps` and `GasCaps`: they would only add easy members.
- Serialisation and compression: one codec; the proofs that read blocks back assume what the compressor trait demands, that decompression undoes compression.
- EVM execution, hashing, RLP and transaction conversion: opaque. Hashes are assumed collision-free: code stored under a hash is the code the hash stands for.
- The trie engine: setting an account is taken to leave its slots alone, deleting it to remove them; the state root is represented by the state it commits to.
- Block hashes (`block_hash_ref`) and their cache: the database below always answers zero.
- Lock poisoning: a poisoned lock makes the cache's commit skip silently; no lock is poisoned here. Concurrent readers of one cache are taken one call at a time.
- Wall-clock time: whether time-based submission or a tip refresh is due is a parameter of each tick; checkpoint timestamps, latencies, rates and metrics other than the derivation counts do not appear.
- Callbacks, observers, events, logging, the L1-head callback of the validator, and pausing.
- Widths of counters: block numbers in the header are 64 bits wide and the blob fee is exact about saturation; other counters are unbounded.
- The layout of the binary heap: peeking is finding a least number. That a failed worker's number stays known is bookkeeping of the model; the program's error carries none.
- `SequencerRole.Sequencer.DrainLoop`: the program's loop may spin forever; here it is observed for a given schedule of polls, with an answer of its own when the schedule is over, and the proof that it ends without failures is a bound on the deliveries in the schedule.
- `SequencerRole.Sequencer.AwaitWorker`: whether the runtime lets a worker deliver between two polls is a parameter.
- `Transport.AnvilBatchSink.Submit`: the wait for a receipt is bounded by a patience parameter; giving up on it leaves the transaction where it is. A send that reports an error is taken not to have sent.
- `Transport.L1Node.Mine`: nobody but the sink posts to the inbox, and L1 does not reorganise.
- `Executor.AbortedBlockCoherentIff`: that every executed transaction counts a nonce and lowers none is assumed of the EVM; `Store.OverlayUnnoticedIff` needs no such assumption.
- `BlobFee.BlobFeeIsTooLow`: between 109540082 and 126837720 the sum is too small and the fee is right only where the division rounds the difference away; no condition on the excess alone is given there.
- `Checkpoints.TraceDecides`: a batch counts as submitted once the sink has its receipt; one that was sent without a receipt is treated in `EndToEnd.SourceNumbersAgreeIff` and `Restarts`.
- `ValidatorRole.Validator.ProcessBatch`: the blocks handed to the executor are recorded; the executor's errors are ignored, as in the program.
- `BatchRunner.BatchSubmissionRunner.Run`: the endless loop is any finite number of passes; what the block source answers is a parameter of each pass, in which no block is asked for twice.
- `BlockBuffer.ExecutedBlockBuffer.Push`: waiting is bounded by a patience parameter; a closed semaphore is not modelled because nothing closes it.
- `Checkpoints.LoadIsNeverAhead`: sync completion replaces the whole checkpoint, so progress fields can go down there; only that none is ever too high is claimed across it.
- The retry and failure handling of the node's main loop, configuration, command line and user interface.
