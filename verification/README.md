# Feldera I/O controller: a verified model

This project models the core of the Feldera pipeline's I/O controller and of the data structures it
rests on, and proves what they promise over all inputs, all runs and all reachable states.

| file | models |
|---|---|
| `Transactions.dfy` | the transaction that the API and the connectors start, join and commit together |
| `InputQueue.dfy` | the FIFO of input buffers with batch limits, partial takes and transaction marks |
| `Composition.dfy` | queues and transaction protocol running together |
| `Recovery.dfy` | journal, replay and background checkpoints under crashes |
| `Delivery.dfy` | what output endpoints make visible over the same runs |
| `FaultTolerance.dfy` | `FtState` and the journal, with the log of endpoint changes |
| `InputStep.dfy` | the input step and the offsets that a checkpoint records |
| `OutputThread.dfy` | the output buffer, the output thread and progress labels |
| `OutputEndpoints.dfy` | the registry of output endpoints, `push_output`, and transaction membership |
| `Backpressure.dfy` | the thread that extends and pauses input readers |
| `PolarityCursor.dfy` | the two-pass cursor that yields deletions before insertions |
| `StreamSplitter.dfy`, `LineSplitter.dfy` | the sliding byte buffer and its line splitter |
| `Common.dfy` | small shared types and sequence lemmas |

Code that updates fields in place is modelled by classes, each method tied to a specification on
values. Protocols between threads are state machines whose events are the threads' atomic steps;
clocks, parking, sockets and storage appear as parameters chosen freely by the environment, such as
the entries that other threads push while a lock is free, the results that arrive in each round of
an input step, or whether a timer has expired.

## Assumptions

- The circuit is a deterministic function of its state and the step's input.
- `Checkpoint::write` replaces the checkpoint atomically, and a journal record is durable once
  `Journal::write` returns.
- An input that replays by seeking delivers the same records again from the same offset; other
  inputs put their data into the journal.
- A fault-tolerant output endpoint discards a step that it has already output, and makes a batch
  visible only when it is complete.
- `Recovery` and `Delivery` fix the set of endpoints, keep journaling on, and have neither bootstrap
  nor transactions nor output buffering.
- In `Recovery` and `Delivery` no checkpoint begins after the pipeline is terminated; what one does is
  stated by itself, in `Recovery.LateCheckpointSafeIff`.
- A splitter answers with a position inside the data it is shown.
- Transaction ids, step numbers and record counts do not overflow 64 bits.

## What does not hold as one might expect

The code is modelled as it is. Where a promise fails, the exact condition for it is proved.

- Exactly-once output needs every step without input records to be silent, because checkpoints wait
  for record counts rather than steps (`Delivery.ExactlyOnceIffQuiet`, `Delivery.IdleOutputLost`).
- It also needs a terminated pipeline to send nothing of the step it is in, because that step is not
  journaled and its number will be used again (`Delivery.UnjournaledOutputSent`,
  `Delivery.AlwaysIffNothing`).
- A connector that is removed leaves its transaction open. Unless its reader still commits it, the
  transaction never commits, and a new connector of that name has its start refused
  (`Composition.ConnectSafeIff`, `Composition.ReaddedConnectorRefused`,
  `Composition.AbandonedNeverCommits`). The same happens to a new connector whose predecessor's reader
  has a start still to make (`Composition.ConnectBeforeLateStart`, `Composition.LateStartRun`).
- A checkpoint has the endpoints of the moment it begins, but the next journal record logs changes since
  the last one. If the names of the endpoints change in between, the journal cannot be replayed from the
  checkpoint (`FaultTolerance.CheckpointReplayable`, `FaultTolerance.AddedBeforeCheckpoint`,
  `FaultTolerance.RemovedBeforeCheckpoint`).
- A checkpoint may begin after termination, when inputs are being disconnected, and then lack offsets
  (`Recovery.LateCheckpointSafeIff`).
- The journal logs an added endpoint's configuration, not its paused state, so a pause or resumption
  between the addition and the next journal record is forgotten
  (`FaultTolerance.JournalRestoresEndpoints`). Checkpoints do record the paused state.
- Resume points are kept by name, so an endpoint that is removed and added again between steps can
  inherit its predecessor's offset, and a removed endpoint without an offset makes the next
  checkpoint panic (`InputStep.InputCollector.AddEndpoint`, `InputStep.RemovedBarrierPanics`).
- A buffered output endpoint reports 0 until it has seen a label, and an endpoint that gets batches
  before it has statistics may report less than it started from (`OutputThread.ReportOrder`,
  `OutputThread.ReportBeforeAnyLabel`, `OutputThread.EarlyPush`).
- The gauges of queued records and batches drop below zero for such an endpoint, and that of batches for
  one created during a transaction (`OutputThread.DrainedGauges`, `OutputThread.GaugeBelowZero`).
- An output endpoint may receive part of a transaction if it is registered after reading an older
  transaction number (`OutputEndpoints.WholeIff`, `OutputEndpoints.SplitTransaction`).
- An input queue entry with bytes but no records blocks `queue()` for good
  (`InputQueue.InputQueue.Queue`, `InputQueue.ResidueBlocks`).
- The default `count_keys` counts every key twice over the two-pass cursor
  (`PolarityCursor.CountKeys`).

## Model

| member | source | states |
|---|---|---|
| `Transactions.StepKeepsInv` | crates/adapters/src/controller.rs:3840-3970 | every start, commit and advance keeps: Started(t) means the initiators carry id t; Committing means no initiators; no transaction means an id is present exactly when someone is ongoing |
| `Transactions.ReachableInv` | crates/adapters/src/controller.rs:5090-5170 | over every sequence of calls the invariant holds, so no assertion or unwrap of the status update fails and its "invalid transaction state" branch is dead |
| `Transactions.CallsPerTransaction` | crates/adapters/src/controller.rs:3840-3954 | over every run with connectors among `names`: ids count up from 1, an initiator starts and commits each id at most once, an id accepts at most 2(c+1) calls, and what is left of that budget is 2*(not joined) + (started) |
| `Transactions.OngoingIffJoined` | crates/adapters/src/controller.rs:3783-3790 | a transaction is ongoing exactly if some initiator has started and not committed it |
| `Transactions.CallOutcome` | crates/adapters/src/controller.rs:3840-3954 | each call succeeds exactly when its initiator may make it; a refusal changes nothing; a success moves the phase of its initiator alone, unless it is the last commit of a transaction that never started, which is forgotten; no call changes the circuit's state |
| `Transactions.StartReturnsLoggedId` | crates/adapters/src/controller.rs:3840-3857 | the id returned to the client is the one under which the start counts |
| `Transactions.TagsKept` | crates/adapters/src/controller.rs:3889-3898 | a connector's label is the one it started with, whatever other calls follow |
| `Transactions.AdvanceCommits` | crates/adapters/src/controller.rs:5300-5304 | a started transaction in which nobody is left becomes a commit of the same id, without initiators, and that state is returned |
| `Transactions.AdvanceStarts` | crates/adapters/src/controller.rs:5294-5299 | a transaction that somebody has joined starts under the last id allocated, with its initiators kept, and that state is returned |
| `Transactions.AdvanceReports` | crates/adapters/src/controller.rs:5286-5316 | a state is returned exactly if it changed, which it does in just these two cases |
| `Transactions.ReportsAlternate` | crates/adapters/src/controller.rs:1943-2010 | over every run the states returned to the circuit alternate between the start and the commit of the same transaction, with growing ids, and the transaction in progress is the one reported last |
| `Transactions.EveryoneCommittedEnds` | crates/adapters/src/controller.rs:1943-2010 | after any run in which everyone has committed, the circuit's next advance and the end of its commit lead to no transaction and no initiators, and a started transaction is reported as committing |
| `Transactions.TransactionInfo.UpdateTransactionStatus` | crates/adapters/src/controller.rs:5090-5170 | the published status is "none" exactly when idle without initiators and "in progress" exactly when someone is ongoing, with a positive id otherwise; all of its assertions hold |
| `Transactions.TransactionInfo.StartTransactionFromApi` | crates/adapters/src/controller.rs:3840-3857 | succeeds exactly if the API takes no part yet and nothing is committing, then moves the API's phase alone and returns the id of the transaction; a refusal changes nothing; keeps the invariant |
| `Transactions.TransactionInfo.StartCommitTransactionFromApi` | crates/adapters/src/controller.rs:3859-3866 | succeeds exactly if the API has joined, and then moves its phase alone, except that a transaction that everybody committed before the circuit started it is forgotten; a refusal changes nothing |
| `Transactions.TransactionInfo.StartTransactionFromConnector` | crates/adapters/src/controller.rs:3869-3918 | succeeds exactly if the connector takes no part yet and nothing is committing, then moves its phase alone; a refusal changes nothing |
| `Transactions.TransactionInfo.CommitTransactionFromConnector` | crates/adapters/src/controller.rs:3920-3954 | succeeds exactly if the connector has joined, with the same effect as an API commit; the count of remaining participants never underflows |
| `Transactions.TransactionInfo.AdvanceTransactionState` | crates/adapters/src/controller.rs:5286-5316 | a started transaction that nobody is in any more starts to commit, a transaction that somebody has joined starts if the circuit is idle, and nothing else changes the state; the new state is returned exactly if it changed; the initiators are forgotten exactly if nobody is in; the id unwrapped on a start is present |
| `Transactions.TransactionInfo.SetCommitted` | crates/adapters/src/controller.rs:1995-1999 | a finished commit leads back to no transaction and keeps the invariant |
| `InputQueue.Fraction` | crates/adapters/src/static_compile/deinput.rs:594-613 | the share `num/denom` of `mul` rounded down to an integer, zero of nothing; it never exceeds the whole, and the full share is the whole |
| `InputQueue.TakeSome` | crates/adapters/src/static_compile/deinput.rs:493-507 | takes exactly min(n, len) records from the front with their share of the bytes, rounded down, conserves records, order and bytes, and leaves no bytes behind with the last record |
| `InputQueue.EntryShape` | crates/adapterlib/src/transport.rs:533-579 | an entry first starts a transaction, under its own label, if it asks for one and none is open, then flushes its records in order, then commits if it asks to and a transaction is open |
| `InputQueue.OpenMeans` | crates/adapterlib/src/transport.rs:483-507 | a transaction is open after some entries exactly if one was open or was asked for, and no entry from there on has a commit mark |
| `InputQueue.EffectsFlush` | crates/adapterlib/src/transport.rs:411-439 | whatever marks the entries carry, exactly their records are flushed, each once and in order |
| `InputQueue.LegalMeans` | crates/adapterlib/src/transport.rs:405-439 | a legal batch is one in which no entry follows one whose aux satisfies the stop predicate, and none with a buffer follows the limit or a successful commit |
| `InputQueue.EffectsAlternate` | crates/adapterlib/src/transport.rs:483-507 | starts and commits issued for any sequence of entries strictly alternate |
| `InputQueue.StartsAndCommitsAlternate` | crates/adapterlib/src/transport.rs:483-582 | over all flushes, however the entries were cut into batches and interleaved with pushes, starts and commits strictly alternate from a first start |
| `InputQueue.PushConserves` | crates/adapterlib/src/transport.rs:345-360 | a push keeps: done so far, then what the queue would do, is what everything ever pushed would do |
| `InputQueue.ConsumeConserves` | crates/adapterlib/src/transport.rs:411-439 | so does popping and processing an entry |
| `InputQueue.SplitConserves` | crates/adapterlib/src/transport.rs:552-567 | so does a partial take that puts the rest back in front: order is kept and a commit waits for all records of its entry |
| `InputQueue.InputQueue.PushEntry` | crates/adapterlib/src/transport.rs:345-360 | appends to the queue and keeps buffered minus extended equal to what is queued, in records and bytes |
| `InputQueue.InputQueue.FlushWithAuxUntil` | crates/adapterlib/src/transport.rs:399-473 | consumes, hashes and reports exactly a FIFO prefix despite pushes at the back, with one timestamp and aux value per entry; the prefix is a legal batch, in which records come only below the limit and before any commit, and only the last aux satisfies the stop predicate; neither half ends sooner than it must: the first reaches the limit, the stop or a commit unless it took all there was, and the second takes entries without a buffer until the stop, a commit, an entry with a buffer or the end |
| `InputQueue.InputQueue.Queue` | crates/adapterlib/src/transport.rs:525-582 | flushes exactly min(limit, records queued up to the first commit mark or blocking entry) records, which is what it reports; its effects are the next ones due; it issues at most a start and then a commit, and ends early only after an entry with a commit mark; an entry left with bytes but no records blocks the queue for good |
| `InputQueue.ResidueBlocks` | crates/adapterlib/src/transport.rs:552-567 | such an entry stops one round after another |
| `Composition.CallAccepted` | crates/adapters/src/controller.rs:5433-5469 | a call that a queue round still has to make is accepted by the controller |
| `Composition.StepKeepsAgree` | crates/adapters/src/controller.rs:2250-2291 | the flag of each connected queue is up exactly while the controller has its connector as a started participant; every step of API, connectors and circuit thread, every call that the reader of a removed connector still makes, and every connector that comes under a free name or goes, keeps that |
| `Composition.NeverRefused` | crates/adapterlib/src/transport.rs:525-582 | in every run in which connectors act through queue rounds and come only under names that have no transaction open and no reader at work, no start or commit of a connected connector is ever refused |
| `Composition.RunProjects` | crates/adapters/src/controller.rs:1943-2010 | every run of queues, connectors, API and circuit thread together is a run of the transaction protocol, call by call, so that all it promises holds of them |
| `Composition.CircuitAlternates` | crates/adapters/src/controller.rs:5286-5316 | so the circuit starts transactions one at a time and commits each before the next, whatever the connectors do |
| `Composition.CommitCompletes` | crates/adapters/src/controller.rs:1943-2010 | once everyone has committed, one pass of the circuit thread leaves no transaction and no initiators, so that every connector can be queued again |
| `Composition.StartHappens` | crates/adapters/src/controller.rs:5294-5299 | if somebody has joined while the pipeline is idle, one pass of the circuit thread starts the transaction |
| `Composition.ConnectSafeIff` | crates/adapters/src/controller.rs:3896-3914 | adding a connector under a name without a reader at work leads to no refusal in any future if and only if the name is not a started participant; one that has committed is harmless |
| `Composition.ConnectBeforeLateStart` | crates/adapterlib/src/transport.rs:224-232 | adding a connector while the removed reader of that name has a start still to make leads to a refusal in some future |
| `Composition.LateStartRun` | crates/adapters/src/controller.rs:5433-5469 | a connector removed before it makes its start and added again at once has its own start refused after the old one |
| `Composition.ReaddedConnectorRefused` | crates/adapters/src/controller.rs:4209-4219 | a connector that starts a transaction, is removed and is added again has its next start refused |
| `Composition.AbandonedNeverCommits` | crates/adapters/src/controller.rs:3783-3790 | the transaction of a connector that was removed before committing, and whose reader has finished, never commits in any run in which its name is not used again |
| `Recovery.ReplayReproduces` | crates/adapters/src/controller.rs:2814-2838 | replaying the record of a step from the offsets before it feeds the circuit exactly what the step consumed, and passes the count and hash check |
| `Recovery.StepKeepsInv` | crates/adapters/src/controller.rs:1875-1933 | every step of the circuit thread, checkpoint thread, output threads, every crash, every orderly end amid an unjournaled step and every reopening keeps: the journal covers all steps from the durable checkpoint to the present, and checkpoint, running checkpoint and process agree with one history of inputs |
| `Recovery.EveryRunRecoverable` | crates/adapters/src/controller.rs:5622-5829 | the same over every run, so no replay ever fails |
| `Recovery.RestartRebuilds` | crates/adapters/src/controller.rs:2617-2641 | after any crash, reopening and replaying from the durable checkpoint ends at the last journaled step with its circuit state, offsets and record count, even if that step had not executed |
| `Recovery.CrashLosesNothing` | crates/adapters/src/controller.rs:2617-2882 | in every reachable state between steps, crash, reopening and replay rebuild the same step number, circuit state, input positions, checkpoint offsets and record count |
| `Recovery.SourceReadOnce` | crates/adapterlib/src/transport.rs:183-221 | in every reachable state a rereading input has been consumed up to its offset, the i-th record consumed being the i-th of its source |
| `Recovery.TotalZero` | crates/adapters/src/controller.rs:1902-1905 | a step counts no records exactly if every input is empty |
| `Recovery.TotalRemove` | crates/adapters/src/controller.rs:2417-2422 | the record count of a step is a sum in which each input contributes the number of its records |
| `Recovery.TotalInsert` | crates/adapters/src/controller.rs:2417-2422 | an input that joins a step adds the number of its records |
| `Recovery.ProcessedIsConsumed` | crates/adapters/src/controller.rs:1902-1905 | in every reachable state the processed count is the number of records consumed by the executed steps, summed over the inputs |
| `Recovery.ReplayDetects` | crates/adapters/src/controller.rs:2820-2838 | whatever the sources hold by then, a replay of a record is accepted only for its own step and inputs, and only if each input flushes as many records with the same hash |
| `Recovery.CheckpointCompletes` | crates/adapters/src/controller.rs:5622-5829 | once every output has reported all input, an idle process can take a checkpoint, which covers the whole history and leaves the journal empty |
| `Recovery.ReopenedAfterCheckpoint` | crates/adapters/src/controller.rs:2617-2641 | a process reopened from it has nothing to replay, stands at the same point and has its outputs up to date |
| `Recovery.LateCheckpointSafeIff` | crates/adapters/src/controller.rs:1813-1828 | a checkpoint that begins after termination, and so includes a step that was not journaled, leaves a recoverable state if and only if it has the offset of every input that has one |
| `Delivery.CompletionSettles` | crates/adapters/src/controller.rs:5793-5819 | waiting until the checkpoint's record count is completed means that all outputs of earlier steps are visible or empty |
| `Delivery.StepKeepsDelivery` | crates/adapters/src/controller.rs:2407-2475 | every step keeps: visible batches are genuine, in order, unrepeated, have gaps only at empty steps before the checkpoint, and everything executed since reopening is visible or queued |
| `Delivery.VisibleIsPrefix` | crates/adapterlib/src/transport.rs:925-936 | at every moment of every run whose orderly ends send nothing unjournaled, the non-empty visible batches are exactly those of the first steps of an uninterrupted execution |
| `Delivery.DeliveredExactlyOnce` | crates/adapters/src/controller.rs:4744-4765 | in such a run, once replay is over and the queue drained, every non-empty batch of every step is visible exactly once, in order, across any crashes |
| `Delivery.IdleOutputLost` | crates/adapters/src/controller.rs:5793-5804 | a step without input may be checkpointed before its output is sent, and a crash then loses that output |
| `Delivery.ExactlyOnceIffQuiet` | crates/adapters/src/controller.rs:5793-5819 | outputs are delivered exactly once in all such runs of a pipeline if and only if its steps that consume no records output nothing |
| `Delivery.UnjournaledOutputSent` | crates/adapters/src/controller.rs:2775-2780 | from any delivered state, a pipeline that is terminated amid a step may send output of a step that no journal has, under a number that the next step will use again |
| `Delivery.AlwaysIffNothing` | crates/adapters/src/controller.rs:4684-4690 | if orderly ends may send unjournaled output, exactly-once output holds in all runs if and only if the pipeline never outputs anything |
| `FaultTolerance.ReplayRestoresNames` | crates/adapters/src/controller.rs:2722-2758 | replaying a record succeeds and restores the set of endpoints if and only if it starts from the endpoints of the record before, whatever their paused flags |
| `FaultTolerance.ReplayRestoresEndpoints` | crates/adapters/src/controller.rs:2722-2758 | it also restores the paused flags if and only if, besides, each flag is told: changed in the record, right before it, or agreeing with the configuration of a new endpoint |
| `FaultTolerance.JournalRestoresEndpoints` | crates/adapters/src/controller.rs:2851-2873 | replaying a whole journal succeeds and restores the set of endpoints if and only if it starts from the endpoints before its first record; then each paused flag comes out right if and only if a record logs a change of it or it was right when the endpoint first appeared |
| `FaultTolerance.CheckpointReplayable` | crates/adapters/src/controller.rs:5631-5646 | replay starts from the endpoints that were connected when the checkpoint began, so the journal can be replayed from it if and only if these are, by name, the endpoints of the last record before it |
| `FaultTolerance.AddedBeforeCheckpoint` | crates/adapters/src/controller.rs:4239-4246 | with an endpoint added between the last record and the checkpoint, replay fails on a duplicate name |
| `FaultTolerance.RemovedBeforeCheckpoint` | crates/adapters/src/controller.rs:2734-2737 | with an endpoint removed between the last record and the checkpoint, replay fails on an unknown name |
| `FaultTolerance.PauseAfterAddIsForgotten` | crates/adapters/src/controller.rs:2794-2800 | an endpoint added and then paused within a step comes back running |
| `FaultTolerance.ReplayedName` | crates/adapters/src/controller.rs:2722-2758 | after a replay exactly the endpoints that were kept or added are there, each with the logged change of its flag, or else paused if it is new and its configuration says so or waits for others, or else as before |
| `FaultTolerance.ReplayableIff` | crates/adapters/src/controller.rs:2722-2758 | a record can be replayed exactly if every endpoint it removes is there, every endpoint it adds is not or is removed first, and every endpoint that it pauses, resumes or has a log of is there afterwards |
| `FaultTolerance.ChecksumsDecideReplay` | crates/adapters/src/controller.rs:2820-2838 | comparing checksums accepts exactly the replays that the recovery machine accepts |
| `FaultTolerance.Removals` | crates/adapters/src/controller.rs:2780-2793 | logs exactly the names of endpoints that are gone |
| `FaultTolerance.Changes` | crates/adapters/src/controller.rs:2782-2788 | logs exactly the endpoints whose paused state changed, with the new state |
| `FaultTolerance.Additions` | crates/adapters/src/controller.rs:2795-2800 | logs exactly the new endpoints, with their configuration |
| `FaultTolerance.FtState.Open` | crates/adapters/src/controller.rs:2619-2641 | replays exactly if the journal has a record for the checkpoint's step, carrying out its endpoint changes and handing its logs to the readers; fails exactly if that record is for another step or cannot be carried out, as `ReplayableIff` says |
| `FaultTolerance.FtState.WriteStep` | crates/adapters/src/controller.rs:2762-2840 | journals the step, each endpoint's log as it was reported and a true account of endpoint changes, or checks a replay and fails exactly on different endpoints, record counts or hashes; panics exactly if a result cannot be replayed; writes nothing when disabled, replaying or terminated |
| `FaultTolerance.FtState.NextStep` | crates/adapters/src/controller.rs:2851-2873 | replay goes on exactly while the journal has the next step, carrying out its endpoint changes and handing its logs to the readers; fails exactly as opening does |
| `FaultTolerance.FtState.Checkpointed` | crates/adapters/src/controller/journal.rs:79-113 | deletes exactly the records before the checkpointed step |
| `InputStep.ExactAfterStep` | crates/adapters/src/controller.rs:2257-2384 | after a step the metadata holds every connected endpoint's latest resume point if and only if it did so before for the endpoints that were skipped |
| `InputStep.BarriersAfterStep` | crates/adapters/src/controller.rs:2361-2384 | after a step an endpoint's barrier flag is set exactly if its recorded resume point is a barrier |
| `InputStep.InputCollector.AddEndpoint` | crates/adapters/src/controller.rs:4221-4264 | refuses duplicate names, uses a fresh id, and keeps the metadata exact if and only if it has nothing else under the new endpoint's name |
| `InputStep.InputCollector.RemoveEndpoint` | crates/adapters/src/controller.rs:4209-4219 | keeps the metadata exact for the others |
| `InputStep.InputCollector.Partition` | crates/adapters/src/controller.rs:2250-2291 | waits for exactly the endpoints that are at a barrier, if only those are wanted, and have not committed; takes the resume points of exactly the others |
| `InputStep.InputCollector.Poll` | crates/adapters/src/controller.rs:2299-2338 | takes exactly the results that have arrived from connected endpoints, drops endpoints that are gone and disconnects exactly those that have closed without a result |
| `InputStep.InputCollector.InputStep` | crates/adapters/src/controller.rs:2164-2412 | does nothing while bootstrapping or committing; a completed step has the first result of exactly the endpoints that take part (at a barrier if only those are wanted, and not committed) and are still there, and of none that do not; it returns the total of their amounts, records their resume points, keeps those of the others, leaves only connected endpoints in the metadata, with agreeing barrier flags, and is exact if and only if the skipped ones were |
| `InputStep.InputCollector.ReplayStep` | crates/adapters/src/controller.rs:2385-2405 | a completed replay of a record leaves its logged offsets as the metadata, which is exact if and only if no endpoint without a log has ever reported |
| `InputStep.InputCollector.BeginCheckpoint` | crates/adapters/src/controller.rs:5044-5087 | refused for good exactly without storage or with an endpoint that cannot resume, and for now exactly while restoring, bootstrapping, in a transaction or at a barrier; when the metadata is exact and fault-tolerant endpoints report resume points, the offsets are the latest ones, and taking them panics if and only if an endpoint removed since the last step left no offset behind |
| `InputStep.InputCollector.StepThenCheckpoint` | crates/adapters/src/controller.rs:5648-5657 | right after a complete step the metadata is exact and a checkpoint does not panic |
| `InputStep.InputCollector.Serve` | crates/adapters/src/controller.rs:2330-2384 | over any history of additions, removals, steps and checkpoints, as long as additions fit the metadata and fault-tolerant endpoints report resume points, no checkpoint panics unless an endpoint was removed since the last step |
| `InputStep.RemovedBarrierPanics` | crates/adapters/src/controller.rs:5648-5657 | an endpoint that reports a barrier and is then removed makes the next checkpoint panic |
| `InputStep.ReaddedEndpointInheritsOffset` | crates/adapters/src/controller.rs:2252-2266 | an endpoint removed and added again under its name between steps inherits an offset that it never reported |
| `OutputThread.Conservation` | crates/adapters/src/controller.rs:4684-4765 | per row, encoded plus buffered plus queued weight is the weight of everything pushed |
| `OutputThread.DataMeans` | crates/adapters/src/controller.rs:3640-3668 | an item has the updates of all its batches, and each row has in it the sum of its weights in them |
| `OutputThread.LastLabelMeans` | crates/adapters/src/controller.rs:3662-3665 | the last label is that of a labelled item that no labelled item follows |
| `OutputThread.OnlyEarlyMeans` | crates/adapters/src/controller/stats.rs:2105-2122 | the labels are only early ones exactly if each belongs to an item pushed before the statistics and lies below the initial count |
| `OutputThread.ReportOrder` | crates/adapters/src/controller/stats.rs:2105-2122 | a report is lower than what was reported before if and only if it is the first and every label taken so far, if any, was pushed before the endpoint had statistics and lies below the initial count |
| `OutputThread.DrainedGauges` | crates/adapters/src/controller/stats.rs:2100-2145 | with a drained queue the record gauge lacks exactly the records pushed before the endpoint had statistics, and the batch gauge wraps below zero if and only if there was such an item with data or any item without |
| `OutputThread.OutputBuffer.Insert` | crates/adapters/src/controller.rs:3640-3668 | the buffer becomes the sum of what it held and all parts of the batch, and takes over the step and the label, if any |
| `OutputThread.OutputThread.AddStatistics` | crates/adapters/src/controller/stats.rs:613-636 | the reported count starts at the records processed when the statistics are created, which may be after the first pushes |
| `OutputThread.OutputThread.Push` | crates/adapters/src/controller.rs:2439-2469 | appends the item and counts it in the gauges exactly if there are statistics and it has data; keeps the thread's invariant, before and after there are statistics, for labels that do not decrease |
| `OutputThread.OutputThread.Flush` | crates/adapters/src/controller.rs:4698-4718 | the encoder then has the net content of everything taken from the queue, and the last label is reported |
| `OutputThread.OutputThread.Turn` | crates/adapters/src/controller.rs:4684-4780 | a held buffer of at least the maximum number of updates, or whose timer has expired, is sent whole under the last step and reported; otherwise nothing is flushed, and one item, if there is one, is buffered or sent; conservation is kept; a report of p means that the net content of everything up to an item labelled p, and on to the last item taken, has reached the encoder, also when a flush falls inside a transaction; a report falls below the previous one exactly as `ReportOrder` says |
| `OutputThread.ReportBeforeAnyLabel` | crates/adapters/src/controller.rs:4730-4742 | a buffered endpoint created during a transaction reports 0, below its initial count |
| `OutputThread.GaugeBelowZero` | crates/adapters/src/controller/stats.rs:2100-2145 | the batch gauge of an endpoint created during a transaction is -1 after its first entry |
| `OutputThread.EarlyPush` | crates/adapters/src/controller.rs:4607-4636 | an unbuffered endpoint that gets a batch before its statistics has both gauges at -1 and reports less than its initial count |
| `OutputEndpoints.OutputEndpoints.Insert` | crates/adapters/src/controller.rs:3555-3571 | a fresh id joins both indexes, and the stream's enable count stays the size of its set |
| `OutputEndpoints.OutputEndpoints.Remove` | crates/adapters/src/controller.rs:3573-3583 | the id leaves both indexes; the count is positive before it is decremented |
| `OutputEndpoints.OutputEndpoints.PushStream` | crates/adapters/src/controller.rs:2433-2469 | every endpoint of the stream is found and gets one item; the batch is still there for each of them although the last may consume it |
| `OutputEndpoints.OutputEndpoints.PushOutput` | crates/adapters/src/controller.rs:2431-2475 | every registered endpoint gets exactly one item at the end of its queue, for the step and with the label: its own stream's batch, or no data in the transaction it was created in; nothing else changes |
| `OutputEndpoints.WholeIff` | crates/adapters/src/controller.rs:4607-4621 | a registration leads to whole transactions in every future if and only if the number it read is still current or nothing was pushed under the current number |
| `OutputEndpoints.AtomicCreationWhole` | crates/adapters/src/controller.rs:1943-2010 | with atomic creation an endpoint receives, for each transaction number, all batches pushed under it or none, in every run |
| `OutputEndpoints.SplitTransaction` | crates/adapters/src/controller.rs:4607-4621 | an endpoint registered with an older number after the first push of a transaction receives only the rest of it |
| `Backpressure.VisitKeepsSync` | crates/adapterlib/src/transport.rs:183-203 | a visit keeps an endpoint in step with its commands if and only if nothing changes for it or its reader is set |
| `Backpressure.BackpressureThread.Pass` | crates/adapters/src/controller.rs:3326-3358 | one pass sends Extend or Pause to exactly the endpoints whose state changes, and takes exactly those as running that `Serve` says |
| `Backpressure.BackpressureThread.Serve` | crates/adapters/src/controller.rs:3321-3362 | over any history, commands to each endpoint whose reader is set whenever it is visited alternate starting with Extend, whatever other endpoints do; after each pass exactly the endpoints that are not paused by the user and have fewer records buffered than they may queue are taken as running, and only while the pipeline runs and is not bootstrapping |
| `PolarityCursor.FromStep` | crates/adapterlib/src/catalog.rs:602-605 | what is left before a move is the current tuple, if the pass wants it, and then what is left after |
| `PolarityCursor.CursorWithPolarity.AdvanceVal` | crates/adapterlib/src/catalog.rs:503-511 | terminates, loses nothing, and rests only on a tuple of the pass's sign |
| `PolarityCursor.CursorWithPolarity.StepVal` | crates/adapterlib/src/catalog.rs:602-605 | what was left is the current tuple followed by what is left |
| `PolarityCursor.CursorWithPolarity.StepKey` | crates/adapterlib/src/catalog.rs:590-600 | moves to the next key, or from the end of the first pass to the second |
| `PolarityCursor.CursorWithPolarity.RewindKeys` | crates/adapterlib/src/catalog.rs:607-613 | from any point, restarts the whole sequence |
| `PolarityCursor.Drain` | crates/adapterlib/src/catalog.rs:484-619 | the nested key/value loop terminates and yields every deletion in cursor order, then every insertion in cursor order |
| `PolarityCursor.WantedIsFilter` | crates/adapterlib/src/catalog.rs:475-483 | a pass yields exactly the tuples of its sign, each once and no zero weights |
| `PolarityCursor.CountKeys` | crates/adapterlib/src/catalog.rs:439-447 | the default key count counts every key twice over this cursor |
| `PolarityCursor.UniqueKeySafety` | crates/adapterlib/src/catalog.rs:475-483 | applying the difference of two tables with a unique key in cursor order never inserts a row whose key is present, and ends at the new table |
| `PolarityCursor.OnePassIsUnsafe` | crates/adapterlib/src/catalog.rs:475-483 | a plain cursor order can insert a row whose key is present |
| `StreamSplitter.BoundaryKeeps` | crates/adapters/src/format.rs:131-147 | cutting at a boundary keeps the stream: returned then live is what was supplied, and the splitter has accepted each byte once, in order |
| `StreamSplitter.StreamSplitter.Next` | crates/adapters/src/format.rs:131-154 | returns the live bytes up to the boundary, or all of them at the end of input, and shows the splitter just the bytes it has not seen |
| `StreamSplitter.StreamSplitter.Append` | crates/adapters/src/format.rs:156-169 | adds the data to the live bytes and moves nothing else |
| `StreamSplitter.StreamSplitter.Read` | crates/adapters/src/format.rs:172-203 | adds what was read to the live bytes, up to the limit, and keeps all indices in range |
| `StreamSplitter.StreamSplitter.Position` | crates/adapters/src/format.rs:206-209 | is the offset of the last seek plus the bytes returned since |
| `StreamSplitter.StreamSplitter.Seek` | crates/adapters/src/format.rs:212-217 | starts a new stream at the offset |
| `LineSplitter.LineInput` | crates/adapters/src/format.rs:91-98 | the position just after the last newline, or none if there is no newline |
| `LineSplitter.LinesAppend` | crates/adapters/src/format.rs:91-98 | cutting a text after a newline cuts its lines |
| `LineSplitter.LinesShape` | crates/adapterlib/src/format.rs:235-249 | a newline occurs only at the end of a line, and every line but the last has one |
| `LineSplitter.LinesConcat` | crates/adapterlib/src/format.rs:235-249 | the lines of a text make up the text |
| `LineSplitter.Drain` | crates/adapters/src/format.rs:131-154 | terminates with the text after the last newline as the fragment |
| `LineSplitter.Finish` | crates/adapters/src/format.rs:131-154 | with the end of input, terminates with nothing left |
| `LineSplitter.Session` | crates/adapters/src/format.rs:116-217 | for any interleaving of appends and pulls the chunks' lines are those of the whole input, and every chunk but the last ends in a newline |

## Left out

- The rollbacks after circuit errors in `step_circuit`: after a failed commit they restore a started transaction whose initiators are gone, which the transaction invariant does not cover.
- Journaling mixed with transactions, bootstrap or added and removed inputs, and endpoints that close during replay: `Recovery` has a fixed set of inputs and one journal record per step.
- The documented rule that a reader is queued only after it was extended: the input step queues every reader, so it is not claimed.
- Aux-only queue entries that start a transaction right after a commit in the same flush: `Composition` covers connectors that use `queue()`.
- Composition.ConnectSafeIff: says nothing about names whose removed reader has other calls to make than a start of a new transaction, where it depends on the other participants whether a refusal can follow.
- InputStep.InputCollector.AddEndpoint: checks the name and registers in one step, while the original releases its lock in between and relies on names being unique.
- FaultTolerance.FtState.Open: has the endpoint changes of a record take effect together, not one by one, so it does not say how far a failed replay got.
- OutputThread.OutputBuffer.Insert: models the trace by its number of updates and its net weights, both of which merging may rearrange, not as a spine of sorted batches, and leaves the timer to the environment.
- StreamSplitter.StreamSplitter.Read: models the buffer as a sequence that is copied and resized, not as memory with a capacity.
- Input and output watermarks, completion tokens, step triggers, metrics other than the modelled gauges, samply spans and logging.
- Parsers, encoders, transports, HTTP handlers, ad-hoc queries, configuration, the DBSP circuit and the storage backends.
- The Python SDK, demos, documentation, build scripts and benchmarks.
