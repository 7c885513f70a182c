# Wire, verified in Dafny

Wire is a distributed stream-processing engine. Its guarantees (aligned checkpoints, exactly-once
sinks, fenced coordinator decisions, lease leadership, key-group rescaling, event-time windows) come
from small state machines and a few algorithms. This project models those in Dafny and proves what
they promise, for every input and for every interleaving.

`dafny verify dfyconfig.toml` checks everything.

## How the model is laid out

| component | modules |
|---|---|
| checkpoint cut | `Alignment` (the barrier aligner as a class), `ConsistentCut` (readers and chain as interleaved steps), `CutInvariants`, `CutTheorems`, `CutRuns`, `CutProgress` |
| transactional sink | `ExactlyOnce` (source, chain, sink, coordinator, crash and restore as steps), `ExactlyOnceProof`, `ExactlyOnceRuns`, `ExactlyOnceProgress`, `TransactionalChain` (source reader, chain and sink as classes whose handlers are paths of those steps) |
| lease election | `LeaseElection` (timed steps over a compare-and-swap register), `LeaseSafety`, `LeaseTightness`, `LeaseProgress`, `LeaseClient` (the client as a class) |
| coordinator | `Decisions` (requests, crashes and recoveries over the metadata store), `DecisionInvariants`, `DecisionRuns`, `DecisionHistory`, `DecisionOutcomes`, `CoordinatorObject` (the coordinator as a class) |
| key groups and rescale | `KeyGroups`, `StateKeys`, `RescalePlan`, `PlanProperties`, `StateRescale`, `RescaleTheorem` |
| windows and watermarks | `Windows` (the processor as a class), `WindowShape`, `WindowSessions`, `WindowSessionRuns`, `WindowEmission`, `WindowRuns`, `WindowAssign`, `WindowLateness`, `Watermarks`, `WindowStats`, `WindowSnapshot`, `WindowRestore` |
| graph planning | `Graphs`, `TopologicalSort`, `CycleDetection`, `PhysicalPlan`, `PhysicalTasks`, `OutputRouter` |
| in-memory backend | `SnapshotCodec`, `SortedBackend` |
| shared | `Basics` (options, bounds and modular arithmetic), `Paths` (sequences of actions) |

A protocol is a datatype of states, one function for each step, an `Enabled` predicate and a `Run`
predicate over sequences of states and actions; theorems quantify over every run. Beside what never
happens stand paths that are always open, so that no theorem holds of a machine that does nothing.
Code that changes fields or loops is a class or a method whose `ensures` ties it to those functions.

## What came out

- **Stream order is not kept by every release.** When a checkpoint is aborted or inputs are drained,
  the chain empties the input queue and only then takes the side buffers
  (`internal/engine/operator_chain.go:634-656, 686-693`). In between, a reader can queue one record,
  pass its barrier and side-buffer the next, which is then processed first.
  `CutRuns.AbortCanOvertakeQueue` is such a run; `CutTheorems.ReleaseKeepsOrderIffClean` and
  `CutRuns.OrderIffReleasesClean` give the exact condition. Records are never lost or duplicated, and
  every captured cut is exact, in every run.
- **Lease exclusion is exactly the duration rule.** With two or more nodes, exclusion holds in every
  timed run if and only if each node's renewal deadline is at most its lease
  (`LeaseTightness.ExclusiveExactlyWhenOutlasting`).
- **A restored backend finds every entry exactly when the snapshot was sorted.**
  `HashMapStateBackend.Restore` does not look at key order (`internal/engine/state_backend_hashmap.go:178-207`).
  `SortedBackend.UnsortedSnapshotLosesKey` is a snapshot it accepts and in which the binary search
  misses a stored key; `SortedBackend.FoundExactlyWhenSorted` and, for lookups on distinct keys,
  `SortedBackend.AnswersExactlyWhenSorted` give the exact condition. Every snapshot that
  `Checkpoint` writes is sorted.
- **Snapshot lengths are cast to 32 bits, on both sides.** The encoder truncates counts and lengths,
  and the decoder truncates its own bound on the count
  (`internal/engine/state_backend_hashmap.go:286-321, 324-347`). So lengths that fit are not enough:
  `SnapshotCodec.LargeSnapshotIsRefused` is a snapshot of fitting lengths the decoder refuses. The
  round trip holds if and only if the snapshot is `Carried` (`SnapshotCodec.DecodeEncodedSnapshot`),
  which every snapshot below 32 GiB with fitting lengths is (`SnapshotCodec.SmallIsCarried`).
- **A comment and the code disagree.** The comment at `internal/engine/operator_chain.go:681-684` says
  shutdown aborts a prepared transaction; the deferred cleanup (lines 125-137) leaves it alone once
  its decision is pending. The model follows the code.
- **The planner's coverage check is redundant** once the tilings hold (`PlanProperties.CoverageIsRedundant`).

## Assumptions

- The external sink's `Commit` is idempotent and its recovery aborts every transaction but the
  completed checkpoint's, as the `TransactionalSink` contract demands.
- Checkpoint identifiers grow with the epoch, as the coordinator allocates them.
- Metadata writes are atomic batches; a failed write changes nothing.
- A restarted task finds no checkpoint open: the coordinator aborts the in-flight one before it
  deploys again (`internal/coordinator/task_restart.go:49-57`).
- Clocks advance at one rate, the Lease register is linearizable, and each renewal writes a
  specification never written before.
- Operators are deterministic functions of a record and a state that checkpoints capture.

## Model

| member | source | states |
|---|---|---|
| Alignment.CountsEveryInput | internal/engine/barrier.go:99-103 | the number of arrivals equals the number of inputs exactly when each input has arrived |
| Alignment.AlignedMeansEveryInput | internal/engine/barrier.go:99-103 | a complete count means the active checkpoint's barrier arrived on every input |
| Alignment.RetiredOnlyGrows | internal/engine/barrier.go:305-313 | the retirement mark never moves back, whatever is called |
| Alignment.AbortFencesBarrier | internal/engine/barrier.go:317-336 | after an abort, a delayed barrier of that checkpoint starts nothing |
| Alignment.HoldsBackExactly | internal/engine/barrier.go:192-264 | an input is held back exactly by an alignment its barrier has reached: records while there is room, a newer barrier while it lasts |
| Alignment.AlignerStaysValid | internal/engine/barrier.go:44-70 | every operation keeps arrivals, buffers and the active identity consistent |
| Alignment.BarrierAligner.constructor | internal/engine/barrier.go:31-39 | a new aligner is valid and empty |
| Alignment.BarrierAligner.OnBarrier | internal/engine/barrier.go:44-70 | ignores retired and foreign identities, registers the arrival otherwise; the fields become the specified value |
| Alignment.BarrierAligner.BufferAlignedEvent | internal/engine/barrier.go:192-216 | for any input number: side-buffers only past its barrier, waits when full, otherwise leaves the record to the caller |
| Alignment.BarrierAligner.WaitForPriorAlignment | internal/engine/barrier.go:244-264 | waits exactly while another checkpoint holds this input |
| Alignment.BarrierAligner.TakeBuffers | internal/engine/barrier.go:228-238 | returns all buffers, input by input and in order, and leaves them empty |
| Alignment.BarrierAligner.FinishAlignment | internal/engine/barrier.go:220-240 | releases and retires the active checkpoint, and nothing for another identity |
| Alignment.BarrierAligner.AbortAlignment | internal/engine/barrier.go:317-336 | retires the identity and releases the buffers exactly when it was active |
| Alignment.BarrierAligner.BeginDrain | internal/engine/barrier.go:268-284 | releases everything and stops further alignment |
| CutInvariants.InvStep | internal/engine/input_reader.go:158-226 | the invariant of readers, aligner, queue and chain survives every step of every component |
| CutTheorems.ConservedStep | internal/engine/operator_chain.go:403-724 | every record read stays in exactly one of processed, released, queue, side buffer or a reader's hand |
| CutTheorems.TrailStep | internal/engine/operator_chain.go:466-568 | outside abort and drain releases, a step appends to an input's trail exactly the record it reads |
| CutTheorems.CaptureIsExact | internal/engine/operator_chain.go:478-530 | when the chain captures, the records processed from each input are exactly those before its barrier |
| CutTheorems.CaptureKeepsOrder | internal/engine/operator_chain.go:478-530 | with order kept so far, they were processed in stream order |
| CutTheorems.SplitStep | internal/engine/operator_chain.go:537-547 | each forwarded barrier stands in the output exactly at its snapshot's cut |
| CutTheorems.ReleaseKeepsOrderIffClean | internal/engine/operator_chain.go:634-656 | an abort or drain release keeps stream order if and only if no input whose buffer is released has queued records |
| CutRuns.EveryCutIsConsistent | internal/engine/operator_chain.go:466-568 | in every run: nothing lost or doubled, every snapshot an exact cut, every barrier at its cut |
| CutRuns.CapturedOnce | internal/engine/barrier.go:305-313 | no checkpoint identity is captured twice in a run |
| CutRuns.OrderIffReleasesClean | internal/engine/operator_chain.go:679-693 | a run keeps per-input order throughout if and only if each of its releases was clean |
| CutRuns.CutsInOrder | internal/engine/operator_chain.go:466-568 | on such a run every snapshot has processed each input's prefix in order |
| CutRuns.AbortCanOvertakeQueue | internal/engine/operator_chain.go:634-656 | a concrete run in which an abort release lets a later record overtake a queued one |
| CutProgress.AlignedIsCaptured | internal/engine/operator_chain.go:466-536 | a barrier that has arrived on every input is captured: the queue is processed, then exactly one snapshot of it is taken, of exactly the records processed |
| CutProgress.CapturedIsReleased | internal/engine/operator_chain.go:537-568 | then the barrier is forwarded, alignment is over, no reader is held back, and the held records are replayed or deferred |
| CutProgress.CheckpointRound | internal/engine/operator_chain.go:466-568 | the whole round: queued records, snapshot and barrier, then what alignment held back |
| CutProgress.BarrierCanBeCaptured | internal/engine/input_reader.go:158-226 | from any reachable state in which all readers stand before a barrier and the chain is free, the barrier can be aligned and captured |
| CutProgress.CommitReleases | internal/engine/operator_chain.go:570-592 | a commit of the prepared checkpoint opens the chain again and processes every deferred record and end of input |
| CutProgress.AbortReleasesAll | internal/engine/operator_chain.go:624-656 | an abort processes what was queued and held back, captures nothing and frees the readers |
| CutProgress.AbortStopsPrepared | internal/engine/operator_chain.go:593-623 | an abort of the prepared checkpoint stops the chain |
| CutProgress.DrainInputsReleasesAll | internal/engine/operator_chain.go:679-693 | draining the inputs processes everything queued and held back |
| CutProgress.LastDrainsQueue | internal/engine/operator_chain.go:658-701 | the last end of input, and a shutdown while draining, process the queue before the chain exits |
| CutProgress.EndWaitsForCommit | internal/engine/operator_chain.go:442-449 | an end of input behind a prepared transaction is kept |
| CutProgress.OtherTermIsIgnored | internal/engine/operator_chain.go:428-433 | messages of another term leave a prepared transaction alone |
| CutProgress.ContradictionStops | internal/engine/operator_chain.go:450-454 | another barrier while prepared, or a commit of something else, stops the chain |
| CutProgress.EarlyAndRepeatedAreIgnored | internal/engine/operator_chain.go:466-470 | a barrier not aligned yet or already prepared, and a repeated commit, change nothing |
| ExactlyOnceRuns.InvAt | internal/engine/operator_chain.go:121-138 | the exactly-once invariant holds in every state of every run |
| ExactlyOnceRuns.CommittedIsOutputOfCut | internal/engine/operator_chain.go:466-623 | in every run, with crashes, aborts and restores, the published log equals the operators' output on the source prefix of the last committed checkpoint |
| ExactlyOnceRuns.EndedMeansAllPublished | internal/engine/operator_chain.go:704-731 | a task that ends has published the output of its whole source |
| ExactlyOnceRuns.RestoreResolvesTransaction | internal/engine/checkpoint_restore.go:62-113 | before a restored task reads a record the completed checkpoint's transaction is published |
| ExactlyOnceRuns.OnlyCompletedPublishes | internal/engine/operator_chain.go:570-592 | a step publishes only the latest completed checkpoint's prepared transaction, whole |
| ExactlyOnceRuns.ReportedSurvives | internal/engine/operator_chain.go:122-138 | no exit, crash, abort command or recovery rolls back a reported transaction that was not aborted |
| ExactlyOnceRuns.CommittedOnlyGrows | internal/engine/transaction_commit.go:21-43 | what is published is never taken back |
| ExactlyOnceRuns.CrashBeforeCommit | internal/engine/checkpoint_restore.go:62-78 | a concrete run: crash after the decision and before any commit command, still published once after restore |
| ExactlyOnceProgress.EndsExactlyWhenPublished | internal/engine/operator_chain.go:726-731 | in every run, a task whose input is used up ends if and only if all its output is published |
| ExactlyOnceProgress.CheckpointPublishes | internal/engine/operator_chain.go:466-592 | from any reachable quiet state a checkpoint can be taken, completed and committed, and then the output of everything read is published |
| ExactlyOnceProgress.RestartResumes | internal/engine/checkpoint_restore.go:62-113 | a restart publishes what the completed checkpoint promised and stands at its cut |
| ExactlyOnceProgress.EveryRunCanFinish | internal/engine/operator_chain.go:704-731 | from every state of every run the task can be brought to its end with the output of the whole source published |
| ExactlyOnceProgress.AbortedBoundaryIsReleased | internal/engine/operator_chain.go:624-656 | an abort that overtakes the barrier releases the source and prepares nothing |
| ExactlyOnceProgress.AbortRollsBack | internal/engine/operator_chain.go:593-623 | an abort of a prepared transaction rolls exactly that one back and stops the task |
| ExactlyOnceProgress.PlayKeeps | internal/engine/operator_chain.go:422-724 | any path of handler steps keeps the exactly-once invariant |
| ExactlyOnceProgress.PathIsExactlyOnce | internal/engine/operator_chain.go:422-724 | along any path the published log is the output of the last committed cut |
| TransactionalChain.TransactionalSink.Commit | internal/engine/operator.go:66-78 | an applied commit publishes the prepared transaction once; repeating it changes nothing |
| TransactionalChain.SourceInput.AcceptBoundary | internal/engine/source_checkpoint.go:74-128 | any trigger, of any attempt, yields a boundary at the current position exactly when its id is newer than every accepted one and not retired; id 0 is rejected |
| TransactionalChain.SourceInput.ReadBatch | internal/engine/task_slot.go:526-543 | a batch is the next records of the source and moves the position by its length |
| TransactionalChain.DispatchBatch | internal/engine/source_watermark.go:52-71 | the whole batch joins the chain's queue, in order |
| TransactionalChain.AcceptTrigger | internal/engine/source_checkpoint.go:74-128 | source and aligner note an accepted boundary together |
| TransactionalChain.ChainContext.constructor | internal/engine/operator_chain.go:145-167 | a restarted chain is the machine's restored task |
| TransactionalChain.ChainContext.DrainInput | internal/engine/operator_chain.go:403-419 | processes everything queued, in order, and nothing else |
| TransactionalChain.ChainContext.HandleBarrier | internal/engine/operator_chain.go:466-568 | any barrier: the awaited one drains, prepares and hands over, in this order, at its position; a released or foreign one does nothing; a different one than prepared stops the task |
| TransactionalChain.ChainContext.CommitTransaction | internal/engine/transaction_commit.go:21-43 | succeeds exactly when one of at most five attempts is confirmed, and then the transaction is published once whatever answers were lost |
| TransactionalChain.ChainContext.HandleCommit | internal/engine/operator_chain.go:570-592 | any commit command: a repeated one does nothing, a mismatch stops the task, a match publishes the transaction exactly once and carries out an end put off behind it, or leaves the decision to recovery; for a commanded commit this is a path of the machine |
| TransactionalChain.ChainContext.HandleAbort | internal/engine/operator_chain.go:593-623 | any abort command: drains and retires when nothing is prepared; rolls back its own prepared transaction and stops; for a commanded abort this is a path of the machine |
| TransactionalChain.ChainContext.HandleEnd | internal/engine/operator_chain.go:656-731 | drains, then, with the input used up, finishes if and only if all output is published; kept back behind a prepared transaction, where a second end fails the task |
| TransactionalChain.ChainContext.Stop | internal/engine/operator_chain.go:125-137 | the cleanup aborts exactly the transactions whose decision is not pending |
| LeaseSafety.OneLeader | internal/coordinator/election_kubernetes.go:196-261 | the invariant admits one leading node |
| LeaseSafety.ExpiredBacksNobody | internal/coordinator/election_kubernetes.go:226-229 | a lease observed unchanged for its full duration backs no live deadline |
| LeaseSafety.AnswerIsSound | internal/coordinator/election_kubernetes.go:226-238 | a write answering a still current record is true of the register |
| LeaseSafety.InvStep | internal/coordinator/election_kubernetes.go:284-310 | every client, server and clock step keeps the invariant, with lost and delayed messages |
| LeaseSafety.AtMostOneLeader | internal/coordinator/election_kubernetes.go:196-310 | in every timed run at most one node has an uncancelled grant before its deadline |
| LeaseTightness.AcceptedConfigsAreSafe | internal/coordinator/election_kubernetes.go:93-95 | every configuration the constructor accepts is safe |
| LeaseTightness.SecondTakesOver | internal/coordinator/election_kubernetes.go:226-248 | a run in which a second node takes over after one full lease while the first grant is uncancelled |
| LeaseTightness.ExclusiveExactlyWhenOutlasting | internal/coordinator/election_kubernetes.go:93-95 | with two or more nodes exclusion holds in all runs if and only if no renewal deadline exceeds its lease |
| LeaseProgress.RenewalExtends | internal/coordinator/election_kubernetes.go:284-310 | a renewal confirmed in time makes the node lead until exactly its start plus the renewal deadline |
| LeaseProgress.CampaignGrants | internal/coordinator/election_kubernetes.go:239-248 | so does a campaign, and nothing if confirmed later |
| LeaseProgress.FreeLeaseCanBeTaken | internal/coordinator/election_kubernetes.go:196-248 | in any state a vacant lease, or one seen unchanged for its duration, can be taken by a node without a grant |
| LeaseProgress.LeaderCanRenew | internal/coordinator/election_kubernetes.go:284-310 | in any state a leader whose lease is its own can extend its grant |
| LeaseProgress.LeadsAsLongAsItRenews | internal/coordinator/election_kubernetes.go:284-310 | however long, a leader that renews more often than its renewal deadline still leads |
| LeaseProgress.ResignationFreesLease | internal/coordinator/election_kubernetes.go:312-339 | a resignation leaves the lease vacant, free for any node at once |
| LeaseProgress.FailureKeepsGrant | internal/coordinator/election_kubernetes.go:262-283 | a failed renewal takes nothing from the grant and can be repeated |
| LeaseProgress.ForeignLeaseIsRespected | internal/coordinator/election_kubernetes.go:226-238 | a leader that finds its lease in other hands stops leading; a campaign that may not take the lease writes nothing |
| LeaseClient.KubernetesLeaseElection.Begin | internal/coordinator/election_kubernetes.go:196-212 | starts a campaign, renewal, publication or resignation exactly when allowed, with a fresh identity for a new campaign |
| LeaseClient.KubernetesLeaseElection.OnRecord | internal/coordinator/election_kubernetes.go:220-238 | notes a changed specification and its time; answers with exactly the specified write when the lease is vacant, expired or still owned, and with none otherwise |
| LeaseClient.KubernetesLeaseElection.OnConfirmed | internal/coordinator/election_kubernetes.go:239-248 | a confirmed campaign or renewal leads until exactly the attempt's start plus the renewal deadline, never counted from the response time |
| LeaseClient.KubernetesLeaseElection.Abandon | internal/coordinator/election_kubernetes.go:312-339 | a failed request never extends authority |
| DecisionRuns.InvAt | internal/coordinator/recovery.go:143-207 | the coordinator invariant holds in every state of every run with arbitrary requests |
| DecisionRuns.NeverBothDecisions | internal/coordinator/checkpoint_manager.go:210-460 | commit and abort commands are never both issued for one checkpoint |
| DecisionRuns.CommandsMatchDecisions | internal/coordinator/checkpoint_manager.go:419-458 | each command agrees with the stored decision and goes to the worker captured at the trigger |
| DecisionRuns.BoundaryCoversCommits | internal/coordinator/checkpoint_selection.go:88-140 | the latest checkpoint is 0 or completed and never below a completed one that may be committed |
| DecisionRuns.OneInFlight | internal/coordinator/checkpoint_manager.go:75-106 | at most one checkpoint of a job is in flight and a ready leader's active entry names it |
| DecisionRuns.ActiveIsInFlight | internal/coordinator/coordinator.go:178-239 | every active entry names a stored in-flight checkpoint of the leader's own term |
| DecisionRuns.CompletedHasEveryReceipt | internal/coordinator/checkpoint_manager.go:348-394 | a completed checkpoint has a receipt, at the assigned replica, from precisely the tasks captured |
| DecisionRuns.SavepointFollowsCheckpoint | internal/coordinator/savepoint_decision.go:12-40 | an existing savepoint is completed exactly when its checkpoint is |
| DecisionRuns.RecoverKeeps | internal/coordinator/recovery.go:165-235 | recovery at any point, also cut short by a failed write, keeps the invariant |
| DecisionRuns.RescaleKeeps | internal/coordinator/rescale_manager.go:28-134 | a rescale keeps the boundary and its rollback record consistent |
| DecisionRuns.RollbackKeeps | internal/coordinator/task_restart.go:79-100 | a rollback keeps them too |
| DecisionInvariants.SelectedBoundary | internal/coordinator/checkpoint_selection.go:88-140 | selection returns a usable completed checkpoint and passes over only unusable ones that cannot be committed; a pinned rescale is never left |
| DecisionInvariants.ReceiptOk | internal/coordinator/checkpoint_manager.go:348-394 | equal counts of receipts and tasks mean a receipt for every task |
| Decisions.AbortOutcome | internal/coordinator/checkpoint_manager.go:210-313 | where an abort succeeds the checkpoint is stored as aborted and each captured task is told; otherwise nothing changed |
| Decisions.ReceiptOutcome | internal/coordinator/checkpoint_manager.go:318-460 | where an acknowledgement succeeds the receipt is stored, and a full set of receipts completes the checkpoint, announces it and makes it the recovery boundary; otherwise nothing changed |
| DecisionHistory.DecisionsAreFinal | internal/coordinator/checkpoint_manager.go:210-460 | from any point of a run on, records stay and terminal decisions never change |
| DecisionHistory.CompletedByItsOwnTerm | internal/coordinator/checkpoint_manager.go:318-346 | only an acknowledgement handled by the triggering term's leader completes a checkpoint |
| DecisionHistory.RecoveryRaisesEpoch | internal/coordinator/recovery.go:143-161 | every recovery leaves an epoch above all persisted before |
| DecisionHistory.IdsStrictlyIncrease | internal/coordinator/checkpoint_manager.go:75-106 | a new checkpoint's id exceeds every earlier id of the job, across terms |
| DecisionHistory.RollbackUndoesRescale | internal/coordinator/task_restart.go:79-100 | rolling back a deployed rescale restores configuration, parallelism and boundary |
| DecisionOutcomes.TriggerOutcome | internal/coordinator/checkpoint_manager.go:32-158 | a possible trigger adds exactly one checkpoint: numbered next, of this term, for the tasks deployed now; any other changes nothing |
| DecisionOutcomes.CompletionIsBoundary | internal/coordinator/checkpoint_manager.go:419-458 | a checkpoint that is completed becomes the recovery boundary in the same write |
| DecisionOutcomes.CheckpointCanComplete | internal/coordinator/checkpoint_manager.go:32-460 | in any reachable state a running job with placed, replicated tasks and nothing in flight can be checkpointed: the trigger and one report of each task make the new boundary |
| DecisionOutcomes.FailureAborts | internal/coordinator/checkpoint_manager.go:462-494 | a failure report of an assigned task aborts the checkpoint |
| DecisionOutcomes.ExpiryAborts | internal/coordinator/checkpoint_manager.go:496-514 | the timeout of an active checkpoint aborts it and tells every captured task |
| DecisionOutcomes.AbortPolicy | internal/coordinator/checkpoint_manager.go:261-285 | an abort fails the running job exactly when the policy demands |
| DecisionOutcomes.RepeatedAbortChangesNothing | internal/coordinator/checkpoint_manager.go:240-260 | repeating an abort changes no record |
| DecisionOutcomes.SelectionIsExact | internal/coordinator/checkpoint_selection.go:88-140 | a checkpoint is selected if and only if it is eligible and usable and every newer one may be skipped |
| DecisionOutcomes.SelectsNothingExactly | internal/coordinator/checkpoint_selection.go:88-140 | nothing is selected if and only if the newest checkpoint that may not be skipped is unusable, or there is none |
| DecisionOutcomes.UsableBoundaryIsSelected | internal/coordinator/checkpoint_selection.go:88-140 | a completed boundary that checks out is the one selected |
| DecisionOutcomes.InvalidatedIsNotSelected | internal/coordinator/checkpoint_selection.go:88-140 | an invalidated checkpoint is never selected again |
| DecisionOutcomes.RescaleOutcome | internal/coordinator/rescale_manager.go:28-134 | an accepted rescale has the requested configuration and parallelism and is pinned at the savepoint; any other changes nothing |
| DecisionOutcomes.RescaleIsGranted | internal/coordinator/rescale_manager.go:28-134 | a running job at rest is rescaled from the completed savepoint that is its boundary |
| DecisionOutcomes.PinnedSelectsSavepoint | internal/coordinator/checkpoint_selection.go:88-140 | while pinned, recovery selects the savepoint's checkpoint or nothing |
| DecisionOutcomes.RecoveryIsReady | internal/coordinator/recovery.go:143-207 | a recovery whose writes succeed is ready at exactly the larger of the stored epoch plus one and the election's, with what was open closed and nothing else different |
| CoordinatorObject.Coordinator.ScanCheckpoints | internal/coordinator/checkpoint_manager.go:75-106 | the highest id, unless some checkpoint forbids a new one |
| CoordinatorObject.Coordinator.TriggerCheckpoint | internal/coordinator/checkpoint_manager.go:32-158 | the object's state becomes the trigger step's, refusal included |
| CoordinatorObject.Coordinator.AbortCheckpoint | internal/coordinator/checkpoint_manager.go:210-313 | the object's state becomes the abort step's, one order to every captured task; succeeds exactly on an abortable checkpoint of the own term |
| CoordinatorObject.Coordinator.AcknowledgeCheckpoint | internal/coordinator/checkpoint_manager.go:318-460 | the object's state becomes the acknowledgement step's: receipt, completion with the new boundary, or repeated commit; succeeds exactly on a recordable receipt |
| CoordinatorObject.Coordinator.SelectRecoveryCheckpoint | internal/coordinator/checkpoint_selection.go:88-140 | for any job and leader: the newest-first loop finds what the specification selects, and nothing when not ready or the job is unknown |
| CoordinatorObject.Coordinator.RollbackFailedRescale | internal/coordinator/task_restart.go:79-100 | the object's state becomes the rollback step's |
| CoordinatorObject.Coordinator.ExpireCheckpoints | internal/coordinator/checkpoint_manager.go:496-514 | the sweep is a sequence of abort steps of the late checkpoints |
| CoordinatorObject.Coordinator.Recover | internal/coordinator/coordinator.go:178-239 | recovery aborts every in-flight checkpoint and closes its savepoint under a higher epoch; it is ready exactly when the store accepts all the writes it needs |
| CoordinatorObject.NothingStale | internal/coordinator/checkpoint_manager.go:496-514 | in every reachable state the sweep finds no entry of another term |
| KeyGroups.AssignedTaskOwns | internal/keygroup/assignment.go:21-30 | for all counts with at least one group a task, the assigned task's range holds the group and no other task's does |
| KeyGroups.StartRises | internal/keygroup/assignment.go:37-50 | every task owns at least one group |
| KeyGroups.AllTaskRanges | internal/keygroup/assignment.go:53-66 | succeeds exactly on valid counts and lists each task's range |
| KeyGroups.Walk | internal/keygroup/assignment.go:72-101 | one two-cursor walk yields exactly the non-empty pairwise intersections, in order |
| KeyGroups.RescaleMapping | internal/keygroup/assignment.go:72-101 | for all valid counts each new task gets exactly its intersections with the old ranges |
| StateKeys.DecodeEncoded | internal/keygroup/pebblekey.go:17-42 | decoding an encoded key returns group, operator and remainder |
| StateKeys.EncodeDecoded | internal/keygroup/pebblekey.go:34-42 | every key long enough is the encoding of what it decodes to |
| StateKeys.EncodePebbleKey | internal/keygroup/pebblekey.go:17-25 | the filled buffer is the specified encoding |
| StateKeys.PrefixBounds | internal/engine/state_key_groups.go:32-35 | a scan between two group prefixes visits exactly the keys of those groups |
| RescalePlan.PlanRescaleState | internal/coordinator/rescale_plan.go:18-114 | plans exactly the accepted inputs, and each target's parts are the overlaps with the old tasks in order |
| RescalePlan.CheckTiling | internal/coordinator/rescale_plan.go:43-58 | detects every gap, overlap and changed chain |
| PlanProperties.CoverageIsRedundant | internal/coordinator/rescale_plan.go:86-112 | once the tilings hold the final coverage check cannot fail |
| PlanProperties.OldOwner | internal/coordinator/rescale_plan.go:43-58 | each group of an operator has exactly one old owner |
| PlanProperties.NewOwnerUnique | internal/coordinator/rescale_plan.go:62-85 | two new tasks of one operator never share a group |
| PlanProperties.PlanCoversTarget | internal/coordinator/rescale_plan.go:86-112 | a target's parts abut from its first group to its last |
| PlanProperties.PlanAgreesWithMapping | internal/keygroup/assignment.go:72-101 | the plan's parts of an operator are the key-group mapping's ranges |
| StateRescale.PebbleStateBackend.VisitKeyGroupRange | internal/engine/state_key_groups.go:17-49 | adds exactly the entries of the interval to the target |
| StateRescale.PebbleStateBackend.CheckCoverage | internal/engine/state_rescale.go:23-38 | accepts exactly contiguous parts of one completed checkpoint that cover the assignment |
| StateRescale.PebbleStateBackend.RestoreKeyGroupRanges | internal/engine/state_rescale.go:22-87 | publishes the assembled state or leaves the old one untouched |
| StateRescale.PlannedPieces | internal/coordinator/rescale_plan.go:86-112 | every part of an accepted plan names a downloaded source and a proper interval |
| StateRescale.PlanPassesRestore | internal/engine/state_rescale.go:23-38 | the parts of an accepted plan always pass the coverage check |
| RescaleTheorem.AssembledKey | internal/engine/state_rescale.go:51-87 | a key of one piece's groups comes from that piece alone |
| RescaleTheorem.RestoredHoldsExactly | internal/engine/state_rescale.go:22-87 | a restored task holds a key exactly when it owns the group and the old owner's snapshot had it, with the same value |
| RescaleTheorem.RoutedKeyFindsItsState | internal/coordinator/rescale_plan.go:18-114 | for any old and new parallelism, the task the router now picks restores and has the old owner's value for the key, and no other new task of the operator has the key at all |
| RescaleTheorem.NoStrayKeys | internal/engine/state_rescale.go:51-87 | a restored task holds no key outside its groups |
| RescaleTheorem.AnyParallelismIsAccepted | internal/coordinator/rescale_plan.go:18-114 | any change of parallelism between generated topologies is accepted |
| Windows.WindowProcessor.constructor | internal/engine/window_processor.go:62-92 | a new processor is the initial state |
| Windows.WindowProcessor.MergeSessions | internal/engine/window_processor.go:137-160 | the repeated merge passes end at the specified merge |
| Windows.WindowProcessor.AssignStarts | internal/engine/window_processor.go:161-184 | the loop computes the specified starts, or fails as they do |
| Windows.WindowProcessor.PlaceEvent | internal/engine/window_processor.go:137-228 | the effect of an event on its key's windows |
| Windows.WindowProcessor.Process | internal/engine/window_processor.go:127-240 | the object takes the processing step, whose effect in times `WindowLateness` states, or stays as it was when the event is refused |
| Windows.WindowProcessor.AdvanceWatermark | internal/engine/window_processor.go:244-278 | fires and purges key by key; the results are each due window once, in key order |
| WindowShape.ProcessKeeps | internal/engine/window_processor.go:127-240 | processing keeps windows aligned or separated, fired exactly when due, unexpired and counted |
| WindowShape.AdvanceKeeps | internal/engine/window_processor.go:244-278 | so does advancing the watermark |
| WindowShape.MergeKeeps | internal/engine/window_processor.go:137-160 | merging ends with a session that touches none of the others |
| WindowAssign.AssignIsExact | internal/engine/window_processor.go:161-184 | a start is assigned exactly when it is on the grid and its window contains the time |
| WindowLateness.AssignFailsExactly | internal/engine/window_processor.go:105-126 | assignment fails exactly when the newest window's bounds leave the range of times |
| WindowLateness.WindowsTakeEventsInTime | internal/engine/window_processor.go:185-228 | an event joins exactly those of its windows whose end plus the allowed lateness the watermark has not reached; every other window keeps what it holds |
| WindowLateness.TooLateExactly | internal/engine/window_processor.go:229-240 | it is too late exactly when none of its windows is in time |
| WindowLateness.SessionsTakeEventsInTime | internal/engine/window_processor.go:137-228 | a session takes an event exactly when the merged end plus the lateness is not reached |
| WindowLateness.WindowsStayInTime | internal/engine/window_processor.go:244-278 | a watermark keeps exactly the windows whose end plus the lateness it has not reached |
| WindowLateness.RefusedExactly | internal/engine/window_processor.go:127-240 | an event is rejected exactly on overflow and turned away only when the window limit would be passed |
| WindowSessions.TouchingGroupsJoin | internal/engine/window_processor.go:137-160 | two gap-connected groups with touching hulls form one group |
| WindowSessions.SessionConserves | internal/engine/window_processor.go:185-228 | an accepted event joins one session and every earlier event stays |
| WindowSessions.GroupingIsCanonical | internal/engine/window_processor.go:137-160 | strictly separated groups of the same events are the same groups |
| WindowSessions.ArrivalOrderIsIrrelevant | internal/engine/window_processor.go:137-228 | from any sessions and at one watermark, any order of the same accepted events gives the same sessions |
| WindowSessions.AcceptOneIsProcess | internal/engine/window_processor.go:127-240 | accepting one event there is processing it |
| WindowSessionRuns.SessionsAreGroups | internal/engine/window_processor.go:137-228 | in every run, retained sessions are strictly separated hulls of gap-connected events, and together with the purged ones hold each accepted event once |
| WindowSessionRuns.AcceptedEventsAreHeldOnce | internal/engine/window_processor.go:127-278 | in every run, for every key, the events of retained and purged sessions together are exactly the events accepted, each once |
| WindowSessionRuns.PurgedSessionWasReported | internal/engine/window_processor.go:244-278 | in every run, a session that a step purges was last reported with exactly its events, which are a gap-connected part of the accepted ones |
| WindowSessionRuns.SameEventsSameSessions | internal/engine/window_processor.go:127-278 | two runs that accepted the same events of a key and purged the same ones retain the same sessions, however deliveries and watermarks were interleaved; at the same watermark the same ones have fired |
| WindowSessionRuns.SessionUpdatesExactly | internal/engine/window_processor.go:137-228 | a late event's result holds the whole merged session and is an update exactly when a session inside it had reported before |
| WindowRuns.ShapeAt | internal/engine/window_processor.go:127-278 | the shape invariant holds in every state of every run |
| WindowRuns.FirstThenUpdates | internal/engine/window_processor.go:185-278 | an aligned window emits at most one non-update result, before its updates |
| WindowRuns.PurgedInFull | internal/engine/window_processor.go:244-278 | a window that accepted events and is gone was last reported with exactly those |
| WindowRuns.NeverRecreated | internal/engine/window_processor.go:185-228 | past its deadline a window is never retained again |
| WindowStats.LateEventsAreAccounted | internal/engine/window_processor.go:229-240 | in every run allowed and dropped events are late ones, and without gaps between windows each late event is counted as exactly one of the two |
| WindowStats.CountersAreExact | internal/engine/window_processor.go:229-240 | in every run each counter is exactly the number of late, allowed and dropped events |
| Watermarks.BoundedOutOfOrderness.ObserveEventTime | internal/engine/watermark_strategy.go:44-54 | the compare-and-swap loop ends with at least the observed time, under any rivals |
| Watermarks.BoundedOutOfOrderness.GenerateWatermark | internal/engine/watermark_strategy.go:36-42 | the latest time that no event within the bound of the observed maximum can undercut |
| Watermarks.GeneratedIsWatermark | internal/engine/watermark_strategy.go:36-42 | the saturating difference is that time, and no other value is |
| Watermarks.TickIsUpToDate | internal/engine/source_watermark.go:17-51 | after a tick the newest boundary sent is the watermark of everything sent |
| Watermarks.RecordsAreOnTime | internal/engine/source_watermark.go:17-71 | within the bound every record is at or after every boundary sent before it |
| Watermarks.BoundedSourceIsOnTime | internal/engine/source_watermark.go:52-71 | so it reaches the windows at or after their watermark |
| Watermarks.OnTimeIsNeverLate | internal/engine/window_processor.go:185-240 | such an event is accepted wherever assigned and reports nothing yet |
| Watermarks.BoundedSourceIsNeverLate | internal/engine/watermark_strategy.go:36-54 | no window reports a bounded source's event too late |
| Watermarks.ExactlyOneResult | internal/engine/window_processor.go:244-278 | with events on time every purged aligned window has emitted exactly one result, with all its events |
| WindowSnapshot.Checkpoint | internal/engine/window_snapshot.go:22-39 | writes the windows key by key in order |
| WindowSnapshot.Restore | internal/engine/window_snapshot.go:43-102 | accepts exactly the acceptable snapshots and rebuilds the specified state |
| WindowRestore.AcceptedIsWellShaped | internal/engine/window_snapshot.go:43-102 | every snapshot that restores yields a state with the shape invariant |
| WindowRestore.RestoreUndoesCheckpoint | internal/engine/window_snapshot.go:22-102 | restoring a checkpoint succeeds and gives the state back |
| WindowRestore.EveryReachableStateRestores | internal/engine/window_snapshot.go:22-102 | in particular for every state of every run |
| Graphs.OrderedIsAcyclic | sdk/stream_graph.go:243-277 | no cycle passes through an ordering with sources first |
| Graphs.StuckHasCycle | sdk/stream_graph.go:243-277 | nodes that all wait for one another contain a cycle |
| CycleDetection.CycleSearch.Visit | sdk/stream_graph.go:199-240 | a coloured depth-first visit reports a cycle exactly when its node reaches one, and otherwise finishes the node |
| CycleDetection.CycleSearch.HasCycle | sdk/stream_graph.go:199-240 | true exactly when some node reaches a cycle |
| CycleDetection.ReachesCycleIffCyclic | sdk/stream_graph.go:199-240 | which, with known endpoints, is that the graph has a cycle |
| TopologicalSort.TopoSort | sdk/stream_graph.go:243-277 | emits distinct nodes, sources first, and all of them exactly when there is no cycle |
| TopologicalSort.CompleteExactlyWhenAcyclic | sdk/stream_graph.go:243-277 | an ordering whose remaining nodes all wait for one another is complete exactly when there is no cycle |
| TopologicalSort.TopoSortOperators | internal/coordinator/scheduler.go:455-501 | on unique ids, succeeds exactly on known endpoints without cycles; then every operator once, sources first |
| PhysicalPlan.PlanChains | internal/coordinator/chain_plan.go:31-59 | the loop keeps every operator placed once and at its own or the job's parallelism, every chain a simple path, and a link inside one chain exactly when it is the only forward link between its ends and their parallelism is equal |
| PhysicalPlan.PlanPhysicalChains | internal/coordinator/chain_plan.go:16-60 | plans exactly the plannable graphs, fuses exactly the eligible links and runs every operator at its parallelism |
| PhysicalPlan.ExactlyOneChain | internal/coordinator/chain_plan.go:31-59 | every operator is in exactly one chain at one place |
| PhysicalPlan.LinkFusesOrBounds | internal/coordinator/chain_plan.go:31-59 | a link joins neighbours of a chain or runs from the end of one to the start of another |
| PhysicalPlan.FusionPreservesGraph | internal/coordinator/chain_plan.go:16-60 | so every link of the graph is one adjacency or one boundary of the plan, and the membership map says which |
| PhysicalTasks.PlanIsUsable | internal/coordinator/physical_tasks.go:18-21 | what the chain planner returns is what the task builder needs |
| PhysicalTasks.ConnectKeepsMatching | internal/coordinator/physical_tasks.go:69-81 | each new channel takes a partition of the target no other channel has |
| PhysicalTasks.ConnectChains | internal/coordinator/physical_tasks.go:69-81 | wires counterparts or all targets in order; refused exactly when some target would exceed the partition limit |
| PhysicalTasks.BuildPhysicalTasks | internal/coordinator/physical_tasks.go:13-84 | succeeds exactly on the buildable plans; every subtask is laid out once, every downstream end matches one upstream end with the same partition, and the sources of hash edges carry the key-group count |
| PhysicalTasks.RoutedToOwner | internal/engine/output_writer.go:115-125 | on a hash edge, picking by the task's own key-group count reaches the one subtask whose range holds the group |
| OutputRouter.InvAt | internal/engine/output_writer.go:57-157 | in every interleaving of dispatcher and writers, written and held messages are what each stream is owed |
| OutputRouter.WiresArePrefixes | internal/engine/output_writer.go:115-126 | every stream carries a gapless in-order prefix of its messages |
| OutputRouter.ControlFences | internal/engine/output_writer.go:128-142 | nothing behind a control message is on any stream before that message is on all |
| OutputRouter.ControlCutsEveryStream | internal/engine/output_writer.go:128-142 | what precedes a message on a stream is exactly what the stream is owed before it |
| OutputRouter.AllDelivered | internal/engine/output_writer.go:146-156 | once everything is written each stream carries exactly its messages |
| OutputRouter.CarrierOwnsGroup | internal/engine/output_writer.go:115-125 | on a hash edge a data message is on the one stream whose key-group range holds its group |
| OutputRouter.CarriersTakeTurns | internal/engine/output_writer.go:115-125 | on any other edge data takes the streams in turn |
| OutputRouter.EveryRunDelivers | internal/engine/output_writer.go:57-157 | no run is longer than its work, some step is possible exactly while work is left, and a run that cannot go on has delivered every message to its stream |
| SnapshotCodec.DecodeEncodedSnapshot | internal/engine/state_backend_hashmap.go:286-387 | for all entries, with the 32-bit casts: decoding the encoding returns them if and only if they are carried |
| SnapshotCodec.SmallIsCarried | internal/engine/state_backend_hashmap.go:286-347 | entries whose lengths fit 32 bits are carried whenever the payload is below 32 GiB |
| SnapshotCodec.LargeSnapshotIsRefused | internal/engine/state_backend_hashmap.go:324-347 | eight fitting values of nearly 4 GiB are refused, because the decoder casts its own bound |
| SnapshotCodec.EncodeDecodedSnapshot | internal/engine/state_backend_hashmap.go:324-387 | every accepted byte string re-encodes to itself |
| SnapshotCodec.SerializeSnapshot | internal/engine/state_backend_hashmap.go:286-321 | the loop writes the specified bytes, truncated lengths included |
| SnapshotCodec.DeserializeSnapshot | internal/engine/state_backend_hashmap.go:324-387 | the loop accepts and returns exactly what the format specifies |
| SortedBackend.HashMapStateBackend.Search | internal/engine/state_backend_hashmap.go:240-244 | the binary search on any entries; on sorted ones the first index whose key is not before the given one |
| SortedBackend.FoundExactlyWhenSorted | internal/engine/state_backend_hashmap.go:240-244 | binary search finds every entry at its own index if and only if the keys strictly ascend |
| SortedBackend.LookupIsContents | internal/engine/state_backend_hashmap.go:84-97 | on sorted entries the search is the map lookup |
| SortedBackend.AnswersExactlyWhenSorted | internal/engine/state_backend_hashmap.go:84-97 | when no key occurs twice, every lookup answers as the map does if and only if the keys ascend |
| SortedBackend.HashMapStateBackend.Put | internal/engine/state_backend_hashmap.go:45-81 | a map update with exact byte count, refused exactly when closed or over the limit, and then unchanged |
| SortedBackend.HashMapStateBackend.Get | internal/engine/state_backend_hashmap.go:84-97 | what the binary search finds; a map lookup on a valid state |
| SortedBackend.HashMapStateBackend.Delete | internal/engine/state_backend_hashmap.go:100-116 | a map removal, not-found exactly for absent keys |
| SortedBackend.HashMapStateBackend.NewIterator | internal/engine/state_backend_hashmap.go:119-146 | the early break loses no prefixed key |
| SortedBackend.IterationIsExact | internal/engine/state_backend_hashmap.go:119-146 | an entry is listed exactly when it is held and its key has the prefix |
| SortedBackend.IterationIsSorted | internal/engine/state_backend_hashmap.go:119-146 | in ascending key order |
| SortedBackend.PrefixIsABlock | internal/engine/state_backend_hashmap.go:135-143 | keys with a prefix are contiguous in byte order |
| SortedBackend.HashMapStateBackend.Restore | internal/engine/state_backend_hashmap.go:178-207 | replaces the state exactly when decodable, open and within the limit; afterwards the state is valid exactly when the search finds every entry |
| SortedBackend.UnsortedSnapshotLosesKey | internal/engine/state_backend_hashmap.go:178-207 | a snapshot that restores and in which a stored key is not found |
| SortedBackend.CheckpointRestores | internal/engine/state_backend_hashmap.go:157-207 | a checkpoint decodes to the same entries if and only if they are carried, and then restores exactly within the limit |
| SortedBackend.HashMapStateBackend.Close | internal/engine/state_backend_hashmap.go:210-222 | closes once and empties the state |

## Left out

- Bytes counted by the aligner and the calls `BufferEvent`, `DrainAll` and `Reset`, which the chain does not use.
- Readers, chain and aligner in the cut model, and source, coordinator and restarts in the exactly-once model, are steps on values, because they interleave; update in place is shown by the classes beside them.
- End of partition is not claimed to flush an active alignment; the code drains only the input queue there.
- Exactly-once output is proved for one source task fused with its operators and sink; uploads become durable when handed over, and a checkpoint may complete any time after.
- Several parallel sink tasks of one checkpoint, deferred records of multi-input transactional chains in the exactly-once machine (the cut model has them), and dead-letter and retry policies.
- The final boundary at source exhaustion is an ordinary one, and an end waiting for uploads is a step of the cut model only.
- The coordinator's cached job record is not claimed to agree with the store after a fallback selection; a job is one stored value.
- Manifest assembly, the minimum pause between checkpoints and the failure policy appear as parameters; trigger delivery to sources, slot placement and deployment generations are not modelled.
- The Lease transition counter, API status codes and TLS; creating the Lease is a write at the missing version.
- Window snapshots as JSON and their checksum; window keys are ordered numbers, accumulators are multisets of events, so every commutative aggregator is covered and no other.
- Idle-input exclusion in the watermark tracker, which gives up the lateness guarantee by design.
- Downloading and unpacking archives, Pebble, file system calls and context cancellation during a restore.
- PhysicalTasks.BuildPhysicalTasks: task names and idle timeouts are not modelled.
- The checksum is any function of the payload; error detection by CRC is not claimed.
- Copying of byte slices in the in-memory backend; sequences are values here.
- HTTP handlers, metrics, logging, the MessagePack codecs, CEL expressions and YAML pipelines.
