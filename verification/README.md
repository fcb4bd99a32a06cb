# Verification model of the kubelet upgrade controller

The controller in `upgrade/kubelet` upgrades the kubelets of a cluster's nodes on a schedule. Once a
minute it polls every `KubeletUpgrade` object. If an object's next scheduled time came up in the last
five minutes, it puts the names of the matching nodes on that object's work queue and starts a run: a
loop spawns worker goroutines, each takes one node, cordons it, drains it and uncordons it, and a
collector goroutine folds the workers' errors into the outcome that is recorded on the object.

This project models that system in Dafny and proves what it guarantees, and exactly where a comment
in the code promises something the code does not do. `dafny verify dfyconfig.toml` checks all of it.

| file | content |
|---|---|
| `Basics.dfy`, `WorkQueue.dfy`, `Labels.dfy` | options and sequences; the work queue's contract; label requirements |
| `KubeletUpgrade.dfy` | the object as a value, the cron contract, the three methods of `types.go` |
| `DeepCopy.dfy` | the same object in memory, with a label map and two slices that a struct copy shares |
| `UpgradeRun.dfy` | one run as a state machine over main goroutine, workers and collector |
| `RunInvariant.dfy`, `RunTermination.dfy`, `RunTheorems.dfy` | what every interleaving of a run keeps, that it ends, what it guarantees |
| `WorkerReplies.dfy` | results, reports and flags decided by the cluster's replies alone |
| `SilentFailures.dfy` | exactly how many failures a run can fail to record |
| `ApiServer.dfy` | the stored versions of an object, and what can happen around one request |
| `Polling.dfy`, `PollEffects.dfy`, `PollOutcomes.dfy` | one poll as a function of all its inputs, everything it can do, and exactly when it runs or crashes |
| `StoreAfterPoll.dfy` | exactly which conditions and which next time a poll leaves in the store |
| `Lifecycle.dfy`, `SlotRepeats.dfy` | whole lives of one upgrade: no slot runs twice, and exactly when one can be started again |
| `SlotCoverage.dfy`, `SlotLoss.dfy` | exactly which activations are run, that none is lost to polls close together, and some that are lost to others |
| `ConditionHistory.dfy`, `NodeQueue.dfy`, `PatienceBound.dfy` | over such lives: the conditions and labels on record, who gets into the node queue and how long a key waits |
| `AllUpgrades.dfy`, `CordonHistory.dfy`, `SchedulePass.dfy` | all upgrades together, whose doing a cordoned node is, and one pass over them |
| `Ticks.dfy`, `EveryUpgrade.dfy` | a sequence of ticks, and the results about lives for every upgrade of a controller |
| `Controller.dfy` | the controller's methods over mutable state, proved against the functions above |

## How to read it

A run is a sequence of events; an event names the actor that moves and, for a worker making a call,
the cluster's answer. `Legal` says which sequences are possible, so a statement about all legal
sequences is a statement about every interleaving and every answer.

The life of an upgrade is a sequence of happenings: polls, users' edits, other actors' cordons, the
process dying and restarting. A poll may be handed any version of the object that was ever stored.
Around each API request users' edits may get in first, the server may be out of reach, or the reply
may be lost after the write. A request that carries an outdated version is rejected.

What the environment is assumed to do: the work queue is a FIFO with a dirty and a processing set;
`Next(t)` is strictly later than `t`, and for the coverage results it is the least activation after
`t` of a fixed set; a successful cordon or uncordon sets the node's flag and a failed one leaves it;
a Go channel is a FIFO with a fixed capacity; polls are serialized and the clock does not go back.

## Where code and comments part

* The number of workers is computed as min(maxUnavailable, queue length) but the spawn loop ignores
  it and compares its counter with a queue that shrinks under it. The cap holds exactly when the
  queue is no longer than `maxUnavailable` (`CapHoldsOnlyIfQueueIsShort`), and a run may leave up to
  half of the keys behind (`SpawnBound`, `SpawnBoundIsTight`).
* The collector is never joined, so a run can fail and still return and record success. A success on
  record means that no worker reported an error if and only if the queue was empty
  (`RecordIsTruthfulOnlyIfIdle`): with n keys waiting the failures hidden can be 0, 1, ... up to
  min(n, `maxUnavailable` + 1), and no more (`HiddenFailuresExactly`).
* The skip label is set and removed on a clone, but the status response overwrites that clone before
  the main write, so the label never reaches the store (`RecordStatusEffect`, `LabelsOfALife`).
* If a "started" or "completed" record fails, a nil object is dereferenced and the process ends. A poll
  past the gate survives if and only if its copy is current, `maxUnavailable` is not negative, and each
  of the four record calls is answered without an edit having changed the object before it
  (`OutcomeExactly`). So with a reachable server too, a user's edit ends the process: one during a run,
  or one before it that the next poll does not see yet (`StaleCopyCrashes`).
* `canUpgrade` accepts a slot that is exactly five minutes old, but a schedule that parses has been
  rolled forward by then (`ComposedGate`).
* The look-back of five minutes is there to see if any upgrades were missed, but only the stored slot is
  looked at, and that is the first activation since the poll before. An activation is run if and only if the first
  poll at or after it comes less than five minutes after that one (`ActivationIsRunExactly`). With
  activations three minutes apart one is lost to a poll two minutes after it
  (`PromptPollLosesActivation`).
* A slot that was started is not always started only once. It stays stored if and only if a record
  call of its run is not answered, so that the process ends, or the last write does not reach the store,
  which is only logged, or the schedule does not parse (`StartLeavesSlotExactly`); then it can be
  started again if and only if its window is still open when that poll is over (`SecondStartExactly`).
  An unreachable server at the end of a run and a restart are enough (`CrashRepeatsSlot`).

## Model

| member | source | states |
|---|---|---|
| UpgradeRun.LegalPrefix | upgrade/kubelet/pkg/controller/controller.go:464-473 | a run can be looked at after any of its steps: every prefix of a possible interleaving is possible |
| RunInvariant.StepKeepsInv | upgrade/kubelet/pkg/controller/controller.go:419-557 | every step of main, worker or collector keeps the whole invariant: keys, loop bound, channel order, reports, cordons, verdict |
| RunInvariant.ExecKeepsInv | upgrade/kubelet/pkg/controller/controller.go:419-557 | hence it holds in every state of every interleaving |
| RunInvariant.GetTakesNext | upgrade/kubelet/pkg/controller/controller.go:491-492 | a worker takes the next key in order and nobody had it before |
| RunInvariant.TakenIsNotWaiting | upgrade/kubelet/pkg/controller/controller.go:496-516 | the deferred Done never puts a key back, as nothing re-adds it during the run |
| RunTermination.EveryRunEnds | upgrade/kubelet/pkg/controller/controller.go:464-475 | no interleaving over n keys has more than 12 n + 7 steps |
| RunTermination.GetNeverBlocks | upgrade/kubelet/pkg/controller/controller.go:465-492 | a spawned worker always finds a key |
| RunTermination.NeverStuck | upgrade/kubelet/pkg/controller/controller.go:434-475 | unless main and collector are both done some actor can move, also with an unbuffered channel |
| RunTermination.Completion | upgrade/kubelet/pkg/controller/controller.go:464-475 | every reachable state can be carried on to the end |
| RunTheorems.SpawnBound | upgrade/kubelet/pkg/controller/controller.go:464-473 | W workers with ceil(n/2) <= W <= n, one distinct key each, the first W in order; the other n - W stay in order and the queue is idle |
| RunTheorems.SpawnBoundIsTight | upgrade/kubelet/pkg/controller/controller.go:464-473 | every W between the bounds is the outcome of a run that ends |
| RunTheorems.InFlightAtMostQueue | upgrade/kubelet/pkg/controller/controller.go:464-473 | at most n nodes are in flight at any step |
| RunTheorems.AllInFlight | upgrade/kubelet/pkg/controller/controller.go:464-473 | and some interleaving has all n in flight |
| RunTheorems.CapHoldsOnlyIfQueueIsShort | upgrade/kubelet/pkg/controller/controller.go:426-431 | the commented cap min(maxUnavailable, n) holds for every interleaving if and only if n <= maxUnavailable |
| RunTheorems.ResultConservation | upgrade/kubelet/pkg/controller/controller.go:422-440 | results sent are those collected, then the one in hand, then at most maxUnavailable buffered; one per worker after the join, all collected once the collector exits |
| RunTheorems.ReturnedErrorIsRecorded | upgrade/kubelet/pkg/controller/controller.go:452-475 | the returned and the recorded error each stand for all results but at most the last maxUnavailable + 1; the returned one is a prefix of the recorded one |
| RunTheorems.EarlyErrorIsReturned | upgrade/kubelet/pkg/controller/controller.go:434-475 | an error that is not among the last maxUnavailable + 1 results is part of what is returned, and of what is recorded |
| RunTheorems.ReturnedIsCollected | upgrade/kubelet/pkg/controller/controller.go:434-475 | what is returned is exactly what the collector has collected when main returns, and every error sent if it has exited by then |
| RunTheorems.RecordedIsCollected | upgrade/kubelet/pkg/controller/controller.go:452-454 | likewise what is recorded, at the moment the deferred closure reads it |
| RunTheorems.NilRecordedErrorBound | upgrade/kubelet/pkg/controller/controller.go:434-475 | if no error is recorded, any failure is among the last maxUnavailable + 1 results |
| SilentFailures.FailuresCanGoUnrecorded | upgrade/kubelet/pkg/controller/controller.go:434-475 | for every queue, capacity and m up to n and maxUnavailable + 1 there is a run in which all n workers run, the last m fail and leave their nodes cordoned, and nothing is recorded or returned |
| SilentFailures.HiddenFailuresExactly | upgrade/kubelet/pkg/controller/controller.go:434-475 | the numbers of failures that some interleaving hides are exactly 0 to min(n, maxUnavailable + 1) |
| SilentFailures.RecordIsTruthfulOnlyIfIdle | upgrade/kubelet/pkg/controller/controller.go:434-475 | a recorded success means that no worker reported an error, in every interleaving, if and only if no key was waiting |
| RunTheorems.CordonAccounting | upgrade/kubelet/pkg/controller/controller.go:525-573 | at every step each node's flag is decided by where its worker is, and untaken nodes keep theirs |
| RunTheorems.CordonsAfterJoin | upgrade/kubelet/pkg/controller/controller.go:490-557 | after the join a node is cordoned if and only if its drain or uncordon failed, reported unless the node was not found, or it was cordoned before and has not been upgraded |
| RunTheorems.ErrorsSentExactly | upgrade/kubelet/pkg/controller/controller.go:507-522 | after the join an error for a node was sent if and only if its worker failed with that cause and not because the node was not found |
| WorkerReplies.ResultIsDecided | upgrade/kubelet/pkg/controller/controller.go:525-557 | after the join a worker's result is decided by the replies in its own events: upgraded if and only if lookup, cordon, drain and uncordon were all answered Ok, else failed with the cause of the first that was not and with that reply's "not found" |
| WorkerReplies.ErrorsFromReplies | upgrade/kubelet/pkg/controller/controller.go:507-522 | an error with a cause is sent for a node if and only if that call was the first to fail and not because something was not found |
| WorkerReplies.CordonsFromReplies | upgrade/kubelet/pkg/controller/controller.go:525-573 | a node is cordoned after the join if and only if its drain or uncordon was the first call to fail, or it was cordoned before and not all four calls were answered Ok |
| WorkQueue.OperationsKeepValid | upgrade/kubelet/pkg/controller/controller.go:343-343 | the queue contract the controller relies on: no key twice, dirty and processing agree with the keys |
| WorkQueue.AddIsNotForgotten | upgrade/kubelet/pkg/controller/controller.go:343-343 | an added key waits at once, behind the others, or as soon as the worker that holds it is done; a key not added again does not come back |
| WorkQueue.AddAllExtends | upgrade/kubelet/pkg/controller/controller.go:314-345 | re-adding keys keeps the waiting ones in front, in order, and appends exactly the new ones |
| WorkQueue.AddAllKeys | upgrade/kubelet/pkg/controller/controller.go:314-345 | the new keys come in the order in which they are first added |
| Labels.SelectorConverts | upgrade/kubelet/pkg/controller/controller.go:294-299 | a selector is converted, unchanged, if and only if every set operator has values and no existence operator has any |
| Labels.SelectsExactly | upgrade/kubelet/pkg/controller/controller.go:294-313 | what each operator asks of a node's labels |
| Labels.ExcludedNodesMeaning | upgrade/kubelet/pkg/controller/labels/selector.go:14-31 | with the exclusions a selector matches exactly its nodes without control-plane and master label |
| KubeletUpgrade.StartedThenCompleted | upgrade/kubelet/pkg/apis/clusterop.isim.dev/v1alpha1/types.go:99-161 | the labels without the skip key, same spec and next time, and two more conditions written out field by field: "started", then "completed" or, with errors, "failed" with the errors as its message |
| KubeletUpgrade.SkipLabelToggles | upgrade/kubelet/pkg/apis/clusterop.isim.dev/v1alpha1/types.go:108-149 | the filter leaves out the started clone and takes the completed one |
| DeepCopy.Upgrade.SpecDeepCopyInto | upgrade/kubelet/pkg/apis/clusterop.isim.dev/v1alpha1/zz_generated.deepcopy.go:89-93 | an equal spec with a fresh selector array; nil stays nil |
| DeepCopy.Upgrade.StatusDeepCopyInto | upgrade/kubelet/pkg/apis/clusterop.isim.dev/v1alpha1/zz_generated.deepcopy.go:106-117 | equal conditions in a fresh backing array without spare capacity; nil stays nil |
| DeepCopy.Upgrade.DeepCopyInto | upgrade/kubelet/pkg/apis/clusterop.isim.dev/v1alpha1/zz_generated.deepcopy.go:28-35 | an equal value whose label map, selector and conditions are all fresh; nil stays nil |
| DeepCopy.Upgrade.DeepCopy | upgrade/kubelet/pkg/apis/clusterop.isim.dev/v1alpha1/zz_generated.deepcopy.go:38-45 | an equal value that shares no memory with the receiver |
| DeepCopy.Upgrade.AppendCondition | upgrade/kubelet/pkg/apis/clusterop.isim.dev/v1alpha1/types.go:124-124 | append writes in place exactly if there is spare capacity |
| DeepCopy.Upgrade.UpdateNextScheduledTime | upgrade/kubelet/pkg/apis/clusterop.isim.dev/v1alpha1/types.go:83-95 | writes nothing that existed before the call and returns a fresh clone with the schedule's next time |
| DeepCopy.Upgrade.AddSkipLabel | upgrade/kubelet/pkg/apis/clusterop.isim.dev/v1alpha1/types.go:108-114 | the label loop sets the skip key and keeps the other labels |
| DeepCopy.Upgrade.RemoveSkipLabel | upgrade/kubelet/pkg/apis/clusterop.isim.dev/v1alpha1/types.go:139-149 | the label loop removes the skip key only; a nil map stays nil |
| DeepCopy.Upgrade.RecordUpgradeStarted | upgrade/kubelet/pkg/apis/clusterop.isim.dev/v1alpha1/types.go:99-127 | the receiver's label map and conditions are untouched although the value receiver shares them |
| DeepCopy.Upgrade.RecordUpgradeCompleted | upgrade/kubelet/pkg/apis/clusterop.isim.dev/v1alpha1/types.go:131-161 | likewise for the completed condition and the label removal |
| DeepCopy.StartedThenCompletedInMemory | upgrade/kubelet/pkg/apis/clusterop.isim.dev/v1alpha1/types.go:97-161 | both in a row leave the original object as it was |
| DeepCopy.ShallowAppendWritesOriginal | upgrade/kubelet/pkg/apis/clusterop.isim.dev/v1alpha1/zz_generated.deepcopy.go:106-117 | without the deep copy an append would write the original's backing array |
| ApiServer.AcceptsExactly | upgrade/kubelet/pkg/controller/controller.go:382-411 | a write is accepted if and only if its copy is current, the server is reached and every edit that gets in first repeats what is stored |
| ApiServer.RequestEffect | upgrade/kubelet/pkg/controller/controller.go:382-411 | what a write stores: exactly its part of a current object, or nothing but the edits; the status subresource is separate |
| PollEffects.UpdateNextEffect | upgrade/kubelet/pkg/controller/controller.go:254-264 | nothing is written inside the window; outside, the status becomes the schedule's answer or stays |
| PollEffects.RecordStatusEffect | upgrade/kubelet/pkg/controller/controller.go:347-414 | one condition is added if and only if the object was current and the first write lands, none by the second write; next time, labels and spec are left to the users |
| PollEffects.RecordSucceedsExactly | upgrade/kubelet/pkg/controller/controller.go:382-413 | a record succeeds if and only if its object is current and both writes are answered, with only such edits first as change nothing |
| PollEffects.PollIsAlwaysPossible | upgrade/kubelet/pkg/controller/controller.go:242-248 | whatever a poll is given, the run it may start has a complete interleaving |
| PollEffects.ComposedGate | upgrade/kubelet/pkg/controller/controller.go:222-240 | poll reaches startUpgrade if and only if no skip label, 0 <= now - next < 5min (<= if the schedule does not parse), a well-formed selector, and a key is waiting or a node matches |
| PollEffects.EnqueueEffect | upgrade/kubelet/pkg/controller/controller.go:293-345 | enqueueing fails if and only if a requirement is malformed; otherwise the queue gains exactly the matching keys, behind the waiting ones and in the order of the nodes |
| PollEffects.PollShortOfGate | upgrade/kubelet/pkg/controller/controller.go:211-240 | short of the gate a poll writes at most a new next time, and nothing before the caches are synced; queue and nodes are untouched |
| PollEffects.PollEffect | upgrade/kubelet/pkg/controller/controller.go:211-249 | a start is put on record exactly by a poll past the gate whose copy is current and due and whose first write lands; which conditions are appended, and exactly how the next time moves |
| PollOutcomes.OutcomeExactly | upgrade/kubelet/pkg/controller/controller.go:444-461 | past the gate a poll completes its run if and only if its copy is current, maxUnavailable is not negative and the four record calls are answered, else the process ends; rescheduled if and only if the last call is answered |
| PollOutcomes.WaitExactly | upgrade/kubelet/pkg/controller/controller.go:211-240 | exactly when a poll ends without a run, and how: not synced, the update of the next time failed, not due, a malformed selector, or no keys |
| PollOutcomes.ErrorExactly | upgrade/kubelet/pkg/controller/controller.go:211-249 | poll returns an error if and only if the next time is unset or five minutes old and its update fails, or the upgrade is due and its selector malformed, or its run returns one |
| PollOutcomes.DueUpgradeRuns | upgrade/kubelet/pkg/controller/controller.go:211-249 | a due upgrade with a key to work on can be polled, and then runs and is rescheduled |
| PollOutcomes.StaleCopyCrashes | upgrade/kubelet/pkg/controller/controller.go:444-461 | a due upgrade edited by a user and polled through the copy from before ends the process, with a reachable server |
| StoreAfterPoll.ConditionsExactly | upgrade/kubelet/pkg/controller/controller.go:382-411 | the conditions in the store after any poll, also one that ends the process: when a start and when an outcome is added, written out, the outcome with what the run recorded |
| StoreAfterPoll.NextTimeExactly | upgrade/kubelet/pkg/controller/controller.go:254-264 | the next time in the store after any poll: the schedule's answer if the roll or the last write landed, else as before |
| Lifecycle.NoSlotRunsTwice | upgrade/kubelet/pkg/controller/controller.go:211-264 | after a run whose next time reached the store, every later recorded start has N1 <= t1 < N2 <= t2 < N2 + 5min, whatever old copies, failures, edits, crashes and restarts come between |
| Lifecycle.LaterStartsAreLater | upgrade/kubelet/pkg/controller/controller.go:254-264 | once the stored slot is ahead of t, any later start on record is for a due slot after t |
| Lifecycle.LifeStaysBeyond | upgrade/kubelet/pkg/controller/controller.go:254-264 | a stored slot ahead of an instant is never replaced by one that is not |
| SlotRepeats.StartLeavesSlotExactly | upgrade/kubelet/pkg/controller/controller.go:444-461 | a slot whose start is on record stays stored if and only if a record call was not answered, the last write did not land or the schedule does not parse |
| SlotRepeats.SecondStartExactly | upgrade/kubelet/pkg/controller/controller.go:211-289 | some course of events starts that slot again if and only if it stayed stored and its window is open when the first poll ends |
| SlotRepeats.CrashRepeatsSlot | upgrade/kubelet/pkg/controller/controller.go:452-462 | every due slot can be started twice: server out of reach at the end of the run, crash, restart, next poll |
| ConditionHistory.ConditionsOfALife | upgrade/kubelet/pkg/controller/controller.go:442-462 | conditions are append-only, in time order, each completed one right after its started one; whole pairs if nothing crashed |
| ConditionHistory.VerdictOnRecord | upgrade/kubelet/pkg/apis/clusterop.isim.dev/v1alpha1/types.go:116-160 | the two conditions of a run, written out: the second is "failed" with the recorded errors as its message if there are any, else "completed"; they stand for all results but the last maxUnavailable + 1, and poll's error is part of them |
| ConditionHistory.LabelsOfALife | upgrade/kubelet/pkg/controller/controller.go:386-401 | every stored version has labels and spec made by a user: the controller's label edits never reach the store |
| SlotCoverage.SteadyPoll | upgrade/kubelet/pkg/controller/controller.go:211-264 | a steady poll runs if and only if the stored slot is due, and always leaves the first activation after it as stored slot |
| SlotCoverage.CoveredExactly | upgrade/kubelet/pkg/controller/controller.go:211-289 | over any steady life the k-th happening runs the upgrade for an activation if and only if it is the first poll at or after it and comes less than five minutes after the first activation since the poll before |
| SlotCoverage.ActivationIsRunExactly | upgrade/kubelet/pkg/controller/controller.go:254-289 | so an activation is lost if and only if the first poll at or after it is five minutes or more past the first activation since the poll before, which may be an earlier one |
| SlotCoverage.EverySlotIsCovered | upgrade/kubelet/pkg/controller/controller.go:211-289 | with steady polls at most five minutes apart every activation s has a run with now in [s, s + 5min), for a stored slot not after s, whatever edits, cordons, crashes and restarts come between the polls |
| SlotCoverage.EverySlotIsCoveredFromUnset | upgrade/kubelet/pkg/controller/controller.go:254-264 | the same for an object without a next time, from its first poll on |
| SlotCoverage.SlotIsLostIffPollIsLate | upgrade/kubelet/pkg/controller/controller.go:256-259 | the stored slot, once it has come, is run by the next steady poll if and only if that is less than five minutes late, and is replaced by a future one in either case |
| SlotLoss.SteadyLifeAt | upgrade/kubelet/pkg/controller/controller.go:211-249 | polls at any times whatever can be steady: a life with exactly these clock readings exists |
| SlotLoss.EarlierTakesLaterAlong | upgrade/kubelet/pkg/controller/controller.go:256-259 | two activations at most five minutes apart are both lost to a poll five minutes after the first, even if that is at the very instant of the second |
| SlotLoss.PromptPollLosesActivation | upgrade/kubelet/pkg/controller/controller.go:256-259 | with activations every three minutes and polls at minutes 0 and 8, the one at minute 6 is lost |
| NodeQueue.RunOnQueue | upgrade/kubelet/pkg/controller/controller.go:233-249 | a run takes at least half of the filled queue from the front and leaves the rest in order |
| NodeQueue.QueueUnchanged | upgrade/kubelet/pkg/controller/controller.go:233-240 | nothing but a run or the end of the process changes a queue |
| NodeQueue.MatchingKeysExact | upgrade/kubelet/pkg/controller/controller.go:294-320 | the keys enqueued are exactly the nodes outside the control plane whose labels satisfy each requirement |
| NodeQueue.MatchingKeysInOrder | upgrade/kubelet/pkg/controller/controller.go:314-320 | and in the order of the nodes |
| NodeQueue.OnlyVouchedNodesAreTouched | upgrade/kubelet/pkg/controller/controller.go:293-345 | every node ever worked on, or whose flag a poll changed, was listed by a poll of this upgrade that passed the gate, matched its selector and was no control plane or master |
| NodeQueue.NoKeyStarves | upgrade/kubelet/pkg/controller/controller.go:464-473 | while the process lives, the key at position p is taken within Patience(p) runs however the matching nodes change |
| NodeQueue.PatienceIsLogarithmic | upgrade/kubelet/pkg/controller/controller.go:464-473 | that is within m runs if p + 1 < 2^m |
| PatienceBound.PatienceIsTight | upgrade/kubelet/pkg/controller/controller.go:464-473 | and no fewer runs will do: from p + 1 waiting keys Patience(p) - 1 runs in a row can leave the last one |
| NodeQueue.TwoRunsTakeEveryNode | upgrade/kubelet/pkg/controller/controller.go:293-345 | if two consecutive runs match the same nodes and no other key was waiting before, one of them takes each of these nodes |
| NodeQueue.TwoRunsTakeAll | upgrade/kubelet/pkg/controller/controller.go:293-345 | hence if the queue was empty at first and every poll past the gate has matched the same nodes, any two consecutive runs take all of them |
| PatienceBound.TwoRunsCanMissANode | upgrade/kubelet/pkg/controller/controller.go:293-345 | with three or more other keys waiting, two consecutive runs can both miss the only node they match |
| AllUpgrades.OthersSeeAShadow | upgrade/kubelet/pkg/controller/controller.go:478-486 | no step on one upgrade reaches another's object or queue |
| AllUpgrades.EveryUpgradeLivesALife | upgrade/kubelet/pkg/controller/controller.go:194-201 | in any course of all upgrades each goes through a legal life of its own that ends where the course ends |
| CordonHistory.CordonedExactly | upgrade/kubelet/pkg/controller/controller.go:525-573 | in any course of all upgrades a node is cordoned at the end if and only if the last step that set its flag left it so (a run of any upgrade whose drain or uncordon failed, or another actor), or it was so from the start and no step freed it |
| CordonHistory.EveryCordonHasACulprit | upgrade/kubelet/pkg/controller/controller.go:525-573 | if only the controller moves flags, a newly cordoned node has a run whose drain or uncordon of it failed, and has not been upgraded since |
| SchedulePass.ListedExact | upgrade/kubelet/pkg/controller/controller.go:178-184 | exactly the copies without the skip label are polled |
| SchedulePass.ListedInOrder | upgrade/kubelet/pkg/controller/controller.go:178-184 | in the order of the snapshot |
| SchedulePass.PassFailsExactly | upgrade/kubelet/pkg/controller/controller.go:194-208 | a pass returns an error if and only if one of its polls has one to return, in the world that poll finds |
| SchedulePass.PassIndependence | upgrade/kubelet/pkg/controller/controller.go:194-201 | in a calm pass the upgrades that start are those the state before the pass lets start at its one clock reading |
| SchedulePass.OrderDoesNotMatter | upgrade/kubelet/pkg/controller/controller.go:194-201 | the list order decides nothing |
| Ticks.PassIsACourse | upgrade/kubelet/pkg/controller/controller.go:194-201 | the polls of a pass, up to one that crashes, are a course of the world and lead where the pass leads |
| Ticks.PassIsATick | upgrade/kubelet/pkg/controller/controller.go:193-201 | a pass over distinct upgrades is a tick: one clock reading, each upgrade polled once |
| Ticks.EveryLifeIsInOrder | upgrade/kubelet/pkg/controller/controller.go:145-158 | over ticks that do not overlap the life of every upgrade is in clock order, though the polls of different upgrades are not |
| EveryUpgrade.NoSlotRunsTwiceOverTicks | upgrade/kubelet/pkg/controller/controller.go:145-264 | hence over any ticks no upgrade runs a slot again once its new next time reached the store |
| EveryUpgrade.ConditionsOverTicks | upgrade/kubelet/pkg/controller/controller.go:145-264 | every upgrade's conditions are append-only, in time order, each completed one right after its started one |
| EveryUpgrade.EveryUpgradeIsCovered | upgrade/kubelet/pkg/controller/controller.go:145-289 | with ticks at most five minutes apart that poll it steadily, no activation of an upgrade is lost, whatever the other upgrades do |
| Controller.Controller.Queue | upgrade/kubelet/pkg/controller/controller.go:478-486 | a queue is created on first use, under the upgrade's own name |
| Controller.Controller.EnqueueNode | upgrade/kubelet/pkg/controller/controller.go:333-345 | one key is added to the upgrade's own queue |
| Controller.Controller.EnqueueMatchingNodes | upgrade/kubelet/pkg/controller/controller.go:293-331 | the loop fills the upgrade's queue as `Enqueue` says and no other; it fails if and only if a requirement is malformed, and then changes nothing |
| Controller.Controller.UpdateNextScheduledTime | upgrade/kubelet/pkg/controller/controller.go:254-264 | changes this object's versions as `UpdateNext` says and nothing else |
| Controller.Controller.RecordUpgradeStatus | upgrade/kubelet/pkg/controller/controller.go:347-414 | the two writes, for "started" and "completed"; any other status is an error without a write |
| Controller.Controller.RunWorkers | upgrade/kubelet/pkg/controller/controller.go:464-475 | moving the actors in any order ends in the final state of a complete interleaving |
| Controller.Controller.StartUpgrade | upgrade/kubelet/pkg/controller/controller.go:419-476 | the upgrade's state and outcome are those of the specification, the returned error stands for all results but the last maxUnavailable + 1; other upgrades are untouched unless the process ends |
| Controller.Controller.Poll | upgrade/kubelet/pkg/controller/controller.go:211-249 | one poll is one step of the world, for some interleaving of its run; it returns an error exactly when it has one to return |
| Controller.Controller.PollSchedules | upgrade/kubelet/pkg/controller/controller.go:177-209 | the listed upgrades are polled in order as one pass, all at the one clock reading; an error is returned if and only if the update of a next time fails, a due upgrade's selector is malformed or a run returns one |

## Left out

- Informers, clientsets, event recorder, logging, contexts, timeouts and signals: plumbing around the logic modelled here.
- The parser behind `cron.Parse`, the drain helper and the work queue library: used through the contracts named above.
- Polls started by the informer's add handler at the same time as the ticker: polls are taken to be serialized.
- Other actors' cordons during a run: they are moved between polls only, so within a run the flags are the workers' own doing.
- Deletion of a `KubeletUpgrade` and creation of another of the same name, which would find the old one's queue: an object once created stays.
- Shutting a queue down during a run: workers are not modelled as seeing the shutdown flag.
- The requeue of transient failures: `Retry` is never set, so that branch is dead.
- Keys that are not strings or do not split: every key is the name of a cluster-scoped node.
- Error texts: an error is the sequence of failures it was folded from.
- Validation of label keys and values, and `matchLabels`, which the object's schema does not keep.
- Failure policy, strategy and kubelet versions: declared, but never read or written by the controller.
- Times on the wire: the API server's rounding of condition times to whole seconds is not modelled.
- Allocation of a channel too large for memory: only a negative capacity panics here.
- Controller.Controller.RunWorkers: the goroutines are moved one atomic action at a time, so data races on the shared error variable are read as some interleaving.
- Controller.Controller.Queue: the map holds queue values instead of pointers; the variable in startUpgrade and the map entry are the same queue in the source.
- DeepCopy.Upgrade.DeepCopyInto: of the object's metadata only name, version and labels are modelled, and a requirement's list of values is part of the requirement as a value.
- The other programs of the repository: `podlister` lists pods on a timer, `crd` holds samples of dynamic and generated clients, `snapdiff` is an API server that pages through a fixed in-memory table, `cbt-aggapi` is a pointer to another repository. None of them shares state with the controller.
