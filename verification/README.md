# Verified model of the nuwa StatefulSet, Water and Stone controllers

The controllers in this repository manage pods of a custom StatefulSet (with in-place updates and a
bounded rolling update), deployments of a Water (one per coordinate) and StatefulSets of a Stone (one per
coordinate group). This project models that logic in Dafny and proves what it guarantees: for one call,
for one round whatever the API server answers, and for whole runs with an environment in between.

`dafny verify dfyconfig.toml` checks everything.

## How the model is built

* `Pods` holds a pod as the controller reads it (name parsed to a slot, revision label, phase, readiness,
  deletion mark, in-place condition, annotation, container image IDs) and the API server: a map from pod
  names to pods, changed by calls. A call is an action with its outcome; the outcome of the n-th call comes
  from an arbitrary oracle, so every theorem about a round holds for every pattern of failures unless it
  says "fault-free".
* `RoundSpec` is one round of `updateStatefulSet` as a deterministic machine: a program counter over the
  three loops and their early returns, the slots, the four status counters, the API server and the log of
  calls. `StatefulSetControl` is the same round as the program has it: a class whose methods fill and
  replace slots, raise and lower counters and return early. Each method is proved to do exactly what the
  machine does, so what the `Round...` modules prove about the machine holds of the methods.
* `RoundSnapshot`, `RoundSlots`, `RoundUpdates`, `RoundOrder`, `RoundRolling`, `RoundBurst`, `RoundCompletion`,
  `RoundLedger`, `RoundReplay` and `RoundExpectations` prove what one round guarantees. The first three say it in
  terms of the listed pods, the spec and the calls alone, without the machine's own functions.
* `Convergence`, `BlocklessRolling`, `ScaleDownStalls`, `InPlaceProtocol` and `RevisionSafety` are transition
  systems over rounds and environment steps, with invariants and progress over whole runs; `StaleListings` and
  `StalePatches` say exactly when a listing that lags breaks the in-place protocol. `Reconciler` is the whole
  reconcile as a class; its method is proved to be a step of `RevisionSafety` whatever fails.
* `History`, `RevisionControl`, `Expectations`, `InPlaceUpdate`, `Names` and `Identity` are the parts around
  the round; `Coordinates`, `Placement`, `Water` and `Stone` are the placement and clean-up logic.

Parameters stand for what lies outside: the hash of a revision (assumed injective in the collision count
where history invariants need it), the content of a template and the difference of two contents, the order
in which Go walks a map, and the outcomes of calls. The `plan` of a round's job is `InPlaceUpdate.PlannedImages`
of the listed revisions, which `InPlaceUpdate.ShouldDoInPlaceUpdate` computes; `Reconciler` makes that
connection.

## What the proofs found

* `api/v1/statefulset_types.go:84` says that a percentage for maxUnavailable is rounded down; the code rounds
  up (`controllers/stateful_set_control.go:548`). The model rounds up (`RoundRolling.PercentInRange`).
* The same comment says that maxUnavailable only works with Parallel; the code applies it in both modes, and
  so does `RoundRolling.RollingIsBounded`.
* The bound is tested after a pod has been acted on, so zero or a negative number behaves like one
  (`RoundRolling.Limit`). `RoundUpdates.RollingIsExact` gives exactly the pods handled and their calls.
* A bound that does not parse is the one error of a round that no failed call causes
  (`RoundUpdates.RoundFailsIff`); a failed attempt to update in place is no error at all.
* A RollingUpdate block puts new pods below the partition on the current revision whatever the strategy
  type, because `&&` binds tighter than `||` (`controllers/stateful_set_utils.go:274-276`).
* An OrderedReady scale-down stalls if two condemned pods are unhealthy and the top one is not ready;
  `Convergence.ScaleDownStallsIff` is the exact condition. Only replicas are marked ready after an in-place
  update, never condemned pods, so two pods caught in an update beyond the new size, at any ordinals, stall it
  for good, through any template edit (`ScaleDownStalls.StallsForGood`). Otherwise it converges: on a settled
  cluster without failed surplus pods a run reaches its target if and only if of any two pods beyond the
  replica count one is healthy at the start (`ScaleDownStalls.ConvergesIff`).
* Without a RollingUpdate block a slot below the recorded CurrentReplicas is filled with the old revision, even
  when the lost pod was updated already, so a round can move away from the target
  (`BlocklessRolling.FillMovesAway`). Such a set converges all the same, under the same condition
  (`BlocklessRolling.BlocklessConvergesIff`).
* The counters in the status miss the cluster by exactly the failed in-place attempts (CurrentReplicas only) and
  the deleted replicas that were failed and terminating (`RoundLedger.CountersMissExactly`).
* A round whose only unhealthy pod has ordinal 2147483647 panics: the scan for the first unhealthy pod starts
  at that number, names none, and line 375 of `controllers/stateful_set_control.go` dereferences it
  (`StatefulSetControl.PanicsIff`).
* The in-place protocol is safe for every listing that hides no patch, such as one that lags behind the
  kubelet only (`InPlaceProtocol.InPlaceUpdatesAreSafe`, `InPlaceProtocol.KubeletLagHidesNoPatch`). On a
  staler one a retried condition write can mark a pod ready while its patch is unfinished
  (`StaleListings.StaleListingBreaksProtocol`), and a second patch can overwrite the record of an unfinished one
  (`StalePatches.StaleListingForgetsUpdate`). `StalePatches.RoundFollowsIff` says exactly which calls break the
  protocol, `StalePatches.ParallelRoundFollowsIff` exactly which listings.
* A listing of pods that misses a label lets truncation delete that revision from under its pods
  (`RevisionSafety.UnseenLabelDangles`); `RevisionSafety.ReconcileIsSafeIff` is the exact condition.
* If the write of a pod's repair conflicts and the pod cannot be read again, the next attempt finds its own
  unwritten repair and reports success (`Identity.UnwrittenSuccess`); success means the API server has the
  repair in exactly the other cases (`Identity.SuccessIsWrittenIff`).
* A patched pod that vanishes before a listing shows it with its new label blocks the rolling of that revision
  for good (`RoundExpectations.UnseenPodBlocksRolling`).
* Returning to an earlier template reuses its revision name only while that revision is stored. After a
  truncation the name can change (`History.TruncatedRollbackRenames`, `History.RecreatedNameIff`).
* The pattern for image fields has no anchor, neither at its start (`InPlaceUpdate.AnyFrontPasses`) nor at its
  end, so a change of `imagePullPolicy` counts as an in-place update of an image
  (`InPlaceUpdate.PullPolicyIsNoImage`); by `InPlaceUpdate.PatchStartsIncomplete` such an update then waits for
  an image ID that nothing changes. An in-place update ends with the planned images, and changes nothing else,
  if and only if the pattern with anchors would have matched (`InPlaceUpdate.PatchMeansPlanIff`).
* A set whose own name ends in a dash and an int32 number never gets its own requests
  (`Names.SetRequestsReachTheSet`), and a Stone makes such sets exactly from groups with a numeric end
  (`Stone.SetIsReachedIff`).
* `updateIdentity` renames a pod without ordinal to `<set>--1`, which parses as ordinal 1 of another set
  (`Names.NoOrdinalPrintsAmbiguously`); so the repair works exactly for pods with an ordinal
  (`Identity.IdentityIsRepaired`).
* Two hosts of one zone and rack share a Water deployment. Each coordinate gets the size it asks for if and
  only if such coordinates agree (`Water.SizedIffAgreeing`); if not, the status can disagree with the spec
  (`Water.CollidingNamesMisreport`).
* The clean-up of a Water depends on its annotation: without one nothing is removed
  (`Water.NothingIsRemovedUnrecorded`). A reconcile that stops before it writes the annotation leaves orphans
  exactly if a later spec drops a coordinate that only the stopped one named (`Water.OrphansAfterStopsIff`).

## Model

| member | source | states |
|---|---|---|
| Reconciler.StatefulSetReconciler.UpdateStatefulSet | controllers/stateful_set_control.go:85-133 | One whole reconcile. If the update revision cannot be created nothing changes. Otherwise, whatever calls fail, it is a step of the RevisionSafety system (so a label dangles exactly if truncation deletes one the listing missed) and of the expectations cache; the in-place plan is that of the listed revisions; the update revision holds the template, the current one is the recorded one whenever that is listed, and new pods of either get the readiness gate of that revision's content; it panics, before any call, exactly if the scan names no unhealthy pod; success means the status records the round's counters, completion applied, and every doomed revision is deleted; a successful fault-free one on a fresh listing is a step of the runs of BlocklessRolling, recorded count and current revision included. |
| Reconciler.StatefulSetReconciler.ReviseAndRun | controllers/stateful_set_control.go:93-108 | The two revisions and the round. Whatever fails, the round goes by the plans of the listed revisions; both its revisions are stored, the update one with the template, the current one under the recorded name whenever that is listed, and a new pod of either gets the gate of that revision's content. |
| Reconciler.StatefulSetReconciler.UpdateStatefulSetStatus | controllers/stateful_set_control.go:660-679 | On success the recorded status has the computed counters and update revision, and, if the type is RollingUpdate and as many pods are updated and ready as there are, the update revision and its count as the current ones, otherwise the current ones it was given; skipping the write when nothing differs keeps that, except for a generation that may only be newer. On failure the status is untouched. |
| Reconciler.StatefulSetReconciler.RunRound | controllers/stateful_set_control.go:269-625 | The round run by the class has the result, counters and final pods of the machine, the pods are the old ones with the logged calls applied in order, rolling is permitted exactly if nothing is awaited after observing the listing, and the cache afterwards awaits the successful patches on top. |
| Reconciler.StatefulSetReconciler.Truncate | controllers/stateful_set_control.go:161-192 | Deletes a prefix of the doomed revisions (all on success), sparing the current one, the update one and every listed label. |
| Reconciler.StatefulSetReconciler.RecordAndTruncate | controllers/stateful_set_control.go:107-132 | The history is truncated only after the status is recorded; a lost status write leaves both alone. |
| Reconciler.CreatedPodsAreGated | controllers/stateful_set_utils.go:273-290 | Every pod a round of a reconcile creates is labelled with a stored revision and has the readiness gate if and only if that revision's content lists it. |
| Reconciler.Carries | controllers/stateful_set_utils.go:383-394 | What a fault-free reconcile records as current revision and CurrentReplicas is what the runs of BlocklessRolling carry from round to round. |
| RoundReplay.RoundReplays | controllers/stateful_set_control.go:384-625 | Everything a round changes on the API server is explained by its log of calls. |
| RoundReplay.SlotTouches | controllers/stateful_set_control.go:386-485 | Whatever the outcomes, the step of a slot changes no pod of another ordinal, neither here nor on the API server. |
| RoundSnapshot.SlotIsLast | controllers/stateful_set_control.go:322-326 | A slot has the last listed pod of its ordinal, and is empty exactly if no listed pod has that ordinal. |
| RoundSnapshot.TallyCountsAll | controllers/stateful_set_control.go:303-320 | The counters at the start are the number of listed pods, of those that run and are ready, and for either revision of the accepted ones not on their way out. |
| RoundSnapshot.ReadyIsListed | controllers/stateful_set_control.go:307-310 | ReadyReplicas after the round, whatever its outcomes, is the number of listed pods that run and are ready. |
| RoundSnapshot.CreationsAreVersioned | controllers/stateful_set_utils.go:273-290 | Whatever the outcomes, every pod a round creates is a new pod of a slot with the revision the spec asks for there (the current one below the partition, or below CurrentReplicas for type RollingUpdate without a block) and the readiness gate of that revision's template. |
| RoundSlots.RoundIsExact | controllers/stateful_set_control.go:384-530 | A whole round, call by call, for any mode and outcomes: the slots in order, each with the calls its pod asks for (delete and replace a failed one, create an unaccepted one, otherwise wait if OrderedReady and on its way out, mark if due, repair if that worked and the pod is ready or the set Parallel), up to the first where a call fails or OrderedReady waits; then the pods beyond the replica count, all of them from the top in Parallel mode, otherwise the top one alone unless it or another one forbids it; then the update of stale pods. |
| RoundSlots.SlotsAreExact | controllers/stateful_set_control.go:386-485 | The slot phase on its own: it goes past all slots, or the round ends at the first that does not go on, with an error exactly if a call failed there. |
| RoundSlots.ScaleDownIsExact | controllers/stateful_set_control.go:492-530 | In Parallel mode the pods beyond are deleted from the greatest ordinal down, those on their way out skipped, up to the first deletion that fails, which is the error of the round. |
| RoundUpdates.RollingIsExact | controllers/stateful_set_control.go:532-624 | For any mode and outcomes. Pods are updated if and only if the set may be rolled (not deleting, past its slots, not OnDelete, nothing awaited, bound well formed, not paused) and no call failed before. If all deletions work the pods handled are exactly those from the partition on that are on top or have fewer busy pods above them than the bound; a failed deletion ends it at its pod. A pod at the update revision, on its way out or in an unfinished update gets no call; one that policy or templates do not let be patched gets one deletion; any other gets condition False, the patch if that was written, and a deletion exactly if the last of these failed without conflict and the policy is not InPlaceOnly. |
| RoundUpdates.RoundFailsIff | controllers/stateful_set_control.go:384-625 | For any mode and outcomes, a round ends with an error if and only if a call failed that is not part of an in-place attempt, and then that is its last call, or it gets to updating pods and finds a malformed bound. |
| RoundUpdates.CompletedMeans | controllers/stateful_inplace_utils.go:122-151 | An update counts as completed exactly if there is no record, or the record decodes, is of the pod's revision, and the first status of each of its containers exists and shows another image ID. |
| StatefulSetControl.RoundControl.UpdateStatefulSet | controllers/stateful_set_control.go:85-104 | For every listing and oracle the imperative round panics exactly if the scan names no unhealthy pod, before any call, and otherwise reaches exactly the state, log, counters and result of the machine started on the same listing; updates are allowed exactly when nothing is awaited after observing the listing; the cache afterwards awaits exactly the successful patches on top. |
| StatefulSetControl.RoundControl.Partition | controllers/stateful_set_control.go:290-331 | One pass gives the numbers of listed, of running and ready, and of current and updated pods, in each slot the last listed pod of that ordinal, and the pods at or beyond the replica count in listing order. |
| StatefulSetControl.RoundControl.FillSlots | controllers/stateful_set_control.go:333-344 | Every slot ends up with its listed pod or a new pod at the revision the partition gives. |
| StatefulSetControl.RoundControl.FirstUnhealthyPod | controllers/stateful_set_control.go:349-376 | The two scans with one running minimum find the first unhealthy pod, replicas before condemned ones, unless only pods of the maximal ordinal are unhealthy, where they name none. |
| StatefulSetControl.PanicsIff | controllers/stateful_set_control.go:370-376 | A round panics if and only if some pod of ordinal 2147483647 is unhealthy and no replica and no other condemned pod is. |
| StatefulSetControl.SortByOrdinal | controllers/stateful_set_control.go:346-347 | The condemned pods sorted by ordinal: a permutation, ordered, with no promise about ties. |
| StatefulSetControl.RoundControl.RecreateFailedPod | controllers/stateful_set_control.go:389-413 | A failed pod is replaced in its slot only after its deletion succeeded; refines the machine's step. |
| StatefulSetControl.RoundControl.CreateReplica | controllers/stateful_set_control.go:415-436 | Creating an empty slot's pod, with the counters and the early return of OrderedReady; refines the machine's step. |
| StatefulSetControl.RoundControl.KeepReplica | controllers/stateful_set_control.go:438-484 | Waiting, marking ready and repairing a created pod in the order of the code; refines the machine's step. |
| StatefulSetControl.RoundControl.ReplicaLoop | controllers/stateful_set_control.go:386-485 | The loop over the slots with its early returns refines the machine's run. |
| StatefulSetControl.RoundControl.ScaleOne | controllers/stateful_set_control.go:494-529 | One condemned pod: wait, block or delete with the counters lowered; refines the machine's step. |
| StatefulSetControl.RoundControl.ScaleLoop | controllers/stateful_set_control.go:492-530 | The scale-down loop from the greatest ordinal refines the machine's run. |
| StatefulSetControl.RoundControl.InPlaceUpdatePod | controllers/stateful_set_control.go:627-655 | The patch is sent only after condition False was written, and the pod is expected only after the patch succeeded. |
| StatefulSetControl.RoundControl.ReplaceStale | controllers/stateful_set_control.go:561-601 | The calls about a stale pod are exactly those its policy, its plan and its last update ask for (as in RoundUpdates.RollingIsExact), and the error is that of a failed deletion; refines the machine's step, counter included. |
| StatefulSetControl.RoundControl.RollLoop | controllers/stateful_set_control.go:555-624 | The rolling loop with its bound on unavailable pods refines the machine's run. |
| RoundOrder.SequentialIsPrefixOfParallel | controllers/stateful_set_control.go:384-625 | On one snapshot and one oracle the calls of an OrderedReady round are a prefix of the calls of the Parallel round. |
| RoundOrder.SequentialRoundMakesOneChange | controllers/stateful_set_control.go:387-530 | An OrderedReady round is upkeep of pods followed by at most one of: fill one slot all of whose lower slots are healthy; delete the condemned pod with the greatest ordinal while all replicas are healthy; roll, with none condemned. |
| RoundOrder.RollAppends | controllers/stateful_set_control.go:555-621 | One turn of the rolling loop only adds calls about its own stale pod at or above the partition: condition False, a patch to the update revision when the last one is complete, or a deletion that InPlaceOnly forbids whenever a patch is possible. |
| RoundOrder.RunEnds | controllers/stateful_set_control.go:269-625 | Every round ends. |
| RoundRolling.RollingIsBounded | controllers/stateful_set_control.go:543-624 | No pod below the partition is acted on; a pod is acted on only while fewer than max(1, maxUnavailable) higher pods are stale, unhealthy or mid-update; at most that many are acted on; in OrderedReady mode at most that many of all replicas are unhealthy or acted on afterwards. |
| RoundRolling.RollingRespectsTheSpec | controllers/stateful_set_control.go:543-612 | Every call of the rolling phase is about a stale, non-terminating pod at or above the partition; a patch needs a policy other than ReCreate, a finished last update and carries the planned images; under InPlaceOnly only a pod with no possible patch is deleted; an absolute bound (one by default, zero acting as one) limits the pods touched. |
| RoundRolling.RollingNeedsPermission | controllers/stateful_set_control.go:532-555 | A set that is being deleted, updates on delete, is paused, has a malformed bound or awaits an earlier patch makes no call of the rolling phase; one being deleted makes no call at all. |
| RoundRolling.PercentInRange | controllers/stateful_set_control.go:543-549 | For 1 to 100 percent of at least one replica the bound is the exact quotient rounded up and lies in 1..n. |
| RoundBurst.ParallelRoundIsComplete | controllers/stateful_set_control.go:387-530 | After an error-free Parallel round every slot in need got its pod, failed and non-terminating condemned pods were deleted, finished updates marked ready, lost identities repaired, nothing else created or repaired; new pods carry the current revision exactly below the partition, or below CurrentReplicas if a RollingUpdate type has no block. |
| RoundCompletion.CompletionIsSound | controllers/stateful_set_utils.go:383-394 | In an error-free round completeRollingUpdate fires if and only if the type is RollingUpdate, every listed pod was healthy at the update revision, every slot taken and none condemned; such a round only does upkeep. |
| RoundLedger.CountersMatchTheCluster | controllers/stateful_set_control.go:303-427 | Fault-free, with no replica both failed and terminating: Replicas is listed pods plus slots filled, Current and Updated count exactly the surviving non-terminating pods of their revision not patched this round, and both lie in 0..Replicas. |
| RoundLedger.CountersMissExactly | controllers/stateful_set_control.go:303-601 | Whatever the outcomes: Replicas is listed pods plus slots filled less slots emptied, Ready is the number of listed pods that run and are ready, and Current and Updated are the number of surviving non-terminating pods of their revision not patched this round, less exactly the failed and terminating replicas of that revision it deleted and, for Current, its failed in-place attempts. |
| RoundLedger.CountersRightIff | controllers/stateful_set_control.go:389-405 | So both counters are right if and only if no call of the round was such a one about a pod of their revision. |
| RoundLedger.ReplaceEffect | controllers/stateful_set_control.go:561-601 | Whatever the outcomes, handling a stale pod keeps both revision counters in step with the API server, failed in-place attempts aside, and touches no other pod. |
| RoundExpectations.ObservedAreCleared | controllers/stateful_set_control.go:100-103 | Observing a listing clears exactly the awaited pods it shows with the update label. |
| RoundExpectations.OnlyPatchedAreExpected | controllers/stateful_set_control.go:627-655 | The pods a round patched, and no others, are awaited on top. |
| RoundExpectations.ReconcileAwaits | controllers/stateful_set_control.go:100-103 | After a reconcile exactly those pods are awaited that were and are not shown, or were patched now; while one is awaited and not shown no rolling call is made. |
| RoundExpectations.UnseenPodBlocksRolling | controllers/stateful_set_control.go:537-541 | A patched pod that no listing shows with its new label blocks rolling in every later round of that revision, and the first listing that shows it ends that. |
| Convergence.EveryRunConverges | controllers/stateful_set_control.go:85-133 | In both modes, along any run of fault-free rounds, with a RollingUpdate block or a type other than RollingUpdate, the distance to the target (missing, failed, stale, unmarked and surplus pods) falls every round until zero; after as many rounds as the initial distance every slot is healthy, at the update revision from the partition on, and nothing is beyond the replica count, for good. The environment settles pods in between, but a pod with the readiness gate becomes ready only after the controller has marked it. |
| Convergence.ReconcileDecreasesWork | controllers/stateful_set_control.go:269-625 | One such round strictly decreases the distance unless it is zero, a round that only marks pods included; it keeps the settled state, the condition on awaited pods, and that of any two surplus pods one is healthy. |
| Convergence.RoundDecreasesWork | controllers/stateful_set_control.go:384-625 | On a settled listing, complete pods waiting for their mark included, a fault-free round ends without error, strictly decreases the distance unless it is zero, and only ever deletes pods beyond the replica count. |
| Convergence.NoWorkIffTarget | controllers/stateful_set_control.go:262-268 | On a settled cluster the distance is zero exactly at the target. |
| Convergence.EmptySetFills | controllers/stateful_set_control.go:414-459 | Such runs exist: a set of one replica with the readiness gate creates its pod in one round, only marks it in the next, and is then at its target. |
| Convergence.ScaleDownStallsIff | controllers/stateful_set_control.go:492-530 | With healthy replicas an OrderedReady scale-down makes no call if and only if the top condemned pod is terminating, or is not ready while another condemned pod is unhealthy; otherwise it deletes exactly the top one. |
| BlocklessRolling.EveryBlocklessRunConverges | controllers/stateful_set_utils.go:264-290 | Without a RollingUpdate block, too, a measure of the rounds left falls every round until zero, where the set is at its target for good, whatever CurrentReplicas the status recorded at the start; each round reads the count and current revision the one before wrote. |
| BlocklessRolling.BlocklessConvergesIff | controllers/stateful_set_control.go:387-625 | With no failed surplus pods such a run reaches its target exactly under the condition of ConvergesIff. |
| BlocklessRolling.RoundRests | controllers/stateful_set_control.go:532-625 | A fault-free round that is Parallel or finds no slot in need leaves at most one slot in need, and that only when no surplus pod stays and every pod above it is updated; the count it reports is that of the pods of the current revision that stay. |
| BlocklessRolling.FillMovesAway | controllers/stateful_set_utils.go:273-290 | The distance of Convergence is no measure here: filling the slot of a lost pod below the recorded count increases it. |
| ScaleDownStalls.StallsForGood | controllers/stateful_set_control.go:386-530 | Any two pods beyond the replica count that wait for their mark both stay in every later state of an OrderedReady set, through any template edits, failures and outcomes, and no later state is the target. |
| ScaleDownStalls.RoundKeepsPair | controllers/stateful_set_control.go:492-530 | Whatever the outcomes, an OrderedReady round leaves any two unready, non-terminating pods beyond the replica count exactly as they are. |
| ScaleDownStalls.ConvergesIff | controllers/stateful_set_control.go:85-133 | From a settled cluster without failed surplus pods a run is at its target after as many rounds as the initial distance, and from then on, if and only if the set is Parallel or of any two surplus pods one is healthy; otherwise it never is. |
| ScaleDownStalls.TwoSickCondemnedBlockScaleDown | controllers/stateful_set_control.go:504-513 | If the top condemned pod is not ready and another one is unhealthy, an OrderedReady round, whatever its outcomes, makes no call about a condemned pod; with no replicas it makes none at all. |
| InPlaceProtocol.InPlaceUpdatesAreSafe | controllers/stateful_set_control.go:561-588 | In every reachable state, with crashes between any two calls and listings that lag without hiding a patch: the annotation's revision is the label, an unfinished update shows condition False, and no patch is sent to a pod whose last one is unfinished. |
| InPlaceProtocol.NextSafe | controllers/stateful_set_control.go:446-459 | Every step (starting a round on a listing that hides no patch, sending a call, a crash, kubelet and deletions) keeps that invariant, including the guards of the calls still to be sent. |
| InPlaceProtocol.RoundIsGuarded | controllers/stateful_set_control.go:627-655 | Whatever the outcomes, if each pod the listing shows complete is complete on the API server or gone, each condition write True and each patch of the round will meet a finished update, and each patch a condition False. |
| InPlaceProtocol.KubeletLagHidesNoPatch | controllers/stateful_inplace_utils.go:122-151 | A listing that is only behind the kubelet and deletions hides no patch. |
| StaleListings.MarkIsSafeIff | controllers/stateful_pod_control.go:164-181 | Writing condition True keeps the protocol if and only if the API server's copy of the pod is complete. |
| StaleListings.PatchIsSafeIff | controllers/stateful_pod_control.go:140-162 | A patch keeps it if and only if the condition is False already or no container it names reports a status; the record it finds is overwritten. |
| StaleListings.RoundIsSafeIff | controllers/stateful_set_control.go:446-459 | For any mode, outcomes and listing, a round keeps the protocol's clauses on states (the annotation's revision is the label, an unfinished update shows condition False) in every state it passes through if and only if each mark it writes is on a pod complete on the API server or gone. |
| StaleListings.ParallelRoundIsSafeIff | controllers/stateful_set_control.go:446-459 | An error-free Parallel round keeps these clauses all along if and only if no slot shows a finished update waiting for its mark while the API server's copy is unfinished. |
| StalePatches.RoundFollowsIff | controllers/stateful_set_control.go:627-655 | For any mode and outcomes and any listing of accepted pods, every patch of a round meets a finished update if and only if each patched pod is complete on the API server at the start, or gone; and the round keeps the whole protocol if and only if that holds of its marks and its patches. |
| StalePatches.PatchesFindTheStart | controllers/stateful_set_control.go:555-588 | Until a pod is patched the calls of a round change neither whether it is there nor whether its update is finished. |
| StalePatches.ParallelRoundFollowsIff | controllers/stateful_set_control.go:446-588 | An error-free Parallel round keeps the whole protocol if and only if its listing shows no such slot waiting for a mark, and no stale, planned, complete pod from the partition on, which the rolling loop reaches before its bound is used up, whose update is unfinished on the API server. |
| StalePatches.StaleListingForgetsUpdate | controllers/stateful_set_control.go:561-588 | A family of listings where every mark is in order and the patch is not: it meets an unfinished update and overwrites its record. |
| StalePatches.HidingNoPatchIsEnough | controllers/stateful_inplace_utils.go:198-218 | A listing that hides no patch shows neither such a slot nor such a pod due for a patch. |
| StaleListings.StaleListingBreaksProtocol | controllers/stateful_pod_control.go:164-181 | A family of failing listings: the copy is from before the pod's last patch, and the round marks the unfinished update ready. |
| InPlaceUpdate.ShouldDoInPlaceUpdate | controllers/stateful_inplace_utils.go:51-117 | An in-place update is planned exactly when the policy asks for it, the old revision is listed, both contents decode and every difference in the spec replaces an image field of a listed container; the plan holds all operations and the new images, and is the one a round goes by. |
| InPlaceUpdate.PlannedImagesAreTheLast | controllers/stateful_inplace_utils.go:92-115 | A container is planned exactly if some operation is about it, with the value of the last such operation. |
| InPlaceUpdate.ImageEditIsPlanned | controllers/stateful_inplace_utils.go:92-115 | A template edit that replaces the image of one listed container plans exactly that image for it. |
| InPlaceUpdate.OtherEditIsNot | controllers/stateful_inplace_utils.go:98-108 | A template edit of the spec that adds or removes something, or changes a field not named like an image, is never done in place. |
| InPlaceUpdate.PullPolicyPasses | controllers/stateful_inplace_utils.go:35 | The test admits more than images: imagePullPolicy passes. |
| InPlaceUpdate.AnyFrontPasses | controllers/stateful_inplace_utils.go:35 | Nor does the test look at where in a path the pattern begins. |
| InPlaceUpdate.PullPolicyIsNoImage | controllers/stateful_inplace_utils.go:98-113 | A pull policy is planned as if it were an image, and the pod keeps the image it had. |
| InPlaceUpdate.CheckInPlaceUpdateCompleted | controllers/stateful_inplace_utils.go:122-151 | Crossing off a map while scanning decides exactly whether every recorded container's first status shows another image ID. |
| InPlaceUpdate.PodInPlaceUpdate | controllers/stateful_inplace_utils.go:155-196 | All operations are applied to the pod's containers in order, or none if one has no target; label and annotation get the same revision in the same write, and the record holds the old image ID of each container of the plan that reports a status (the last one under a name), no other. |
| InPlaceUpdate.PatchMeansPlanIff | controllers/stateful_inplace_utils.go:35-169 | For operations the test allows and distinct container names: on every pod that lists the template's containers first the operations apply, put the planned image into each planned container and change nothing else in the containers, if and only if each operation on the spec has exactly the path of an image field. |
| InPlaceUpdate.PatchStartsIncomplete | controllers/stateful_inplace_utils.go:155-196 | A fresh patch is incomplete exactly if it concerns a container that reports a status, and becomes complete exactly when all those report other image IDs. |
| RevisionSafety.RevisionsNeverDangle | controllers/stateful_set_control.go:161-258 | Over any run of edits, rounds cut short anywhere, lost status writes and partial truncations, with listings of pods that show every label, however outdated, every pod's label and the recorded current revision name a stored revision. |
| RevisionSafety.ReconcileIsSafe | controllers/stateful_set_control.go:85-133 | One reconcile on such a listing keeps that, however far it gets. |
| RevisionSafety.ReconcileIsSafeIff | controllers/stateful_set_control.go:161-192 | On any listing of pods and however far it gets, a reconcile leaves no dangling revision if and only if no pod keeps a label that truncation deletes; a label of a listed pod is never deleted. |
| RevisionSafety.FreshReconcileIsSafe | controllers/stateful_set_control.go:85-133 | A reconcile on a fresh listing leaves no dangling revision. |
| RevisionSafety.UnseenLabelDangles | controllers/stateful_set_control.go:161-192 | A family where one dangles: the listing misses a pod with an old label, and no history is kept. |
| RevisionSafety.RecordedCurrentStays | controllers/stateful_set_control.go:243-255 | A reconcile, however far it gets, works with the recorded current revision, keeps it stored, and records another one only when the update is complete. |
| RevisionSafety.PartitionKeepsRevision | controllers/stateful_set_utils.go:273-290 | Over any sequence of edits without a completed update, every pod created below the partition has the label it would have had at the start. |
| RevisionSafety.HistoryStaysDistinct | controllers/stateful_set_control.go:85-133 | Over the same runs names, contents and numbers of the stored revisions stay pairwise distinct. |
| History.ProbeStops | controllers/revision_control.go:58-86 | With names injective in the collision count, probing meets only true collisions, at most one per stored revision, and ends at a name that is free or holds the content. |
| History.AdvanceKeepsHistory | controllers/stateful_set_control.go:200-258 | Names, contents and numbers stay distinct; the update revision holds the template and has the unique greatest number; the store grows by one exactly if no revision held the template; other revisions stay as they are. |
| History.AdvanceIsIdempotent | controllers/stateful_set_control.go:219-233 | Without an edit in between a second call changes nothing and returns the same revision. |
| History.CurrentIsRecorded | controllers/stateful_set_control.go:243-255 | The current revision is the listed one of the recorded name; the update revision stands in exactly if none is listed. |
| History.AdvanceKeepsContents | controllers/stateful_set_control.go:200-240 | The update revision is stored with the template, and every stored content stays. |
| History.HistoryOverRuns | controllers/stateful_set_control.go:161-258 | Over any sequence of templates, with truncations and lost writes of a moved revision in between, the history stays distinct, each update revision is stored with its template and is the newest unless its move was lost, and a stored revision of a template is always reused. |
| History.RevisionsStay | controllers/stateful_set_control.go:161-258 | As long as a revision is stored its content is the same, through edits and truncations. |
| History.RollbackReusesName | controllers/stateful_set_control.go:161-258 | Returning to an earlier template, any number of reconciles later, gives the revision name it had then if that revision has been stored all along. |
| History.RecreatedNameIff | controllers/revision_control.go:58-86 | If no stored revision holds the template any more, the one created gets the name of a given count if and only if that name is free and all names from the recorded count up to it are taken. |
| History.TruncatedRollbackRenames | controllers/stateful_set_control.go:161-258 | A concrete family: a template's revision is truncated after a true collision with it, and the return to the template gives another name. |
| History.TruncationIsExact | controllers/stateful_set_control.go:161-192 | No live revision is deleted, exactly min(limit, non-live) others are left, and each of them is newer than each deleted one, also when this round moved a revision to the top after the listing. |
| RevisionControl.RevisionStore.CreateControllerRevision | controllers/revision_control.go:58-86 | Ends within one probe more than stored revisions, never overwrites, returns a fresh revision or a stored one with the same content, and counts exactly the true collisions; the first call that fails otherwise ends it with nothing stored. |
| RevisionControl.RevisionStore.UpdateControllerRevision | controllers/revision_control.go:88-103 | A failed write is swallowed: the bumped copy is returned, the store is unchanged. |
| RevisionControl.RevisionStore.GetStatefulSetRevisions | controllers/stateful_set_control.go:200-258 | The store advances as History says unless a bump was lost, or stays as it is if a new revision cannot be created; the update revision is the newest listed one or has the number after it; the current one is a listed one of the recorded name whenever there is one, and the update one otherwise. |
| RevisionControl.RevisionStore.TruncateHistory | controllers/stateful_set_control.go:161-192 | Exactly a prefix of the oldest non-live revisions beyond the limit is deleted, all of it when no call fails. |
| Expectations.CacheIsHistory | controllers/util.go:61-113 | After any sequence of operations a pod is pending exactly if it was expected for that revision and nothing since reset the key or saw it carry the revision; no entry is empty. |
| Expectations.SatisfiedIffNothingAwaited | controllers/util.go:95-107 | Satisfied exactly when the history awaits no pod, and the pods reported are exactly the awaited ones. |
| Expectations.KeysAreIndependent | controllers/util.go:61-113 | What a key sees is what its own operations alone would give. |
| Expectations.UpdateExpectations.ExpectUpdated | controllers/util.go:61-75 | The cache stays the replay of its history; the pod is pending; other keys are untouched. |
| Expectations.UpdateExpectations.ObserveUpdated | controllers/util.go:77-93 | The cache stays the replay of its history; other keys are untouched. |
| Expectations.UpdateExpectations.SatisfiedExpectations | controllers/util.go:95-107 | Returns the pending pods, and satisfied exactly if there are none. |
| Expectations.UpdateExpectations.DeleteExpectations | controllers/util.go:109-113 | The key is reset; the cache stays the replay of its history. |
| Names.ParseOfPrint | controllers/stateful_set_utils.go:50-86 | Parsing a printed pod name gives back the set, whatever its name, and every int32 ordinal. |
| Names.PrintOfParse | controllers/stateful_set_utils.go:50-86 | Printing a parse gives back the name if and only if the digits are canonical. |
| Names.KeysAreNames | controllers/stateful_set_utils.go:56-86 | The keys of the model stand for names one to one and carry the parsed ordinal. |
| Names.NoOrdinalPrintsAmbiguously | controllers/stateful_set_utils.go:183-187 | The name given to a pod without ordinal parses as ordinal 1 of another set. |
| Names.PodRequestsReachTheSet | controllers/stateful_set_utils.go:464-476 | A request named after a pod is redirected to its set. |
| Names.SetRequestsReachTheSet | controllers/stateful_set_utils.go:464-476 | A request for a set reaches it if and only if its name has no ordinal. |
| Names.ClaimNamesAreInjective | controllers/stateful_set_utils.go:89-92 | A claim is named after its template and its pod; within one set, claim names are equal exactly for the same claim and ordinal. |
| Identity.IdentityIsRepaired | controllers/stateful_set_utils.go:100-107 | Renaming establishes the identity if and only if the pod has an ordinal. |
| Identity.StorageIsRepaired | controllers/stateful_set_utils.go:110-172 | Rebuilt volumes match the storage, in any order of the claim map, and the other volumes stay in order. |
| Identity.RepairIsComplete | controllers/stateful_pod_control.go:90-113 | One repair gives the pod the name of its ordinal, the set's namespace, the name label and, for each claim template, a last volume that is the pod's own claim of it; it keeps ordinal, local volumes, other labels, hostname, subdomain and affinity, and leaves a second one, in any other order, nothing to do. |
| Identity.NewPodsConform | controllers/stateful_set_utils.go:239-267 | A new pod has the name of its ordinal, the set's namespace, the name label and its own claims, keeps the template's other labels and local volumes, sits under the key of its ordinal, has its own name as hostname and the service as subdomain, goes to the coordinate of its ordinal unless the template has an affinity, and a repair would leave it as it is. |
| Identity.StatefulPod.Repair | controllers/stateful_pod_control.go:90-113 | One attempt in place does exactly the repair, says so exactly if something did not match, and fails exactly if claims are needed and cannot be created. |
| Identity.StatefulPod.UpdateStorage | controllers/stateful_set_utils.go:150-172 | The two loops rebuild the volumes as claims first, local volumes after. |
| Identity.UpdateStatefulPod | controllers/stateful_pod_control.go:90-138 | With conflicts, re-reads and retries: success means that the pod in memory matches, and that the copy on the API server does exactly if not the last write conflicted and its re-read failed; a matching pod is never written; only conflicts are retried; a claim that cannot be created ends it before the write. |
| Identity.SuccessIsWrittenIff | controllers/stateful_pod_control.go:116-138 | For any outcomes: a success leaves a matching copy on the API server if and only if it is not the case that the last write conflicted and its re-read failed. |
| Identity.UnwrittenSuccess | controllers/stateful_pod_control.go:123-132 | A family where it is the case: success after one conflicting write, with the API server's copy as it was. |
| Coordinates.In | api/v1/coordinate.go:95-102 | Found exactly if an equal coordinate, replicas aside, is listed. |
| Coordinates.Difference | api/v1/coordinate.go:70-92 | The two passes list, in order, the coordinates of the first list with no equal in the second, then those of the second with none in the first. |
| Coordinates.DifferenceIsSymmetric | api/v1/coordinate.go:70-92 | Difference is the symmetric difference, empty exactly when each list covers the other. |
| Water.WaterReconciler.UpdateCleanOldDeployment | controllers/water_controller.go:265-307 | Exactly the deployments of coordinates that left the spec go, in order up to the first error; the early exit on an empty difference loses nothing. |
| Water.WaterReconciler.UpdateWater | controllers/water_controller.go:230-263 | The status is the sums over the coordinates, or untouched if a deployment is missing. |
| Water.WaterReconciler.Reconcile | controllers/water_controller.go:49-105 | One reconcile with any of its calls failing: either the spec is recorded and the deployments are cleaned and sized for it, with the status reported, or it stopped before, with a prefix of the old deployments gone, a prefix of the new ones made, and record and status as they were. |
| Water.ReconcileLeavesNoOrphans | controllers/water_controller.go:265-307 | If every deployment was named by the recorded spec, every one is named by the new spec afterwards, and all served coordinates have theirs. |
| Water.NoOrphansOverRuns | controllers/water_controller.go:49-105 | Starting with no deployment, after any sequence of edits and reconciles there is no orphan. |
| Water.NoOrphansIff | controllers/water_controller.go:49-105 | A complete reconcile leaves no orphan if and only if each deployment there was is named by the spec recorded before it or by its own. |
| Water.OrphansAfterStopsIff | controllers/water_controller.go:49-123 | After any sequence of reconciles that stopped before recording their spec, the next complete one leaves no orphan if and only if each deployment they made is named by the last recorded spec or by its own. |
| Water.NothingIsRemovedUnrecorded | controllers/water_controller.go:265-275 | Without the annotation nothing is removed: orphans are left exactly if there were some. |
| Water.SizedIffAgreeing | controllers/water_controller.go:71-90 | Under Release each coordinate gets the size it asks for if and only if coordinates sharing a deployment agree. |
| Water.ReleaseReportsWhatIsDesired | controllers/water_controller.go:230-263 | Then already equals desired in the status, for replicas and deployments. |
| Water.CollidingNamesMisreport | controllers/util.go:130-136 | Two hosts of one rack with different counts make the status report twice the later count. |
| Water.NamesAgreeIff | controllers/util.go:130-136 | Two coordinates share a deployment if and only if zone-rack, as one text, differs at most in the case of letters; without dashes in zones, exactly if zone and rack do. |
| Water.DeploymentsAre | controllers/water_controller.go:71-90 | After a reconcile the deployments are exactly: one for each coordinate served (under Alpha the first, otherwise all), with the size of the last coordinate of its name under Release and one otherwise; and those there were, unchanged, unless a recorded coordinate of their name left the spec. |
| Placement.PlacementIsBalanced | controllers/stateful_set_utils.go:249-267 | Each of m coordinates gets n/m ordinals, and the first n mod m one more. |
| Stone.OmegaPlacesOnePodPerCoordinate | controllers/stone_controller.go:101-102 | Under Omega each coordinate of a group gets exactly one pod. |
| Stone.SetNamesAreDistinct | controllers/util.go:138-145 | Different groups of a Stone have different set names, whatever they are called. |
| Stone.SetIsReachedIff | controllers/stateful_set_utils.go:464-476 | Reconcile requests of a Stone's set reach it if and only if the group name has no numeric end. |
| Stone.GetStatefulSets | controllers/stone_controller.go:83-182 | Each set, field by field: the name of its group; the Stone's containers; one pod, or under Omega one per coordinate of the group, or under Release as many as the group asks for; partition 0 and one pod at a time; a new one Parallel, gated and updated in place if possible, an existing one with everything else as it was. One set under Alpha or an unknown strategy, which becomes Alpha, otherwise one per group, with distinct names. It fails exactly at a failing read and panics exactly at a missing replica count under Release or an existing set without a RollingUpdate block, whichever group comes first. |
| Stone.StoneSetsRollOneByOne | controllers/stone_controller.go:92-176 | Whatever is changed in an existing set, each round of its controller, on any listing and with any outcomes, acts on at most one stale pod; a new set meets the conditions of convergence, Parallel and with the readiness gate. |

## Left out

- API client, informers, caches, watches, retry timing, events and logging: calls are steps with an outcome.
- A call that times out but was applied: an outcome says whether the call took effect.
- PodControl.StatefulPodControl.Send: the one primitive for calls to the API server; retries, re-reads and the claims of a new pod are inside its outcome.
- RoundLedger.CountersMissExactly: listings are fresh, show accepted pods only, and the canonical name of a failed replica is free.
- Convergence.EveryRunConverges: the spec and update revision stay fixed, the set is not paused and has a bound of at least one, pod names are canonical, listings are fresh, no pod's condition is Unknown, and awaited pods stay listed; RoundExpectations.UnseenPodBlocksRolling is what happens if one does not.
- InPlaceProtocol.InPlaceUpdatesAreSafe: assumes listings that hide no patch, and a kubelet that does not write the condition and does not go back to a recorded image. A creation that succeeds where a pod exists overwrites it, which the API server would refuse.
- StalePatches.RoundFollowsIff: the states a round passes through without the environment moving in between, on listings of accepted pods.
- History.HistoryOverRuns: assumes a hash injective in the collision count and sorted listings of the stored revisions.
- RevisionSafety.RevisionsNeverDangle: listings of pods that miss a label, where RevisionSafety.ReconcileIsSafeIff is exact.
- ScaleDownStalls.ConvergesIff: a failed surplus pod may stay failed or recover, so a pair with one need not wait; ScaleDownStalls.RoundKeepsPair says it stays while it does neither.
- Reconciler.StatefulSetReconciler.UpdateStatefulSet: listings come in, and an error of listing ends the reconcile before anything changed.
- Identity.UpdateStatefulPod: which claims exist and what they ask for; creating them succeeds or not.
- InPlaceUpdate.PatchMeansPlanIff: metadata, environment and other fields an operation might add outside the containers.
- Identity.NewPodsConform: an annotated coordinate list must not be empty, as the code divides by its length.
- Names.ParseOfPrint: line breaks in names, which the pattern of the code would not match, are not excluded.
- The status's collision count, conditions and observed failures: the count is an argument, conditions are only set on paths that discard the status.
- Signed container indices, non-string patch values and a patch path whose first /spec/template is not at its start.
- int32 overflow of the status counters and of the collision count.
- The in-memory copy of a pod's condition after it is written: nothing in the same round reads it.
- The content of persistent volume claims; only their names and volumes are modelled.
- Listing, adopting and releasing revisions by label selectors.
- JSON encoding, the JSON Patch and hash libraries: contents, differences and hashes are parameters.
- The mutex of the expectations cache: each method is one atomic step.
- Services, node affinity and images of Water deployments; services and status sums of Stone.
- Stone.GetStatefulSets: labels, owner references and claim templates of the sets.
- Lower-casing beyond ASCII letters.
- The admission webhook, the injector and real-pod controllers, UpdatePriorityStrategy, generated code.
