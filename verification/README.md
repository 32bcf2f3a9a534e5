# In-place workload controller: a verified model

A workload controller keeps `replicas` pods of a template running and prefers to update them in place. This project
models its four connected parts in Dafny and proves what they promise together:

* **the rollout** - the planner, the scaling half, the update half and the gates of one reconcile pass
  (`Planner`, `Scaling`, `ScaleIn`, `Updating`, `Reconcile`), the availability floor of a half, a pass and a run
  (`Floors`, `RunFloors`), and convergence over endless runs of passes, which exist (`Convergence`, `Progress`);
* **the expectations protocol** - the two expectation caches and the event handler as classes proved against a
  history of calls (`Expectations`, `Versions`, `EventHandler`), and a transition system in which every atomic step
  of a pass interleaves with the watch, the handler and the rest of the cluster (`Protocol`, `ProtocolStream`,
  `ProtocolCap`, `ProtocolDeletes`, `ProtocolWrites`, `ProtocolStale`); what the methods may do is a run of it
  (`ProtocolSteps`);
* **the scale-in choice** - the comparator, the per-node ranks and the levelling theorem
  (`PodOrder`, `ScaleIn`, `Levelling`);
* **revisions and in-place updates** - the history of recorded templates over whole runs
  (`Revisions`, `RevisionRuns`), the diff/apply transformation on pods (`InPlace`, `InPlaceMeaning`), and how both
  fit with the creation of a pod (`PodLife`).

`Kube` and `Templates` hold the data model, `Api` the API server as the controller sees it, and `Batches` the
slow-start batcher. `dafny verify dfyconfig.toml` checks everything.

The code that works step by step is modelled by methods and classes, each proved against a specification function or
a recorded history; the theorems are lemmas about those. The protocol's steps use the very predicates the methods are
proved to satisfy (`Scaling.Decided`, `Updating.UpdateDecided`) and the observations of the event handler's
contracts, every outcome of a scaling step is a run of the protocol (`ProtocolSteps.StepIsRun`), and a reconcile pass
is proved to be a step of the history runs (`RevisionRuns.ReconcileIsPass`).

## What the proofs found

* The availability floor does not hold with unavailable marked pods: they are deleted without being charged to the
  ready limit, which counts them as if they were up (`Floors.PlainFloorCanFail`, with the exact condition beside it).
* Levelling is lost when there are no more candidates than planned deletions: the list is then not sorted, but the
  ready limit may still cut it (`Levelling.UnsortedChoiceCanUnbalance`; exactly when: `Levelling.UnsortedBranchExactly`).
* A pass can plan from a pod older than its own last write, if the pod was deleted between the list and the version
  check: the handler clears the demand (`ProtocolStale.StalePodCanPass`). An older pod gets through exactly when
  nothing is demanded of it (`ProtocolWrites.StalePassesExactly`).
* The metadata patch is applied after the revision label is written, so a template that sets the revision label's key
  takes the pods it updates out of their revision (`InPlaceMeaning.TemplateCanHideRevision`).
* A negative maxSurge passes the planner and makes maxUnavailable round down
  (`Planner.NegativeSurgeBlocks`; exactly when: `Planner.RoundingBlocksExactly`); with no negative field rounding
  never blocks.
* Renumbering a revision can report success unwritten: after a conflict whose re-read fails, the retry takes its own
  copy for the stored one (`Revisions.FirstConflictLoses`, `RevisionRuns.LostNumberHappens`; exactly when:
  `Revisions.LosesNumber` over the server's replies).
* The update half runs after a scaling step that failed without changing anything, not only after one with nothing to
  do (`Reconcile.SyncInplaceu`).
* The comment in the in-place patch says the image id of a known container is updated; the code updates a copy, so
  the first status wins (`InPlace.FirstStatusWins`).

## Model

| member | source | states |
|---|---|---|
| Convergence.Converges | internal/controller/inplaceu_controller.go:219-233 | From any settled pods, with calls succeeding and room for progress, every endless run of passes reaches exactly `replicas` unmarked pods at the update revision and stays there, for any mix of in-place and re-create updates and any listing order. |
| Convergence.PassLowers | internal/sync/inplaceu_scale_util.go:112-148 | Each pass that does not find the goal reached strictly lowers (unmarked old pods, marked pods, distance from replicas plus the surge in use), lexicographically. |
| Convergence.NoOpOnlyAtGoal | internal/controller/inplaceu_controller.go:219-233 | A pass over settled pods changes nothing if and only if the goal is reached. |
| Convergence.ProgressNeedsRoom | internal/sync/inplaceu_update.go:87-122 | One old pod before the goal, a pass gets on if and only if maxUnavailable, plus one if any surge is allowed, is at least one: the exact condition for the last step. |
| Convergence.ProgressByFields | internal/sync/inplaceu_scale_util.go:66-72 | One old pod before the goal, a pass gets on if and only if a stated condition on the two fields of the workload holds, negative ones included. |
| Convergence.ZeroIsConverged | internal/sync/inplaceu_scale_util.go:112-148 | The measure is zero exactly at the goal. |
| Convergence.ReachesGoal | internal/controller/inplaceu_controller.go:219-233 | The well-founded descent: from any point of a run a later point is at the goal. |
| Convergence.StaysAtGoal | internal/controller/inplaceu_controller.go:219-233 | Once at the goal, a run never leaves it. |
| Convergence.CreatingLowers | internal/sync/inplaceu_scale.go:63-75 | A creation pass keeps old and marked pods and moves the number of pods towards the target by at least one without overshooting, even when fewer ids than asked for were drawn. |
| Convergence.DeletingMarkedLowers | internal/sync/inplaceu_scale.go:77-98 | With every pod up, a pass that finds marked pods deletes at least one and touches no unmarked old pod. |
| Convergence.ScaleInTakesAll | internal/sync/inplaceu_scale.go:100-115 | With nothing marked and every pod up, the ready limit holds back no pod of a scale-in: it takes as many updated pods as are too many, if there are so many. |
| Convergence.ScaleInLowers | internal/sync/inplaceu_scale.go:100-115 | A scale-in that deletes lowers the number of pods without going below the target. |
| Convergence.UnmodifiedMeansUpdate | internal/controller/inplaceu_controller.go:220-233 | A scaling step that changed nothing short of the goal leaves nothing marked, enough pods, and old pods to update. |
| Convergence.SomethingChosen | internal/sync/inplaceu_update.go:45-69 | With every pod up and room for progress the update half has at least one pod to update. |
| Convergence.FailedDeletionStillUpdates | internal/controller/inplaceu_controller.go:220-233 | Deletions that all fail do not keep the update half from running: with old pods left and room, a pod is updated. |
| Convergence.UpdatedKind | internal/sync/inplaceu_update.go:124-164 | Whichever way a pod is updated, it stops being an unmarked old pod: it carries the update revision, or it is marked. |
| Convergence.EffectsLower | internal/sync/inplaceu_update.go:72-83 | Each effect of an update run takes exactly one pod out of the unmarked old ones. |
| Convergence.ConvergedStays | internal/controller/inplaceu_controller.go:219-233 | A pass that finds the goal reached writes nothing. |
| Progress.RolloutCompletes | internal/controller/inplaceu_controller.go:219-233 | From any settled pods, and whatever revisions each pass finds recorded, so with updates in place or by re-creation, an endless run of such passes starts, and with room for progress it reaches the goal and stays there. |
| Progress.PassCompletes | internal/controller/inplaceu_controller.go:196-247 | Nothing the planner decides can block a pass: from any settled pods, for any spec and any recorded revisions that agree on the revision label's key, some pass completes without an error. |
| Progress.StepCompletes | internal/sync/inplaceu_scale.go:47-118 | Whatever the plan, some scaling step carries it out: free ids exist, and a choice for every scale-in. |
| Progress.UpdateCompletes | internal/sync/inplaceu_update.go:36-84 | Whatever the plan and the recorded revisions, some update run carries it out, with for each pod the effect its way of updating calls for. |
| Progress.PlacesRank | internal/utils/pod_sorts.go:137-157 | Ranking pods by their place in the order of their node is a ranking of every node. |
| Progress.CleanBatches | internal/utils/inplaceu_utils.go:153-177 | Some number of clean batches makes any number of calls. |
| Floors.ScaleFloor | internal/sync/inplaceu_scale.go:63-115 | However far its calls get, a scaling step leaves at least min(unmarked running + available marked, replicas - maxUnavailable - unavailable marked) pods running, and the plain floor min(running before, replicas - maxUnavailable) when every marked pod is available. |
| Floors.MarkedDeletionFloorExactly | internal/sync/inplaceu_scale.go:77-98 | The plain floor is false in general; a completed deletion of marked pods keeps it if and only if a stated condition on the counts it starts from holds. |
| Floors.PlainFloorCanFail | internal/sync/inplaceu_scale.go:81-94 | Two replicas, nothing to spare, one marked pod down and one up: the pass leaves one running pod of two. |
| Floors.ScaleInFloor | internal/sync/inplaceu_scale.go:100-115 | A scale-in, also one that stops at an error, keeps the plain floor. |
| Floors.MarkedDeletionFloor | internal/sync/inplaceu_scale.go:77-98 | A deletion of marked pods, also one that stops at an error, keeps the general floor. |
| Floors.MarkedListRunning | internal/sync/inplaceu_scale.go:81-90 | How many running pods the list of deletable marked pods holds: all that are not available and as many available ones as the limit allows. |
| Floors.UpdateFloor | internal/sync/inplaceu_update.go:87-122 | Whatever becomes of the pods an update run touches, wherever it stops, at least min(running before, replicas - maxUnavailable) pods keep running. |
| Floors.NewRevisionCap | internal/sync/inplaceu_update.go:101-105 | Whatever becomes of the pods an update run touches, no more pods of the new revision are down than were before or than the limit allows. |
| Floors.ScaleCap | internal/sync/inplaceu_scale_util.go:112-128 | A pass never creates beyond replicas + maxSurge, whatever it starts from. |
| Floors.DeletionsCount | internal/sync/inplaceu_scale.go:233-247 | Deleting listed pods takes exactly those out of every count and leaves the others. |
| Floors.CreationsApply | internal/sync/inplaceu_scale.go:132-150 | The pods after a creation are those before and the ones whose call succeeded. |
| RunFloors.PassFloor | internal/controller/inplaceu_controller.go:219-233 | Whatever a pass decides and wherever its calls fail, the running pods it touches with no call are at least the floor of scaling, and min(running before, replicas - maxUnavailable) when every marked pod is available. |
| RunFloors.RolloutFloor | internal/controller/inplaceu_controller.go:219-233 | Over a whole run of settled passes, with calls that may fail, every pass leaves at least min(pods at the start, replicas - maxUnavailable) running pods untouched. |
| RunFloors.ConvergingRunsAreAttempts | internal/controller/inplaceu_controller.go:219-233 | The runs that reach the goal are among those that keep the floor. |
| RunFloors.SparedStay | internal/sync/inplaceu_scale.go:233-247 | After any lawful writes at least as many pods are left as were running and untouched. |
| ProtocolCap.SurgeCap | internal/controller/inplaceu_controller.go:114-123 | In every interleaving of passes, watch deliveries, handler runs, failed calls and changes by the cluster, active pods on the server never exceed max(initial count, replicas + maxSurge). |
| ProtocolCap.StepKeepsCap | internal/sync/inplaceu_scale.go:132-160 | Every atomic step keeps the invariant behind the cap: each active pod is in the cache or awaited, and what the pass may still create fits under the cap. |
| ProtocolCap.WithdrawKeepsCap | internal/sync/inplaceu_scale.go:152-157 | Rolling back a failed creation hides no pod: a pod that has the name was not created by this pass and is in the cache. |
| ProtocolCap.PlanKeepsCap | internal/sync/inplaceu_scale_util.go:112-128 | A plan made from a list that covers every active pod fits under the cap. |
| ProtocolCap.HandleStaysKnown | internal/inplaceu_event_handler/inplaceu_event_handler.go:75-76 | Handling a creation event un-awaits only a pod that is in the cache or gone. |
| ProtocolCap.ListIsActive | internal/utils/inplaceu_utils.go:90-107 | A pass lists exactly the pods of the cache that are neither terminating nor finished. |
| ProtocolDeletes.DeletesNeverStack | internal/controller/inplaceu_controller.go:114-120 | In every reachable state past the expectations check, each pod this controller deleted is missing from the cache or shown terminating, and no list planned from holds it. |
| ProtocolDeletes.DeletedOnce | internal/sync/inplaceu_scale.go:233-247 | Over a whole run the controller deletes each pod at most once. |
| ProtocolDeletes.StepKeepsDeletes | internal/inplaceu_event_handler/inplaceu_event_handler.go:123-135 | Every atomic step keeps: a deletion of this controller is awaited, or the pod is terminating or gone wherever the cache has looked or will look. |
| ProtocolDeletes.DeleteFailKeepsDeletes | internal/sync/inplaceu_scale.go:237-241 | Withdrawing the expectation of a failed deletion un-awaits no deletion that succeeded. |
| ProtocolWrites.ReadYourWrites | internal/controller/inplaceu_controller.go:157-167 | When a pass comes to plan, every listed pod is at least as new as this controller's last write to it, or is already terminating or gone. |
| ProtocolWrites.StalePassesExactly | internal/controller/inplaceu_controller.go:157-167 | A listed pod older than this controller's last write to it passes the version check if and only if no version is demanded of it at that moment, and then it is terminating or gone. |
| ProtocolWrites.StepKeepsWrites | internal/sync/inplaceu_update.go:135-159 | Every atomic step keeps: a write is demanded of later lists, or the cache has caught up with it, or the pod is going, or the write is about to be announced. |
| ProtocolStale.StalePodCanPass | internal/inplaceu_event_handler/inplaceu_event_handler.go:183-188 | The exception is real: a reachable state in which a pass got through its gate with a pod older than its own last write, because the pod's deletion cleared the demand after the list was made. |
| ProtocolStream.StepKeepsStream | internal/inplaceu_event_handler/inplaceu_event_handler.go:54-202 | Every step keeps the order of what cache, watch and server know of each name, and that an unhandled event tells nothing the cache does not show. |
| ProtocolStream.StepKeepsDone | internal/inplaceu_event_handler/inplaceu_event_handler.go:123-135 | A pod that is terminating or gone stays so for the server, the watch and the cache. |
| ProtocolStream.HandleSettles | internal/inplaceu_event_handler/inplaceu_event_handler.go:54-202 | The handler settles a creation only when the cache shows the pod or it is gone, and a deletion only when the pod is terminating or gone. |
| ProtocolStream.HandleClears | internal/inplaceu_event_handler/inplaceu_event_handler.go:183-188 | The handler drops a version demand only for a pod that is terminating or gone. |
| ProtocolSteps.GatesPassed | internal/controller/inplaceu_controller.go:113-167 | With nothing awaited, a complete list of the cache that is new enough leads a pass through its gates. |
| ProtocolSteps.StepIsRun | internal/sync/inplaceu_scale.go:47-118 | For every decided scaling step and every outcome of its calls, atomic steps lead to its end; they create or delete its pods, leave the expectations the step's specification leaves, and go on to the update half exactly when nothing changed. |
| ProtocolSteps.UpdatingIsRun | internal/sync/inplaceu_update.go:71-83 | For every choice of stored and skipped pods, and wherever it stops, atomic steps go through the update half and demand exactly the stored versions. |
| ProtocolSteps.HandleNote | internal/inplaceu_event_handler/inplaceu_event_handler.go:54-202 | The handler's methods, run on a note of the informer, append to the two histories exactly what the protocol's handler step appends. |
| ProtocolSteps.WatchSettles | internal/inplaceu_event_handler/inplaceu_event_handler.go:54-202 | Once an event of the watch is delivered and handled, the cache shows it and what it answers is awaited no more: a new pod its creation, a terminating or gone pod its deletion and the version demanded of it. |
| Planner.CalculateDiffsWithExpectation | internal/sync/inplaceu_scale_util.go:65-150 | Every number of the plan meets its demand on the resolved fields and the tally: the surge in use covers the marked and the old pods as far as allowed, creations and deletions lead to replicas and that surge, and the limits leave replicas - maxUnavailable pods that are not known to be down. |
| Planner.PlanIsUnique | internal/sync/inplaceu_scale_util.go:112-148 | The planner's six numbers are the only ones that meet those demands. |
| Planner.TallyMeaning | internal/sync/inplaceu_scale_util.go:88-110 | The tally is the number of pods, of unmarked old ones, of marked ones and of unmarked ones that are not running, by label and phase. |
| Planner.CountPods | internal/sync/inplaceu_scale_util.go:92-110 | The counters are the sizes of the classes of pods they stand for. |
| Planner.PlanFromCounts | internal/sync/inplaceu_scale_util.go:112-150 | Surge, scale-up, scale-down, ready limit and update budget as functions of the counters. |
| Planner.PlanMeaning | internal/sync/inplaceu_scale_util.go:112-148 | Never creations and deletions at once, never a target above replicas + maxSurge, surge exactly while pods are to be replaced, and an empty plan at the goal. |
| Planner.RoundingNeverBlocks | internal/sync/inplaceu_scale_util.go:66-72 | If no field is negative, the resolved pair leaves room for progress if and only if one field asks for more than nothing. |
| Planner.UnavailableSurvives | internal/sync/inplaceu_scale_util.go:66-72 | A positive maxUnavailable resolves to at least one if and only if it is an integer, the surge resolves to zero, or the percentage is worth a whole pod. |
| Planner.RoundingBlocksExactly | internal/sync/inplaceu_scale_util.go:66-72 | For every pair of fields the schema accepts, negative ones included, the exact condition under which the resolved pair leaves room for progress. |
| Planner.NegativeSurgeBlocks | internal/sync/inplaceu_scale_util.go:66-72 | An input for which a negative surge makes a small percentage round down to nothing and leaves no room. |
| Planner.UpdateLimitPositive | internal/sync/inplaceu_scale_util.go:145-148 | With unmarked old pods and the surge in place, the update limit is positive exactly when a field leaves room or there are more pods than replicas. |
| Planner.PercentRounding | internal/sync/inplaceu_scale_util.go:66-72 | A positive percentage rounds up to at least one and down to at least zero. |
| Planner.ResolveIsExact | internal/sync/inplaceu_scale_util.go:66-72 | A percentage resolves to the nearest whole number of pods above or below, an integer to itself, and unreadable text to zero. |
| Planner.FieldsMeaning | internal/sync/inplaceu_scale_util.go:66-72 | A missing field asks for nothing, the surge rounds up, and maxUnavailable rounds up exactly when the surge resolves to zero. |
| Scaling.Scale | internal/sync/inplaceu_scale.go:47-118 | Creates if the plan says so, else deletes the marked pods that may go, else scales in, else does nothing; the writes and the awaited names are exactly those of that one step. |
| Scaling.DeleteOrScaleIn | internal/sync/inplaceu_scale.go:77-118 | Scale-in runs only when no marked pod may go. |
| Scaling.CreatePods | internal/sync/inplaceu_scale.go:120-166 | Announces every name, calls in slow-start batches and withdraws exactly the names that did not succeed. |
| Scaling.DeletePods | internal/sync/inplaceu_scale.go:233-247 | Deletes in order, stops at the first failure, and withdraws that one expectation. |
| Scaling.StepConservesExpectations | internal/sync/inplaceu_scale.go:132-157 | A step leaves awaited what was awaited and exactly the names whose call succeeded, if and only if no name that failed was awaited already. |
| Scaling.SucceededAreWritten | internal/sync/inplaceu_scale.go:132-157 | The names a step counts as succeeded are exactly those of the pods it created and of those it deleted. |
| Scaling.NewPodsAreFresh | internal/sync/inplaceu_scale.go:168-195 | New pods have distinct names, carry the revision, their ids are on no listed pod, and there are at most as many as asked for. |
| Scaling.GetOrGenAvailableIDs | internal/sync/inplaceu_scale.go:168-184 | Ids are distinct, on no listed pod, at least one if any is asked for, and possibly fewer than asked for. |
| Scaling.NewVersionedPods | internal/inplaceu_core/inplaceu_core.go:74-96 | Consumes ids until the wanted pods are made or the ids run out. |
| Scaling.NewPodsFollowTemplate | internal/inplaceu_core/inplaceu_core.go:74-96 | A new pod has the template's containers, annotations and labels beside those the controller sets, is named after the workload and its id, and is owned by the workload. |
| Scaling.NewPodsCarryHash | internal/utils/inplaceu_utils.go:66-76 | Under the name of a recorded revision a new pod carries the revision's hash as its short label. |
| Scaling.RollBack | internal/sync/inplaceu_scale.go:152-157 | Withdraws the expectations of the pods that were not created and no others. |
| Scaling.ExpectAll | internal/sync/inplaceu_scale.go:132-136 | Announces every name before the first call. |
| Scaling.DeletionList | internal/sync/inplaceu_scale.go:77-112 | The list of a deletion holds listed pods, each once, all marked or all at the update revision. |
| Scaling.BrokenMarkedGo | internal/sync/inplaceu_scale.go:77-98 | Unless pods are created, every marked pod that is not running and available is in the list to be deleted, whatever the limit. |
| Scaling.GetPlannedDeletedPods | internal/sync/inplaceu_scale.go:249-259 | Returns exactly the pods with the specified-delete label, in listed order. |
| Scaling.GroupUpdateAndNotUpdatePods | internal/utils/inplaceu_utils.go:128-140 | Splits the list by revision, in order, losing and doubling none. |
| Kube.SelectMeaning | internal/utils/inplaceu_utils.go:128-140 | Selecting a class of pods returns exactly its pods, each once. |
| Kube.CountIsCardinality | internal/sync/inplaceu_scale_util.go:92-110 | A counter is the number of places in the list that hold a pod of the class. |
| Updating.Update | internal/sync/inplaceu_update.go:36-84 | Nothing to update means no call; otherwise the candidates, the cut and one effect per finished pod, each the one its pod's way calls for on the pod the server then held; it stops at the first error and demands each stored version. |
| Updating.LimitUpdateIndexes | internal/sync/inplaceu_update.go:87-122 | Returns exactly the longest prefix of at most updateNum candidates that meets both caps. |
| Updating.CountUpdatable | internal/sync/inplaceu_update.go:101-117 | The loop stops at the last prefix within both caps: every longer one breaks a cap. |
| Updating.GreedyCutIsOptimal | internal/sync/inplaceu_update.go:87-122 | With pods that are not running first, no choice of at most updateNum candidates within both caps is larger than the prefix. |
| Updating.PrefixRunsFewest | internal/sync/inplaceu_update.go:107-115 | Of all choices of as many candidates, the prefix updates the fewest running pods. |
| Updating.FindCandidates | internal/sync/inplaceu_update.go:47-64 | Exactly the indexes of old pods that are pending or running. |
| Updating.OnlyCapsHoldBack | internal/sync/inplaceu_update.go:45-69 | An old pod that is pending or running is left out only if the number to update is reached or one more would break a cap; while a pending one is left out no running pod is updated. |
| Updating.SortCandidates | internal/sync/inplaceu_update.go:66-67 | A permutation of the candidates that puts pods that are not running first. |
| Updating.UpdatePod | internal/sync/inplaceu_update.go:124-164 | In place if the pod's revision allows it, else a mark for re-creation, else nothing for a pod already marked; the stored version is demanded, and an error writes nothing. |
| Updating.InPlaceWhenPossible | internal/sync/inplaceu_update.go:124-164 | A pod whose first matching revision is updatable gets the in-place result, and any other unmarked pod is marked with its containers untouched. |
| Updating.StoredIsDemanded | internal/sync/inplaceu_update.go:135-159 | After an update run no version below the stored one passes the version check of an updated pod. |
| Updating.PatchPodSpecifiedDelete | internal/specifieddelete/specified_delete.go:36-47 | Adds the mark to a pod that has none, and touches nothing else. |
| Updating.FindOldRevision | internal/sync/inplaceu_update.go:128-134 | The first listed revision the pod's label matches, and none exactly when no listed one matches. |
| Reconcile.Reconcile | internal/controller/inplaceu_controller.go:72-194 | The gates in order, then the sync, the status and the history; no pod is written unless every gate is open; afterwards exactly the pods created and deleted are awaited. |
| Reconcile.PassGates | internal/controller/inplaceu_controller.go:113-167 | Awaited names stop the pass before it lists, a stale pod stops it before it plans, and only a pass with nothing awaited and every listed pod new enough goes on. |
| Reconcile.FirstStalePod | internal/controller/inplaceu_controller.go:157-167 | Every listed pod reaches the version demanded of it, or the first that does not is found. |
| Reconcile.SyncInplaceu | internal/controller/inplaceu_controller.go:196-247 | A terminating workload is left alone; otherwise the update half runs exactly when the scaling step changed nothing, also after its error. |
| Reconcile.WritesOfOneHalf | internal/controller/inplaceu_controller.go:220-233 | Only one half of a sync writes. |
| Reconcile.PassCreatesFromUpdate | internal/controller/inplaceu_controller.go:196-219 | Every pod a pass creates runs the update revision's containers under that revision and belongs to the workload. |
| Reconcile.PassAwaitsItsSuccesses | internal/sync/inplaceu_scale.go:132-157 | A pass starts with nothing awaited and ends awaiting exactly the pods it created and those it deleted. |
| Reconcile.FinishPass | internal/controller/inplaceu_controller.go:180-188 | The history is truncated only after the status was written, with the revisions and pods the pass started from. |
| Levelling.ScaleInLevels | internal/sync/inplaceu_scale.go:103-112 | With every candidate assigned, running and equally ready and more candidates than deletions, every node that lost a pod keeps at least one less than the fullest node's survivors, also after the cut by the ready limit. |
| Levelling.RankedPrefixLevels | internal/utils/pod_sorts.go:137-157 | Deleting a prefix of the ranked order levels the nodes. |
| Levelling.UnsortedBranchExactly | internal/sync/inplaceu_scale.go:210-225 | When there are no more candidates than deletions the list is not sorted; then some order unbalances two nodes if and only if emptying one first leaves it that far behind. |
| Levelling.FailingOldTakesFirst | internal/sync/inplaceu_scale.go:103-112 | With as many failing old pods as replicas and no surge, the step is a deletion of the first updated pods in listed order, as many as the ready limit allows. |
| Levelling.UnsortedChoiceCanUnbalance | internal/sync/inplaceu_scale.go:210-225 | Six listed pods for which the step the planner decides on deletes the only updated pod of one node and leaves two on the other. |
| Levelling.WorstOrder | internal/sync/inplaceu_scale.go:210-225 | Emptying one node first attains the worst imbalance an unsorted list can give. |
| ScaleIn.ChoosePodsToDelete | internal/sync/inplaceu_scale.go:207-231 | All candidates, or the first ones of a ranked sort of them. |
| ScaleIn.WorstAreChosen | internal/utils/pod_sorts.go:43-95 | A pod is only chosen if those left behind are no worse: unassigned pods go first, then by phase, then pods that are not ready; of equals on one node the ones ready last or restarted most. |
| ScaleIn.NewSameNodeRanker | internal/utils/pod_sorts.go:137-157 | Ranks every node's pods by their place in a sort of that node, the last one zero. |
| ScaleIn.RanksAreExact | internal/utils/pod_sorts.go:145-161 | Ranks on a node are exactly 0 to one less than its pods, each held by one pod. |
| ScaleIn.RankedExtendsUnranked | internal/utils/pod_sorts.go:43-73 | On one node the ranked order is total and never contradicts the order the ranks came from. |
| ScaleIn.CutByReadyLimit | internal/sync/inplaceu_scale.go:81-90 | Keeps every pod that is not up and the first ones that are, as many as the limit allows. |
| ScaleIn.AffordableCount | internal/sync/inplaceu_scale.go:103-112 | How many pods, and how many that are up, the cut keeps. |
| ScaleIn.AffordablePrefix | internal/sync/inplaceu_scale.go:103-112 | When every pod is up the cut is a prefix. |
| PodOrder.LessIsStrictWeakOrder | internal/utils/pod_sorts.go:43-104 | The comparator is irreflexive, transitive, and its ties are transitive, on all pods, zero times included. |
| PodOrder.LessIsLexicographic | internal/utils/pod_sorts.go:43-95 | The cascade of tests is the lexicographic order of eight keys. |
| PodOrder.PhasesGoInOrder | internal/utils/pod_sorts.go:49-53 | Of pods with a node, pending and finished ones go before unknown ones, and all of those before running ones, whatever the rest of the order. |
| PodOrder.UnassignedGoFirst | internal/utils/pod_sorts.go:44-48 | A pod without a node goes before every pod with one. |
| PodOrder.ReadyMeaning | internal/utils/pod_sorts.go:54-63 | A pod is ready as its first condition on readiness says, and since the time given there. |
| PodOrder.Sort | internal/utils/pod_sorts.go:137-157 | A permutation sorted by the comparator. |
| PodOrder.PodReadyTime | internal/utils/pod_sorts.go:106-116 | The transition time of the first readiness condition, which is true, of a ready pod, else zero. |
| PodOrder.MaxContainerRestarts | internal/utils/pod_sorts.go:118-124 | An upper bound of all restart counts that is attained, or zero. |
| Batches.DoItSlowly | internal/utils/inplaceu_utils.go:153-177 | Every batch is the calls so far plus the initial batch, cut to what remains; the run ends with everything called or with the first batch that had a failure. |
| Batches.DoneClosedForm | internal/utils/inplaceu_utils.go:156 | The calls after k clean batches are min(initial * (2^k - 1), count). |
| Batches.BatchesLogarithmic | internal/utils/inplaceu_utils.go:156 | The number of batches is logarithmic in the number of calls. |
| Batches.FailuresBounded | internal/utils/inplaceu_utils.go:169-173 | Failed calls never exceed the successes by more than the initial batch, and no error means every call succeeded. |
| Expectations.ScaleExpectations.ExpectScale | internal/utils/expectations/scale_expection.go:56-73 | Adds one awaited name and keeps the cache equal to what the history of calls leaves awaited. |
| Expectations.ScaleExpectations.ObserveScale | internal/utils/expectations/scale_expection.go:75-96 | Removes one awaited name; an entry that waits for nothing is evicted. |
| Expectations.ScaleExpectations.SatisfiedExpectations | internal/utils/expectations/scale_expection.go:98-118 | Satisfied if and only if no name of the key has an Expect with no later Observe or clearing; on an unsatisfied key, one action with its names and the time since it was first found so. |
| Expectations.ScaleExpectations.GetExpectations | internal/utils/expectations/scale_expection.go:39-54 | The awaited names by action, or nothing exactly when none is awaited. |
| Expectations.ScaleExpectations.DeleteExpectations | internal/utils/expectations/scale_expection.go:120-124 | Nothing of the key is awaited any more; other keys are untouched. |
| Expectations.AwaitedStep | internal/utils/expectations/scale_expection.go:56-96 | What one more call does to the history meaning of an expectation. |
| Expectations.LinkedStep | internal/utils/expectations/scale_expection.go:56-96 | A cache that changes as a call demands still holds exactly the awaited names. |
| Versions.ResourceVersionExpectation.Expect | internal/utils/expectations/resource_version_expection.go:49-60 | Raises the demanded version, never lowers it. |
| Versions.ResourceVersionExpectation.Observe | internal/utils/expectations/resource_version_expection.go:62-73 | Drops the demand exactly when the object reaches it. |
| Versions.ResourceVersionExpectation.IsSatisfied | internal/utils/expectations/resource_version_expection.go:75-97 | True if and only if nothing is demanded or the object reaches it. |
| Versions.ResourceVersionExpectation.Delete | internal/utils/expectations/resource_version_expection.go:99-103 | Drops the demand. |
| Versions.HighestIsMaximum | internal/utils/expectations/resource_version_expection.go:49-60 | The demanded version bounds every numeric version expected since the last clearing. |
| Versions.HighestIsAttained | internal/utils/expectations/resource_version_expection.go:49-60 | The demanded version is one that was expected since the last clearing. |
| Versions.NewerIsReaching | internal/utils/expectations/resource_version_expection.go:105-121 | The comparison of version strings, text that is not a number included, is reaching a numeric bound. |
| Versions.ParseDecimal | internal/utils/expectations/resource_version_expection.go:105-121 | Reading a version gives back every number written in decimal that fits 64 bits, and refuses the larger ones. |
| Versions.ReachingIsAtLeast | internal/utils/expectations/resource_version_expection.go:105-121 | A version written as a number reaches a demand exactly when it is at least as large; other text reaches none. |
| EventHandler.PodEventHandler.Create | internal/inplaceu_event_handler/inplaceu_event_handler.go:54-104 | A terminating pod counts as deleted, an owned one settles its creation and wakes its owner with or without delay, an orphan wakes the matching workloads. |
| EventHandler.PodEventHandler.Update | internal/inplaceu_event_handler/inplaceu_event_handler.go:106-181 | A resync does nothing; a terminating pod counts as deleted; otherwise old and new owners, or matching workloads, are woken. |
| EventHandler.PodEventHandler.Delete | internal/inplaceu_event_handler/inplaceu_event_handler.go:183-202 | Clears the demanded version of any pod, and settles the deletion and wakes the owner of an owned one. |
| EventHandler.UpdateWakesExactly | internal/inplaceu_event_handler/inplaceu_event_handler.go:106-181 | A changed pod wakes exactly its workload, a former one if the owner changed or the pod is terminating under other labels, and the matching ones of an orphan whose labels or owner changed; a resync wakes nobody. |
| EventHandler.OwnerKeyExactly | internal/inplaceu_event_handler/inplaceu_event_handler.go:208-229 | The owner that counts is the controller reference of this kind and group. |
| EventHandler.ObservationsAreSound | internal/inplaceu_event_handler/inplaceu_event_handler.go:54-202 | Only a live pod settles a creation, and only a terminating or gone one a deletion. |
| EventHandler.CreationIsNotMissed | internal/inplaceu_event_handler/inplaceu_event_handler.go:75-104 | The first sight of a live pod settles that pod's creation and no other expectation. |
| EventHandler.DeletionIsNotMissed | internal/inplaceu_event_handler/inplaceu_event_handler.go:123-135 | The first sight of a terminating pod always settles its deletion. |
| InPlace.CalculateSpec | internal/inplace_update/inplace_update.go:161-227 | A spec exactly when both revisions exist and differ only in replaced images and metadata; then it is the images that differ and the metadata merge. |
| InPlace.DefaultPatchUpdateSpecToPod | internal/inplace_update/inplace_update.go:295-396 | Metadata, then images in place, then the state record; nothing is deferred to a next batch. |
| InPlace.StateRecord | internal/inplace_update/inplace_update.go:295-396 | The state record tells the revision and the moment, whether images change, one batch with exactly the pod's containers that get a new image, and for each of those with a status the image id of the first one. |
| InPlace.UpdatePodInPlace | internal/inplace_update/inplace_update.go:259-293 | The whole update of a pod the server held, or no write at all. |
| InPlace.UpdateImages | internal/inplace_update/inplace_update.go:334-348 | Changes exactly the images the spec names. |
| InPlace.FirstStatusWins | internal/inplace_update/inplace_update.go:349-361 | An image id is recorded for exactly the changed containers that have a status, and it is that of the first status with the name. |
| InPlace.ImagesMeaning | internal/inplace_update/inplace_update.go:187-214 | The spec's images are exactly those that differ, by container name. |
| InPlaceMeaning.InPlacePreservesMeaning | internal/inplace_update/inplace_update.go:295-396 | A pod that agrees with the old template agrees with the new one's containers after the update, and with its labels and annotations if and only if no key the controller writes itself overrules one of them; keys outside both templates are untouched. |
| InPlaceMeaning.ContainersFollow | internal/inplace_update/inplace_update.go:321-348 | The new template's containers run, and injected containers are unchanged. |
| InPlaceMeaning.NothingLeftForNextBatch | internal/inplace_update/inplace_update.go:377-389 | The state record defers nothing and names exactly the containers whose image changed. |
| InPlaceMeaning.RevisionLabelSurvives | internal/inplace_update/inplace_update.go:267-286 | The revision label survives the metadata patch if and only if the templates agree on its key or the new one happens to hold the same value. |
| InPlaceMeaning.TemplateCanHideRevision | internal/inplace_update/inplace_update.go:267-286 | A template that sets that key takes every pod it updates out of its own revision. |
| InPlaceMeaning.UpdatableIsEquivalence | internal/inplace_update/inplace_update.go:187-226 | Being updatable in place is reflexive, symmetric and transitive. |
| InPlaceMeaning.UpdatableExactly | internal/inplace_update/inplace_update.go:161-226 | Updatable in place means exactly: the new template is the old one with other labels, annotations and images, and no image appears or disappears. |
| InPlaceMeaning.ContainersCompose | internal/inplace_update/inplace_update.go:321-348 | Two updates in a row give the containers of the direct one. |
| InPlaceMeaning.LabelsCompose | internal/inplace_update/inplace_update.go:302-312 | Two updates in a row give the label of the direct one if and only if a stated condition on the three templates and the pod holds for the key, the controller's own keys included. |
| InPlaceMeaning.AnnotationsCompose | internal/inplace_update/inplace_update.go:302-312 | Two updates in a row give the annotation of the direct one if and only if the pod held what the outer templates say of a key that only the middle one changed. |
| InPlaceMeaning.RollbackRestoresContainers | internal/inplace_update/inplace_update.go:321-348 | Updating and rolling back restores the containers. |
| InPlaceMeaning.RollbackRestoresLabels | internal/inplace_update/inplace_update.go:302-312 | Updating and rolling back restores all labels but the controller's own if and only if the pod carried none that only the other template sets. |
| InPlaceMeaning.RollbackRestoresAnnotations | internal/inplace_update/inplace_update.go:302-312 | Updating and rolling back restores all annotations but the state record if and only if the pod carried none that only the other template sets. |
| PodLife.UpdatedIsAsNew | internal/inplace_update/inplace_update.go:259-293 | Updating a pod in place gives the pod that re-creating it from the new template under its name would give, apart from the state record and exactly those labels of the controller that a template change overrules. |
| PodLife.CreatedIsObserved | internal/inplaceu_event_handler/inplaceu_event_handler.go:75-104 | The event that shows a created pod settles exactly that creation's expectation. |
| Revisions.CreateControllerRevision | internal/utils/history/controller_history.go:61-93 | Ends when probes are distinct, stops at the first free name or one that holds the data, returns a revision with the data and never lowers the collision count. |
| Revisions.CreateIsIdempotent | internal/utils/history/controller_history.go:61-93 | A repeat from the same starting count on the resulting store returns the same revision and adds nothing. |
| Revisions.ProbesFit | internal/utils/history/controller_history.go:71-90 | Distinct probes that all collide are no more than the stored names: the bound that ends the loop. |
| Revisions.UpdateControllerRevision | internal/utils/history/controller_history.go:95-114 | For given replies of the server: the call succeeds if and only if the number is written or lost, and it is stored if and only if some attempt is written after nothing but conflicts that were read again. |
| Revisions.FirstConflictLoses | internal/utils/history/controller_history.go:98-112 | When the first attempt conflicts and the re-read fails, the number is lost whatever comes later. |
| Revisions.GetActiveRevisions | internal/controller/inplaceu_controller.go:281-336 | From a list of any age the update revision holds the template and nothing else in the store changes; from a fresh list it is kept, renumbered or created as the replies allow, with one more than the largest number. The collision count moves only when a revision is created, to the first probe that stops. The current revision is the recorded one if it is listed. |
| Revisions.FindEqualMeaning | internal/controller/inplaceu_controller.go:300-306 | The equal revision is the last listed one with the data, and there is none exactly when no listed one has it. |
| Revisions.ActivationKeepsWellFormed | internal/controller/inplaceu_controller.go:301-320 | Activation keeps numbers and data distinct, and leaves the template's revision with the largest stored number if and only if it did not go back to an older template while the replies lost the new number. |
| Revisions.TruncateHistory | internal/controller/inplaceu_controller.go:338-378 | Deletes the oldest revisions that are neither active nor worn, as many as exceed the limit, stopping at a failure. |
| Revisions.CollectHistoric | internal/controller/inplaceu_controller.go:345-361 | Exactly the listed revisions that are neither active nor worn by a listed pod, oldest first. |
| Revisions.CalculateStatus | internal/status/inplace_status.go:77-94 | The counts of the status, and promotion of the update revision exactly when every pod is on it and there are as many as wanted. |
| Revisions.StatusCounts | internal/status/inplace_status.go:77-94 | The counts of a status are the pods running, running and available, and at the update revision. |
| RevisionRuns.HistoryRunInvariant | internal/controller/inplaceu_controller.go:281-336 | Over any run of edits, churn and passes the stored revisions keep distinct numbers and distinct data, and every live pod's label and the recorded current revision name a stored one. |
| RevisionRuns.PassKeepsInvariant | internal/controller/inplaceu_controller.go:338-378 | A pass keeps the history invariant and its update revision holds the current template; that revision has the largest number if and only if the pass did not go back to an older template while the replies lost the number: after the activation, and after a truncation that leaves the newest non-live revision. |
| RevisionRuns.LostNumberHappens | internal/utils/history/controller_history.go:95-114 | Wherever a template is gone back to, every sequence of replies that loses the number makes a pass that ends with the store unchanged and the update revision behind another. |
| RevisionRuns.HistoryIsBounded | internal/controller/inplaceu_controller.go:362-376 | A truncation that ran to its end leaves at most the limit of non-live revisions. |
| RevisionRuns.OldestGoFirst | internal/controller/inplaceu_controller.go:345-376 | The revisions a truncation deletes have smaller numbers than all non-live ones it keeps. |
| RevisionRuns.LimitKeepsLast | internal/controller/inplaceu_controller.go:362-376 | With any history limit but zero the truncation of a pass does not reach the newest non-live revision. |
| RevisionRuns.TruncatedAreNotLive | internal/controller/inplaceu_controller.go:347-361 | No truncated revision is active or worn by a listed pod. |
| RevisionRuns.SyncRelabels | internal/sync/inplaceu_update.go:124-164 | Whatever its calls did, a sync leaves only the update revision's label and labels that were there. |
| RevisionRuns.ReconcileIsPass | internal/controller/inplaceu_controller.go:72-194 | A pass of the controller that got through its gates over a complete list is a step of the runs the history invariant is about. |
| Kube.ShortHashIsSuffix | internal/utils/inplaceu_utils.go:78-83 | The short hash is the end of the name after its last dash, or all of it. |
| Kube.ShortHashHasNoDash | internal/utils/inplaceu_utils.go:78-83 | The short hash holds no dash. |
| Kube.RevisionsOfOneOwner | internal/utils/inplaceu_utils.go:58-64 | For revisions of one owner the loose comparison by short hash is exact. |
| Kube.ShortHashOfName | internal/utils/inplaceu_utils.go:58-76 | The short hash gives back the hash a revision name was built from. |
| Kube.ShortLabelMatches | internal/utils/inplaceu_utils.go:58-64 | A pod labelled with the bare hash belongs to the revision as one labelled with the full name does. |

## Left out

- Convergence.Converges: asks that no recorded template sets the revision label's key differently and that the update template does not mark new pods, for otherwise no pod stays updated and unmarked.
- RevisionRuns.ReconcileIsPass: takes the list of pods to be complete and the list of revisions to be fresh; what a stale pod list does to creations, deletions and updates is the subject of the protocol modules.
- Reconcile.Reconcile: asks that a listed revision that is still stored holds the data listed: the API server never changes the data of a revision. The answers of the server to other calls than renumbering are left open, not listed.
- ProtocolCap.SurgeCap: the replicas and the surge are fixed over the run, and so is the workload's existence: the clearing of expectations when the workload is gone is in `Reconcile.Reconcile` only.
- ProtocolSteps.StepIsRun: takes the names to be created to be new, those to be deleted to be stored, and the versions to fit 64 bits; the graceful and the immediate deletion are not mixed in one step.
- RunFloors.RolloutFloor: the pods settle between passes, as for convergence; the spec is fixed over the run.
- Levelling.ScaleInLevels: speaks of the sorted branch; the unsorted one is `Levelling.UnsortedBranchExactly`.
- Scaling.GetOrGenAvailableIDs: the length and alphabet of ids, and the end of the loop that redraws an id in use, are not modelled; a free id is chosen.
- Updating.SortCandidates: the external pod order is assumed only to put pods that are not running first, as its comment says.
- Updating.Update: one time stamp stands for all pods of a pass.
- Assumptions of the protocol: the cache is updated before the handler runs, passes for one key are serial, a failed create or delete did nothing, names are never reused (so a name stands for the uid), resource versions are numbers that grow, owners do not change, only the controller creates its pods, and it does not restart.
- The watch delivers every event in order; a relist that skips intermediate states is not modelled.
- Calls of one slow-start batch run concurrently in the source; their outcomes are modelled in queue order, in the protocol in any order.
- Convergence is about passes over settled pods in which every call succeeds; requeue times, timeouts and the work queue are not modelled, so nothing is said of how long a rollout takes.
- Percentages are computed in exact arithmetic; the source uses floating point. Machine integers are unbounded, the 32-bit collision count included.
- Nil replicas, a nil rolling-update strategy and a negative history limit.
- JSON encoding, the diff library and strategic merge: templates are compared field by field and a diff is any list of operations that says what differs and nothing else; malformed data and unsupported metadata shapes (finalizers, owner references) are not modelled.
- The mark patch overwrites the listed pod with the server's copy; the status and the history of the same pass are modelled on the pods as listed.
- Per-container resource and metadata updates, which the spec declares and never fills.
- Equality of revisions compares the recorded data; the hash label the external library also looks at is not modelled.
- Readiness of a pod is its first ready condition; the external helper looks at conditions the same way.
- The version check of the update revision, whose uid is never expected by anyone.
- The comparison that skips a status write when nothing changed, status conditions and the observed generation.
- Adoption and release of pods, listing by owner, the selector, events, logs, metrics, the duration store, deep copies and object comparison, and the wiring of the manager.
