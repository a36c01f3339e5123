# A verified model of the node maintenance operator

The operator takes cluster nodes out of service: it adopts the nodes a plan names, cordons and
drains them, reports when each is ready for maintenance, and hands them back. This project models
its reconcile pass, drain engine, event filter and certificate bootstrap in Dafny, and proves what
the code relies on but nowhere states: orderings that make a pass safe to abort anywhere, flags
that must survive every status rebuild, counters that must add up, and verdicts that must never be
false. `dafny verify dfyconfig.toml` checks everything.

## How the model is built

**Two levels.** `Protocol` describes a cluster as a state machine: users, kubelets, schedulers and
the clock on one side, and on the other the six kinds of API write the operator makes, and the
answers to requests it makes in vain, each with the condition under which the code makes it and the
plan's spec as the pass read it. `Safety` and `Streak` prove properties of every run of that
machine: any number of plans, passes cut off after any write, the world moving between any two API
calls. `Cordons` tells who cordoned and uncordoned a node, `Evictions` adds up what the drain work
of a whole run did. `Service` is the operator's code in its own imperative form, a class whose
methods update the plan in hand and its copies of nodes. Each method is proved to add only legal
steps to the run, so that the run theorems hold of the code. On a *calm* cluster, where nothing else
moves, each method also states its exact effect; `Convergence` builds on that.

**Copies and patches.** A pass works on copies it read earlier. A node is written with a merge patch
that carries only the differences and no version (`Api.MergePatch`), so it lands on whatever the
server holds by then, and the answer replaces the copy. In a run every copy has a provenance: it is
a state the server once held, and no operator has patched that node since.

**Modules.** `Api` (objects, patches), `DrainFilters` (pod classification), `Drift`, `StatusUpdate`,
`DrainFold` (folding drain results), `NodeWrites` and `Protocol`, `Safety`, `Cordons`, `Evictions`
(over whole runs), `Phases` (what a plan reports of itself), `Runs` and `Instances` (concrete runs),
`Streak` (NotReadySince), `Server` (a cluster that moves between calls), `Passes`, `Requests`,
`Draining`, `Service`, `Convergence`, `EventFilter`, `WorkerPool` (the concurrent drain) and
`SharedBudgets`, `CertProtocol` and `CertBootstrap` (the shared CA), `Int32` (32-bit arithmetic).

## Assumptions

- Only the operator writes its annotations and finalizer. Passes of different plans do not
  interleave; why not is the subject of `Safety.TakenOverIff`.
- Within a pass users do anything: edit the spec of its plan, add, delete and cordon nodes and pods.
  Only a node deleted while a pass holds its copy does not come back within that pass.
- An accepted eviction sets the pod's deletion timestamp or removes the pod. Pods carry uids that
  are not reused. What the API answers to a request is left open; every answer is part of the run.
- Times are whole seconds, and the clock never goes back. One reading serves a whole status update.
- Whether cordon and drain are due are inputs of a pass. Undoing a disabled cordon always acts.
- A nil map is an empty map. Go's deep comparison tells them apart, so the real event filter lets
  through more events than the model's, never fewer.

## What turned out false

Each is stated as code behaviour, with the exact condition and a concrete instance.

- *The cordon mark always sits on an unschedulable node.* Not when a node is read, to be adopted or
  cordoned, while somebody else has cordoned it and is uncordoned before the patch lands:
  `Cordons.StaleMarkIff`, `Cordons.StaleMark`. The next pass takes that for a manual uncordon.
- *A plan takes no node from another.* Node patches carry no version, so of two passes that both read
  a node as free the last writer has it: `Safety.TakenOverIff`, `Safety.TakenOver`.
- *Every release for drift is recorded first.* Not when cordon is switched on while a pass runs,
  because the status patches refresh the spec the pass works with:
  `StatusUpdate.UnrecordedReleaseIff`, `Instances.UnrecordedRelease`.
- *A released node is never drained.* Not within the releasing pass, when the answer to the release
  patch shows it cordoned again: `Safety.ReleasedCopyStillDrainsIff`, `Instances.ReleasedCopyDrains`.
- *A pass evicts nothing from a node that its status update saw NotReady.* It does when the answer to
  a patch of its own, a cordon for one, shows the node Ready by then, and only then:
  `Streak.NotReadyIsNotDrained`, `Streak.RefreshedCopyIff`, `Instances.RefreshedCopyDrains`.
- *The eviction total counts every eviction.* Not those of a pass that was aborted before its drain
  status: `Evictions.TotalIsExactIff`; `Instances.TwoLatePasses` is a run that loses one.
- *Only one pass evicts after the deadline.* One completed pass, with a fixed timeout; but an
  aborted one is followed by another: `Evictions.LatePassIsLast`, `Evictions.LateAgainMeansAborted`,
  and `Evictions.LateAgain`, of which `Instances.TwoLatePasses` is an instance.
- *The node watch misses no work.* A selector plan misses a node of its snapshot that becomes
  adoptable after its labels stopped matching: `EventFilter.MissedAdoptionIff`,
  `EventFilter.MissedAdoption`.
- *Replicas always agree on the CA.* A rotation breaks the agreement unless nobody relies on the old
  CA (`CertProtocol.RotationKeepsAgreementIff`), and the rest of the rotating call restores it only
  if no other replica does (`CertProtocol.RotationHealsIff`): one whose certificate is not due keeps
  it (`CertProtocol.StrandedUntilDue`, `CertProtocol.RotationStrandsReplica`).
- *A completed call leaves the caBundle set.* Not when it keeps a certificate whose own call was cut
  short before publishing: `CertProtocol.BundleUnsetIff`, `CertProtocol.BundleLeftUnset`. Once the
  certificate is due, the next call publishes.
- *A call that publishes leaves its own CA in the caBundle.* Not when it read it as there already and
  it was replaced since: `CertProtocol.PublishesOwnIff`, `CertProtocol.StalePatchMisses`.
- *The pool returns what the loop returns.* Not when nodes contend for a disruption budget that is
  neither used up nor large enough for all of them: `SharedBudgets.SchedulesAgreeIff`,
  `SharedBudgets.SharedBudgetShows`.
- *Progress is a percentage.* Not beyond 32 bits: `Int32.ProgressExactIff`, `Int32.ProgressWraps`.

Where code and documentation disagree the model follows the code: ExternalCordon drift is sticky,
DrainBlocked outranks DrainInProgress in the phase, removed nodes are released only when cordoning
acts, AllNodesReady is recomputed only by a drain pass, a failed pod listing counts as an empty
outcome and drives progress to 100, maxParallel bounds calls within a pass and not nodes with
terminating pods, and the drifted flag alone may give way to ready.

## Model

| member | source | states |
|---|---|---|
| `Api.MergePatch` | internal/maintenance/cordon.go:30-40 | a patch changes schedulability only if its base and result differ there, and never conditions or deletion |
| `Api.MergeKeepsOthers` | internal/maintenance/cordon.go:30-40 | annotation by annotation and label by label: what the patch does not change stays as the server has it |
| `Api.MergeOntoBase` | internal/maintenance/ownership.go:160-183 | on an unchanged server object the patch gives exactly the object that was put |
| `Api.NodeReadyMeans` | internal/maintenance/node_health.go:14-23 | a node is Ready iff the first condition that speaks of it says so |
| `NodeWrites.PatchCarriesMarks` | internal/maintenance/ownership.go:160-185 | the operator's annotations arrive exactly, even on a node users changed since it was read |
| `NodeWrites.WritesMean` | internal/maintenance/ownership.go:156-185 | what adopting, cordoning, uncordoning and releasing leave: owner, reason, label, mark and schedulability, and nothing else changed |
| `DrainFilters.ClassifyPods` | internal/maintenance/drain_filters.go:41-103 | the five-way loop, in listing order; a pod is evictable iff it is running, no mirror, not of a DaemonSet, controlled or forced, and without local data or allowed to lose it; blocked iff running but for one of these; stuck iff overdue |
| `DrainFilters.ClassMeans` | internal/maintenance/drain_filters.go:41-103 | each class told from the pod and the options, with the deadline in seconds |
| `DrainFilters.DrainConfigMeans` | internal/maintenance/drain_node.go:122-144 | the options one by one, and the defaults without an options block |
| `DrainFilters.OrderPreserved` | internal/maintenance/drain_filters.go:41-103 | a bucket keeps listing order and every position of its class |
| `DrainFilters.CountOfClass` | internal/maintenance/drain_filters.go:41-103 | a pod is in its own bucket as often as listed and in no other |
| `DrainFilters.Partition` | internal/maintenance/drain_filters.go:41-103 | the five buckets together are the listing |
| `DrainFilters.TimeMonotone` | internal/maintenance/drain_filters.go:54-68 | later classification only turns Terminating into Stuck, exactly when the deadline lies between |
| `DrainFilters.LooserClass` | internal/maintenance/drain_filters.go:69-103 | loosening options moves a pod only out of Blocked, to Evictable or Skipped |
| `DrainFilters.LooserUnblocks` | internal/maintenance/drain_filters.go:41-103 | bucket by bucket: only Blocked shrinks, and gains come from pods that were blocked |
| `DrainFilters.SkippedIsNoWorkload` | internal/maintenance/drain_filters.go:41-103 | skipped pods are those that never stand in the way of maintenance |
| `DrainFilters.BuildConfigIssues` | internal/maintenance/reconcile_preview.go:102-126 | one issue per pod, labelled by its first blocking reason |
| `DrainFilters.PreviewConfigIssues` | internal/maintenance/reconcile_preview.go:102-126 | for pods that classification blocked, the catch-all label is never reached |
| `Drift.RecordedReadyIsCompleted` | internal/maintenance/drift.go:63-98 | the two ways of reading the ready flag agree when names are distinct |
| `Drift.VerdictMeans` | internal/maintenance/drift.go:47-76 | exactly when each of the three verdicts is given |
| `StatusUpdate.ExistingIsLookup` | internal/maintenance/status.go:86-92 | indexing by name finds what the first-match search finds |
| `StatusUpdate.RecomputePlanSummaries` | internal/maintenance/status.go:29-80 | the counting loop: summary and phase as the next two rows say |
| `StatusUpdate.SummaryMeans` | internal/maintenance/status.go:29-58 | ready, draining and blocked are numbers of entries of that kind; the average is rounded down |
| `StatusUpdate.PhaseMeans` | internal/maintenance/status.go:61-82 | exactly when each phase is shown; Ready iff the ready flag is set, without timeout or conflict |
| `StatusUpdate.AverageProgress` | internal/maintenance/status.go:34-58 | the plan average is in 0..100, and 100 exactly when every node is |
| `StatusUpdate.UpdateStatus` | internal/maintenance/status.go:84-190 | the whole new status: entries, conditions, summaries, snapshot |
| `StatusUpdate.ConditionsMean` | internal/maintenance/status.go:101-167 | each condition of an update on its own; those of the drain are left |
| `StatusUpdate.UpdateMeans` | internal/maintenance/status.go:96-190 | one entry per resolved node in order, the snapshot iff one is taken, drain start and ready flag left |
| `StatusUpdate.BuildNodeStatuses` | internal/maintenance/status.go:223-253 | entries start from the previous ones; only the owned fields change |
| `StatusUpdate.EntryMeans` | internal/maintenance/status.go:223-253 | every field of an entry told from the node and the previous entry |
| `StatusUpdate.EntryFor` | internal/maintenance/status.go:223-253 | exactly one entry per resolved node |
| `StatusUpdate.LatchCarried` | internal/maintenance/status.go:226-247 | ready always survives an update, and drifted-or-ready does; others' nodes keep their drift state |
| `StatusUpdate.ReleaseIsRecorded` | internal/maintenance/status.go:226-238 | a verdict that releases is recorded by the update before the release |
| `StatusUpdate.UnrecordedReleaseIff` | internal/controller/nodemaintenanceplan_controller.go:125-141 | a release is unrecorded exactly when cordon was switched on mid-pass for such a node |
| `Instances.UnrecordedRelease` | internal/controller/nodemaintenanceplan_controller.go:125-141 | a reachable run in which a node is released and no status bars it |
| `DrainFold.ApplyDrainResults` | internal/maintenance/drain_reconcile.go:96-236 | the in-place fold equals its specification, timeout path and requeue included |
| `DrainFold.DrainStatusMeans` | internal/maintenance/drain_reconcile.go:210-271 | each drain condition, the requeue and the ready flag told from the errors and counts of the results |
| `DrainFold.TimeoutStatusMeans` | internal/maintenance/drain_reconcile.go:192-208 | the timeout path: the verdict, no requeue, phase and summary left as they were |
| `DrainFold.ExpiresMeans` | internal/maintenance/drain_reconcile.go:186-194 | when it is taken, and when the drain starts |
| `DrainFold.EntryAfterMeans` | internal/maintenance/drain_reconcile.go:300-421 | what a result makes of its entry: counts, progress, ready flag, and the issues by kind and pod |
| `DrainFold.FoldOutcomes` | internal/maintenance/drain_reconcile.go:103-184 | entries and the three flags after the loop |
| `DrainFold.ChangeEntry` | internal/maintenance/drain_reconcile.go:300-358 | the first entry of that name changes, nothing else |
| `DrainFold.LookupAfterFold` | internal/maintenance/drain_reconcile.go:103-184 | each entry is changed by the one result that names it, or not at all |
| `DrainFold.OrderIndependent` | internal/maintenance/drain_reconcile.go:96-236 | any order of the results gives the same status and requeue |
| `DrainFold.DrainVerdicts` | internal/maintenance/drain_reconcile.go:210-271 | succeeded iff all done iff no requeue; excludes the other two, one of which holds otherwise; all-ready means non-empty and all ready |
| `DrainFold.ReadyOnlyWhenDrained` | internal/maintenance/drain_reconcile.go:344-358 | ready is set exactly for a cordoned entry whose node is fully drained; drift and NotReady fields stay |
| `DrainFold.TimeoutLatch` | internal/maintenance/drain_reconcile.go:186-209 | the start never moves, the verdict never goes, and comes exactly past the deadline of a pass that is not all done |
| `DrainFold.ProgressFormula` | internal/maintenance/drain_reconcile.go:318-324 | in 0..100, 100 iff nothing is left, monotone as pods go |
| `DrainFold.ProgressMeans` | internal/maintenance/drain_reconcile.go:318-324 | the part of the first count that is gone, in percent, rounded down |
| `DrainFold.EntryStaysSound` | internal/maintenance/drain_reconcile.go:300-327 | counters stay possible, the initial count is fixed, the eviction total grows by what was evicted |
| `Safety.StepKeepsInv` | internal/maintenance/cordon.go:20-64 | every write keeps the mark, owner, finalizer, counter and pod invariants |
| `Safety.AlwaysInv` | internal/controller/nodemaintenanceplan_controller.go:93-148 | they hold in every reachable state |
| `Safety.CountersStaySound` | internal/maintenance/drain_reconcile.go:300-358 | in every reachable state progress and average are percentages, blocked is within total, names are distinct |
| `Safety.NoOrphanedNodes` | internal/controller/nodemaintenanceplan_controller.go:93-110 | a managed-by annotation always names an existing plan that has its finalizer |
| `Safety.PlanLeavesNothingBehind` | internal/controller/nodemaintenanceplan_controller.go:214-229 | a finalized plan disappears only by its own last write, with no node naming it |
| `Cordons.ReleasedNodesAreUncordoned` | internal/maintenance/cleanup.go:20-65 | a release other than for drift clears every mark on a node that was schedulable at some point since the operator last cordoned it; if it is cordoned then, only users have cordoned it since |
| `Safety.OwnershipIsolation` | internal/maintenance/ownership.go:120-150 | a plan's write leaves others' nodes, their pods and other plans alone; owners move only between the writer and nobody |
| `Safety.ReleaseAfterRecord` | internal/controller/nodemaintenanceplan_controller.go:125-141 | in every run a release for drift finds its verdict persisted and leaves the node barred, unless the last status update worked with a spec that did not cordon |
| `Safety.ReleaseIsPermanent` | internal/maintenance/reconcile.go:37-62 | while resolved a barred node stays barred; from the next pass on it is never adopted, cordoned, released or drained |
| `Safety.ReleasedCopyStillDrainsIff` | internal/maintenance/drain_reconcile.go:74-77 | within the releasing pass the copy passes the drain gate exactly when cordoned again and Ready |
| `Instances.ReleasedCopyDrains` | internal/maintenance/drain_reconcile.go:74-77 | a reachable run in which a pass evicts from a node it has just released |
| `Cordons.CopiesWereRead` | internal/maintenance/ownership.go:103-117 | every copy a step works with is a state the server held at a named point of the run, and no operator has patched the node since |
| `Cordons.MarkMeansUncordoned` | internal/maintenance/cordon.go:20-64 | a schedulable node that carries the mark was uncordoned by a user after the operator's last effective cordon |
| `Cordons.UncordonWorks` | internal/maintenance/cordon.go:45-64 | after an uncordon patch, from however old a copy, the node was schedulable at some point since the operator's last cordon |
| `Cordons.DriftMeansUserUncordon` | internal/maintenance/drift.go:47-76 | a releasing verdict on any copy implies such an uncordon, whatever was interrupted |
| `Cordons.DriftReleaseMeansUserUncordon` | internal/maintenance/reconcile_drift.go:19-77 | so does every release for drift in every run |
| `Cordons.StaleMarkIff` | internal/maintenance/cordon.go:30-40 | for every node write of every run: exactly when it leaves a node newly marked and yet schedulable |
| `Cordons.StaleMark` | internal/maintenance/ownership.go:171-176 | concrete instances, one by cordoning and one by adopting |
| `Safety.TakenOverIff` | internal/maintenance/ownership.go:156-185 | which writes from a stale copy change the owner of a node that another plan has adopted since |
| `Safety.TakenOver` | internal/maintenance/ownership.go:156-185 | a concrete instance |
| `Safety.NoFalseReady` | internal/maintenance/drain_reconcile.go:108-119 | ready is switched on only for a node owned, recorded and seen cordoned, Ready, and rid of all listed workload |
| `Safety.WorkloadOnlyShrinks` | internal/maintenance/drain_filters.go:41-103 | a node kept cordoned without new workload only loses workload |
| `Safety.ReadyNodeStaysEmpty` | internal/maintenance/drain_reconcile.go:108-119 | a node whose ready flag was switched on holds no workload from then on, if it was kept cordoned since the listing behind it |
| `Safety.StatusLatches` | internal/maintenance/drain_reconcile.go:186-209 | drain start, timeout verdict and snapshot are set once per plan lifetime |
| `Safety.TimedOutMeansIdle` | internal/maintenance/drain_reconcile.go:49-52 | after the verdict no eviction and no fold |
| `Safety.TimedOutPhase` | internal/maintenance/status.go:61-64 | from the next update on the phase is TimedOut for good |
| `Phases.ReadyFlagMeans` | internal/maintenance/drain_reconcile.go:212-220 | in every reachable state the ready flag says that the last drain status off the timeout path found every entry ready |
| `Phases.PhaseIsCurrent` | internal/maintenance/status.go:61-82 | phase and summary always fit conditions and entries, but for the time from a timeout verdict to the next update |
| `Phases.ReadyPhaseMeans` | internal/maintenance/status.go:61-82 | exactly when a plan shows Ready |
| `Safety.SnapshotFreeze` | internal/maintenance/ownership.go:51-99 | once taken the snapshot never changes, and adoption stays within it |
| `Evictions.EvictedOnce` | internal/maintenance/drain_node.go:69-92 | no pod is evicted twice in a run, by whichever plan |
| `Evictions.OnlyEvictablePods` | internal/maintenance/drain_filters.go:41-103 | in every run each pod asked to go was listed running and could be evicted by the options that the pass read |
| `Evictions.DeletedWasRefused` | internal/maintenance/drain_node.go:73-80 | a pod is deleted outright only after a refusal of its eviction |
| `Evictions.BudgetsAreRespected` | internal/maintenance/drain_node.go:73-80 | a plan never stored without respect for budgets deletes no pod |
| `Evictions.EvictionsAreDistinct` | internal/maintenance/drain_node.go:69-92 | the evictions of a run on a node are as many as the distinct pods evicted there |
| `Evictions.EvictionsAreBounded` | internal/maintenance/drain_node.go:69-92 | never more than pods that some state of the run held there |
| `Evictions.EvictionsRunOut` | internal/maintenance/drain_node.go:50-92 | a node that gets no new pods sees at most as many further evictions as it has pods, besides those of listings already made |
| `Evictions.ResultsAreRecorded` | internal/maintenance/drain_reconcile.go:300-327 | every reported node has an entry, its result states the evictions the run made for it, and its total grows by them |
| `Evictions.EvictionsAreConserved` | internal/maintenance/drain_reconcile.go:300-327 | over every run that keeps resolving the node: evictions made = growth of the stored total + those not folded yet + those of aborted passes |
| `Evictions.TotalIsExactIff` | internal/maintenance/drain_reconcile.go:300-327 | the stored total grows by exactly the evictions iff no pass that evicted there was aborted |
| `Evictions.LateFoldTimesOut` | internal/maintenance/drain_reconcile.go:186-209 | the drain status of a pass that evicted past the deadline gives the timeout verdict |
| `Evictions.LatePassIsLast` | internal/maintenance/drain_reconcile.go:186-209 | with a fixed timeout, once such a pass is completed the plan stays timed out in every continuation |
| `Evictions.LateAgainMeansAborted` | internal/maintenance/drain_reconcile.go:43-92 | another eviction in a later pass means the late pass ended without a drain status |
| `Evictions.LateAgain` | internal/maintenance/drain_reconcile.go:43-92 | and a late pass that leaves a pod on a drainable node that the plan still resolves can be aborted and followed by another late one |
| `Instances.TwoLatePasses` | internal/maintenance/drain_reconcile.go:43-92 | a concrete run with two of them |
| `Evictions.InitialCountStays` | internal/maintenance/drain_reconcile.go:300-327 | the count that progress is measured against never changes once set, over every run that keeps resolving the node |
| `Streak.RecordIsStreakStart` | internal/maintenance/status.go:240-249 | the stored field equals the streak start computed from the run alone |
| `Streak.StreakBegan` | internal/maintenance/status.go:240-249 | a stored time is that of the update that began the still unbroken streak |
| `Streak.StreakIsRecorded` | internal/maintenance/status.go:240-249 | an unbroken streak is stored with the time of its first update |
| `Streak.ConditionAfterLongStreak` | internal/maintenance/status.go:259-280 | NodeNotReady iff some node's streak is at least 300 s old |
| `Streak.YieldAfterLongStreak` | internal/maintenance/drain_reconcile.go:148-162 | drain yields iff that node's streak is at least 300 s old; the report counts no eviction |
| `Streak.NotReadyIsNotDrained` | internal/maintenance/drain_reconcile.go:71-88 | no pass evicts from a node its status update saw NotReady, unless it patched the node since and the answer shows it Ready |
| `Streak.RefreshedCopyIff` | internal/maintenance/drain_reconcile.go:71-88 | for such a node the pass holds a copy that passes the drain tests exactly when the last answer shows it Ready and cordoned |
| `Instances.RefreshedCopyDrains` | internal/maintenance/cordon.go:30-40 | a reachable run in which it does |
| `Service.ComputeOwnership` | internal/maintenance/ownership.go:120-150 | desired is split by owner, to-release is owned minus desired, for every map order |
| `Service.FilterOwned` | internal/maintenance/ownership.go:103-117 | exactly the nodes annotated with the plan's name |
| `Service.MaintenanceService.GetNodes` | internal/maintenance/nodes.go:47-98 | the named nodes that exist; one is left out only if it was missing at some moment of the call; other errors abort |
| `Service.MaintenanceService.ComputeOwnershipResolution` | internal/maintenance/ownership.go:51-100 | the resolution of a pass; snapshot taken once, every owned node in stable or to-release |
| `Service.MaintenanceService.Patch` | internal/maintenance/ownership.go:183-185 | a legal step or nothing; the answer becomes the copy |
| `Service.MaintenanceService.AdoptNode` | internal/maintenance/ownership.go:156-193 | marks and schedulability in one write |
| `Service.MaintenanceService.ReconcileOwnership` | internal/maintenance/reconcile.go:16-52 | adopts every free node that is neither drifted nor ready |
| `Service.MaintenanceService.PublishPlanStatus` | internal/maintenance/status.go:84-190 | writes the updated status, or fails and leaves the plan in hand; covers every resolved copy |
| `Service.MaintenanceService.ReconcileDrift` | internal/maintenance/reconcile_drift.go:19-77 | releases exactly the drifted stable nodes, each as the status update resolved it |
| `Service.MaintenanceService.CordonNode` | internal/maintenance/cordon.go:20-41 | cordon and mark in one write, never on a marked schedulable node |
| `Service.MaintenanceService.UncordonNode` | internal/maintenance/cordon.go:45-64 | afterwards unmarked, and schedulable at some point since the operator's last cordon |
| `Service.MaintenanceService.ReleaseNode` | internal/maintenance/cleanup.go:43-66 | clears every mark of an unmarked-cordon node |
| `Service.MaintenanceService.CordonStable` | internal/maintenance/reconcile.go:58-88 | cordons or uncordons every stable node still owned |
| `Service.MaintenanceService.ReleaseRemoved` | internal/maintenance/reconcile.go:91-109 | uncordons and releases every removed node |
| `Service.MaintenanceService.EnsureFinalizer` | internal/controller/nodemaintenanceplan_controller.go:204-211 | after it the plan in hand is active: finalizer before adoption |
| `Service.MaintenanceService.CleanUp` | internal/maintenance/cleanup.go:12-39 | no node names the plan afterwards; on a calm cluster exactly its nodes are uncordoned and released |
| `Service.MaintenanceService.HandleDeletion` | internal/controller/nodemaintenanceplan_controller.go:214-229 | the plan is gone and left no owned node |
| `Service.MaintenanceService.EvictPodOrDelete` | internal/maintenance/drain_node.go:70-91 | counted, refused, failed or gone exactly as the API answered; a refusal is followed by a deletion iff budgets need not be respected |
| `Service.MaintenanceService.EvictAll` | internal/maintenance/drain_node.go:69-92 | the refused pods are those answered so, in order; the loop ends at the first error; else every pod was evicted, refused or gone; counts add up |
| `Service.MaintenanceService.ReconcilePreview` | internal/maintenance/reconcile_preview.go:19-77 | skipped while a drain is in progress or without targets; otherwise its patch refreshes the spec in hand |
| `Service.MaintenanceService.DrainNode` | internal/maintenance/drain_node.go:50-103 | the result is what the listing and the answers make it; a fully drained result means all listed workload is gone |
| `Service.MaintenanceService.SplitByHealth` | internal/maintenance/drain_reconcile.go:71-88 | cordoned nodes are drained if Ready and reported otherwise, none left out |
| `Service.MaintenanceService.DrainNodes` | internal/maintenance/drain_reconcile.go:274-296 | one result per node, in order, accounting for every eviction |
| `Service.MaintenanceService.ReconcileDrain` | internal/maintenance/drain_reconcile.go:43-92 | nothing is asked or written unless the plan drains and has not timed out; else every cordoned stable node is reported on, and totals follow the evictions of the run |
| `Service.MaintenanceService.RunPass` | internal/controller/nodemaintenanceplan_controller.go:112-158 | the steps in order; no pod is asked to go and no drain status written unless draining is due and enabled, aborted or not; on a calm cluster the exact effect on every node |
| `Service.MaintenanceService.Reconcile` | internal/controller/nodemaintenanceplan_controller.go:63-170 | one reconcile continues the run legally from the point where it read the plan; a deleted plan is cleaned up, another is not; pods are left alone unless draining is due and enabled; a completed pass accounts for every eviction and leaves none unfolded, drains what it must, and sends no patch when no node changes |
| `Passes.StagesMakeAPass` | internal/controller/nodemaintenanceplan_controller.go:120-148 | the stages put together, node by node |
| `Draining.NothingLeft` | internal/maintenance/drain_node.go:50-103 | nothing blocked, terminating or present any more means no listed workload is left |
| `Draining.ResultMeans` | internal/maintenance/drain_node.go:50-103 | the error of a drain call by precedence, told from the listed pods and the answers; its counts |
| `Draining.ReportPersists` | internal/maintenance/drain_reconcile.go:274-296 | a node's result stays true while other nodes are drained |
| `Draining.TotalsGrowByEvictions` | internal/maintenance/drain_reconcile.go:300-327 | stored totals grow by exactly what the results report |
| `Draining.TotalsCarried` | internal/maintenance/status.go:235-251 | a status update carries every total over |
| `Draining.BlockedCount` | internal/maintenance/drain_reconcile.go:300-327 | for a listed result the stored blocked count is the pods held back by options plus the stuck ones |
| `Convergence.SecondPassKeepsNode` | internal/maintenance/reconcile.go:16-112 | per node: a second pass makes of the first one's node the same node |
| `Convergence.PassMeans` | internal/maintenance/reconcile.go:16-112 | what one undisturbed pass makes of a node, case by case, for both cordon settings, due or not |
| `Convergence.SecondPassIsIdle` | internal/controller/nodemaintenanceplan_controller.go:112-148 | an undisturbed second pass changes no node, whichever way cordon is set |
| `Convergence.OnePassConverges` | internal/controller/nodemaintenanceplan_controller.go:112-148 | with cordon due: every desired node owned, cordoned and marked, or another's, or barred; nothing else stays owned |
| `Convergence.ReconcileTwice` | internal/controller/nodemaintenanceplan_controller.go:63-170 | of two reconciles as the code runs them the second sends no node patch at all |
| `Service.RestMeansNoPatch` | internal/controller/nodemaintenanceplan_controller.go:120-148 | a pass that would leave every node as it is has no node to patch in any of its steps |
| `EventFilter.FilterLosesNothing` | internal/controller/nodemaintenanceplan_predicates.go:52-132 | a dropped update leaves bucket, relevance and drift verdict of every plan as they were, and for managed nodes cordon and drain decisions |
| `EventFilter.NoiseIsDropped` | internal/controller/nodemaintenanceplan_predicates.go:52-83 | heartbeats, and on nodes without an owner annotations and conditions, are dropped |
| `EventFilter.ChangesPass` | internal/controller/nodemaintenanceplan_predicates.go:52-83 | what is always let through |
| `EventFilter.FilterKeepsRest` | internal/controller/nodemaintenanceplan_predicates.go:52-83 | a dropped update neither creates work for a pass nor removes it |
| `EventFilter.SameWrites` | internal/controller/nodemaintenanceplan_predicates.go:52-83 | a pass writes alike on nodes that differ only in conditions or deletion |
| `EventFilter.MissedAdoptionIff` | internal/controller/nodemaintenanceplan_predicates.go:110-132 | exactly when routing leaves out a plan that has work on the node |
| `EventFilter.MissedAdoption` | internal/controller/nodemaintenanceplan_predicates.go:110-132 | a concrete instance |
| `WorkerPool.MaxParallel` | internal/maintenance/drain_reconcile.go:54-57 | the option's number when positive, else one |
| `WorkerPool.RequestMeans` | internal/maintenance/drain_node.go:69-92 | which requests are granted, refused and failed, and what that costs a budget |
| `WorkerPool.BoundedParallelism` | internal/maintenance/drain_reconcile.go:274-296 | under every interleaving at most maxParallel calls run |
| `WorkerPool.WrittenOnce` | internal/maintenance/drain_reconcile.go:285-289 | each slot is written once, by its own goroutine, with its node's name, and before the wait returns |
| `WorkerPool.DeadlockIff` | internal/maintenance/drain_reconcile.go:274-296 | nothing can move exactly when all wait and there is no permit |
| `WorkerPool.WaitReturns` | internal/maintenance/drain_reconcile.go:294-295 | with a permit every schedule goes on until the wait returns, within a bound |
| `WorkerPool.PoolIsSequential` | internal/maintenance/drain_reconcile.go:274-296 | without shared budgets, results and budgets equal those of draining in order |
| `SharedBudgets.SchedulesAgreeIff` | internal/maintenance/drain_reconcile.go:274-296 | budgets respected and no call broken: every schedule returns the results of draining in order iff each budget is used up, lasts for all pods that ask it, or is asked by one node at most |
| `SharedBudgets.ContentionShows` | internal/maintenance/drain_reconcile.go:274-296 | otherwise the last node to ask evicts more when it goes first |
| `SharedBudgets.SharedBudgetShows` | internal/maintenance/drain_reconcile.go:274-296 | a concrete instance with two nodes and one disruption |
| `CertProtocol.AgreedUntilRotation` | internal/webhook/certbootstrap.go:95-192 | in every run without a rotation all replicas, certificates and the caBundle agree with the Secret |
| `CertProtocol.Agreement` | internal/webhook/certbootstrap.go:95-192 | in particular as long as no CA is due for renewal |
| `CertProtocol.OneCreation` | internal/webhook/certbootstrap.go:162-187 | without rotation the Secret holds the CA of the one successful creation |
| `CertProtocol.SecretStays` | internal/webhook/certbootstrap.go:138-192 | and never changes again |
| `CertProtocol.PublishedAfterCreation` | internal/webhook/certbootstrap.go:103-117 | the caBundle is set once a call that created, replaced or raced for the CA is past the webhook certificate |
| `CertProtocol.RotationKeepsAgreementIff` | internal/webhook/certbootstrap.go:146-160 | a rotation keeps the agreement exactly when nobody relies on the old CA |
| `CertProtocol.RotationHealsIff` | internal/webhook/certbootstrap.go:103-132 | once the rotating call completes undisturbed, agreement is back exactly when no other replica has a certificate or a CA in hand, and the caBundle was unset or the call published |
| `CertProtocol.StrandedUntilDue` | internal/webhook/certbootstrap.go:206-223 | a replica keeps its certificate, whoever signed it, in every run in which it is neither due nor lost and nobody rotates |
| `CertProtocol.RotationStrandsReplica` | internal/webhook/certbootstrap.go:206-223 | a run in which a replica completes with a certificate nobody trusts |
| `CertProtocol.BundleUnsetIff` | internal/webhook/certbootstrap.go:103-117 | a completed call ends with the caBundle unset exactly when it was unset at its webhook check, the call kept its certificate, and nobody published since |
| `CertProtocol.BundleLeftUnset` | internal/webhook/certbootstrap.go:103-117 | a concrete run |
| `CertProtocol.PublishesOwnIff` | internal/webhook/certbootstrap.go:103-117 | a completed call that wrote its certificate ends with its own CA in the caBundle exactly when no other CA was the last to be published since it read the configuration |
| `CertProtocol.StalePatchMisses` | internal/webhook/certbootstrap.go:363-397 | a run in which it does not |
| `CertBootstrap.CertBootstrapper.EnsureCA` | internal/webhook/certbootstrap.go:138-192 | on success this replica holds a CA; the flag says whether it is new to it; without failures the Secret holds it and it is not due |
| `CertBootstrap.CertBootstrapper.PatchCABundle` | internal/webhook/certbootstrap.go:363-397 | on success the caBundle is set, and is this CA unless it was read as there already and replaced before the patch |
| `CertBootstrap.CertBootstrapper.EnsureCerts` | internal/webhook/certbootstrap.go:95-132 | on success a certificate in every configured directory, before renewal signed by the Secret's CA; the caBundle unset exactly when the certificate was kept and nobody published; without failures it succeeds and leaves nothing missing or due |
| `CertBootstrap.EnsureTwice` | internal/webhook/certbootstrap.go:93-132 | idempotence: an undisturbed second call changes nothing |
| `Int32.LossShows` | internal/maintenance/drain_reconcile.go:322-324 | a wrapped dividend never gives the right quotient |
| `Int32.ProgressExactIff` | internal/maintenance/drain_reconcile.go:318-324 | node progress is exact iff at most 21,474,836 pods are gone |
| `Int32.ProgressWraps` | internal/maintenance/drain_reconcile.go:318-324 | one pod more and an empty node shows -99 |
| `Int32.Average32` | internal/maintenance/status.go:29-58 | the plan average is exact iff the sum fits, hence up to 21,474,836 nodes |
| `Int32.AverageWraps` | internal/maintenance/status.go:29-58 | that bound is tight when all nodes are done |

## Left out

- Kubernetes client, caches, watches and work queues: API calls are atomic reads and writes that may fail.
- Events, logs, metrics, condition reasons and messages; conditions are a set of types, summaries are numbers.
- Schedule arithmetic and requeue by schedule: the two due flags are inputs.
- The admission webhook: one loop around a short check on plan lists.
- Label selectors and disruption-budget evaluation: a selection is any set of nodes, an eviction gets any answer.
- Keys, PEM, X.509 and file writes: CAs are ids, a certificate is the id of its signer, written at once.
- Preview counts and budget issues; what is modelled are the configuration issues and the refresh of the plan in hand.
- The grace-period override of an eviction request, and eviction by name rather than by uid.
- Deletion of the CA Secret, and edits of the webhook configuration, by others.
- `Service.MaintenanceService.DrainNodes`: drains one node after the other; `WorkerPool` and `SharedBudgets` show when the concurrent pool gives the same.
- `WorkerPool.PoolIsSequential`: the pod listing of each call is an input, so a listing that changes while the pool runs is not captured.
- `Safety.ReleaseIsPermanent`: the guarantee ends when an update no longer resolves the node, as in the code.
- `Int32.ProgressExactIff`: pod counts themselves are taken to fit 32 bits.
