/**
 The cluster as a state machine. A run is any interleaving of single API writes by
 passes of any plans with steps of the environment: users, other controllers, the
 kubelet and the clock. An aborted pass is one whose remaining writes never happen.

 Every write is guarded by what the code that issues it has established; module
 Service proves that a reconcile pass issues only such writes, whatever the
 environment does between two of its API calls.
 */
module Protocol {
  import opened Api
  import opened DrainFilters
  import opened Drift
  import opened StatusUpdate
  import opened DrainFold
  import opened NodeWrites

  /** The last field is history: the ids of all pods there ever were. */
  datatype World = World(
    nodes: map<string, Node>,
    plans: map<string, Plan>,
    pods: map<PodId, Pod>,
    now: Time,
    usedIds: set<PodId>
  )

  datatype Write = Adopting(cordon: bool) | ReleasingDrifted | Cordoning | Uncordoning | Releasing

  /** A drain result with the copy of the node it was computed for, and the length of the
      run when that node's pods were listed. */
  datatype Report = Report(result: DrainResult, seen: Node, listedAt: nat)

  /** What the API answers to a request to evict or to delete a pod. */
  datatype Answer = Accepted | TooManyRequests | NotFound | OtherAnswer

  /** A pass works with the spec it read, which users may have edited since; the steps that
      depend on it carry it. An eviction names the point of the run at which its pod was listed,
      and whether it was an outright deletion; a reply is to a request that was not accepted. */
  datatype Step =
    | Environment
    | AddFinalizer(plan: string)
    | PatchNode(plan: string, spec: Spec, why: Write, seen: Node, put: Node)
    | PublishStatus(plan: string, spec: Spec, all: seq<Node>, conflicting: nat, snapshot: Option<seq<string>>, at: Time)
    | EvictPod(plan: string, spec: Spec, seen: Node, pod: PodId, listedAt: nat, deletion: bool)
    | Reply(plan: string, spec: Spec, seen: Node, pod: PodId, listedAt: nat, answer: Answer)
    | PublishDrain(plan: string, spec: Spec, reports: seq<Report>, at: Time)
    | RemoveFinalizer(plan: string)

  datatype Run = Begin(world: World) | Then(before: Run, step: Step, world: World)

  /* ----- The environment ----- */

  predicate FreshPlan(plan: Plan) {
    !plan.finalizer && !plan.deleting && plan.status == EMPTY_STATUS
  }

  /** Users edit specs and request deletion; a deleted plan stays while it has a finalizer. */
  ghost predicate PlanKept(before: Plan, after: Plan) {
    && after.finalizer == before.finalizer
    && after.status == before.status
    && (before.deleting ==> after.deleting)
    && (after.deleting ==> after.finalizer)
  }

  ghost predicate PlansMove(before: map<string, Plan>, after: map<string, Plan>) {
    && (forall p :: p in before && before[p].finalizer ==> p in after)
    && (forall p :: p in after ==>
          && after[p].name == p && p != ""
          && ((p in before && PlanKept(before[p], after[p]))
              || (FreshPlan(after[p]) && !(p in before && before[p].finalizer))))
  }

  /** A node keeps the operator's annotations, or is a new node that has none. */
  ghost predicate NodesMove(before: map<string, Node>, after: map<string, Node>) {
    forall n :: n in after ==>
      && after[n].name == n
      && (Unmarked(after[n]) || (n in before && SameMarks(before[n], after[n])))
  }

  ghost predicate PodKept(before: Pod, after: Pod) {
    && after.mirror == before.mirror && after.owners == before.owners && after.volumes == before.volumes
    && (before.deletionTimestamp.Some? ==> after.deletionTimestamp.Some?)
    && (Finished(before) ==> Finished(after))
  }

  ghost predicate PodsMove(w: World, w': World) {
    && (forall id :: id in w'.pods ==>
          && w'.pods[id].id == id
          && (if id in w.pods then PodKept(w.pods[id], w'.pods[id]) else id !in w.usedIds))
    && w'.usedIds == w.usedIds + w'.pods.Keys
  }

  ghost predicate Disturbs(w: World, w': World) {
    && w.now <= w'.now
    && NodesMove(w.nodes, w'.nodes)
    && PlansMove(w.plans, w'.plans)
    && PodsMove(w, w')
  }

  /** What may happen between two API calls of a pass that holds copies of the named nodes:
      anything but another node taking one of these names. */
  ghost predicate Interferes(held: set<string>, w: World, w': World) {
    && Disturbs(w, w')
    && (forall n :: n in held && n in w'.nodes ==> n in w.nodes && SameMarks(w.nodes[n], w'.nodes[n]))
  }

  /* ----- Writes of the operator ----- */

  /** Only a live plan that carries the finalizer writes. */
  predicate Active(w: World, p: string) {
    p in w.plans && w.plans[p].finalizer
  }

  /** The last step left node n to itself: no operator patched it, and it was not replaced. */
  ghost predicate LeftAlone(r: Run, n: string)
    requires r.Then?
  {
    && !(r.step.PatchNode? && r.step.seen.name == n)
    && (n in r.world.nodes ==> n in r.before.world.nodes && SameMarks(r.before.world.nodes[n], r.world.nodes[n]))
  }

  /** A copy of a node as the server holds it, or held it and no operator patched it since. */
  ghost predicate Copied(r: Run, seen: Node) {
    || (seen.name in r.world.nodes && r.world.nodes[seen.name] == seen)
    || (r.Then? && Copied(r.before, seen) && LeftAlone(r, seen.name))
  }

  ghost predicate InSnapshot(plan: Plan, n: string) {
    plan.spec.selector.Some? && plan.status.snapshotTaken ==> n in plan.status.resolvedNodes
  }

  /** The plan as a pass sees it that read this spec. */
  function Seen(w: World, p: string, spec: Spec): Plan
    requires p in w.plans
  {
    w.plans[p].(spec := spec)
  }

  /** Plan p has been stored with this spec. */
  ghost predicate SpecRead(r: Run, p: string, spec: Spec) {
    || (p in r.world.plans && r.world.plans[p].spec == spec)
    || (r.Then? && SpecRead(r.before, p, spec))
  }

  /** After this step plan p's pass, or its life, starts anew. */
  predicate Renews(step: Step, p: string) {
    (step.PublishStatus? && step.plan == p) || step == RemoveFinalizer(p)
  }

  /** The last status update of plan p resolved this very copy. */
  ghost predicate Covered(r: Run, p: string, seen: Node) {
    && r.Then?
    && (if Renews(r.step, p) then r.step.PublishStatus? && seen in r.step.all else Covered(r.before, p, seen))
  }

  /** The last status update of plan p resolved a node of this name. */
  ghost predicate Resolved(r: Run, p: string, n: string) {
    && r.Then?
    && (if Renews(r.step, p) then
          r.step.PublishStatus? && exists i :: 0 <= i < |r.step.all| && r.step.all[i].name == n
        else Resolved(r.before, p, n))
  }

  /** The copy of a node that a pass of plan p works with after its status update: the one that
      the update resolved, or the answer to its last patch of the node since. */
  ghost predicate InHand(r: Run, p: string, seen: Node) {
    && r.Then?
    && (if Renews(r.step, p) then r.step.PublishStatus? && seen in r.step.all
        else if r.step.PatchNode? && r.step.plan == p && r.step.seen.name == seen.name then
          seen.name in r.world.nodes && seen == r.world.nodes[seen.name]
        else InHand(r.before, p, seen))
  }

  /** The last patch of node n was plan p's uncordon. */
  predicate UncordonedLast(r: Run, p: string, n: string) {
    && r.Then?
    && (if r.step.PatchNode? && r.step.seen.name == n then r.step.plan == p && r.step.why == Uncordoning
        else UncordonedLast(r.before, p, n))
  }

  /** Without the mark; and schedulable, or else the answer to an uncordon. */
  ghost predicate Uncordoned(r: Run, p: string, seen: Node) {
    Get(seen.annotations, Cordoned) == "" && (!seen.unschedulable || UncordonedLast(r, p, seen.name))
  }

  ghost predicate Allowed(r: Run, plan: Plan, why: Write, seen: Node, put: Node) {
    match why
    case Adopting(cordon) =>
      && Owner(seen) == "" && !Latched(plan.status.nodes, seen.name) && InSnapshot(plan, seen.name)
      && (cordon ==> CordonEnabled(plan.spec))
      && put == Adopted(seen, plan.name, plan.spec.reason, cordon)
    case ReleasingDrifted =>
      && Owner(seen) == plan.name && Releases(DetectNodeDrift(seen, plan))
      && Covered(r, plan.name, seen)
      && put == ReleasedNode(seen)
    case Cordoning =>
      && Owner(seen) == plan.name && CordonEnabled(plan.spec) && !OperatorCordoned(seen)
      && put == CordonedNode(seen)
    case Uncordoning =>
      && Owner(seen) == plan.name
      && put == UncordonedNode(seen)
    case Releasing =>
      && Owner(seen) == plan.name && Uncordoned(r, plan.name, seen)
      && put == ReleasedNode(seen)
  }

  predicate Cordons(why: Write) {
    why == Adopting(true) || why == Cordoning
  }

  function Patched(w: World, seen: Node, put: Node): World
    requires seen.name in w.nodes
  {
    w.(nodes := w.nodes[seen.name := MergePatch(seen, put, w.nodes[seen.name])])
  }

  function WithStatus(w: World, p: string, status: Status): World
    requires p in w.plans
  {
    w.(plans := w.plans[p := w.plans[p].(status := status)])
  }

  ghost predicate SnapshotRule(plan: Plan, all: seq<Node>, snapshot: Option<seq<string>>) {
    && (snapshot.Some? <==> plan.spec.selector.Some? && !plan.status.snapshotTaken)
    && (snapshot.Some? ==> forall n :: n in snapshot.value <==> exists i :: 0 <= i < |all| && all[i].name == n)
    && (forall i :: 0 <= i < |all| ==> InSnapshot(plan, all[i].name))
  }

  /** The plan released this node for drift after its last status update. */
  predicate ReleasedThisPass(r: Run, p: string, n: string) {
    && r.Then?
    && !Renews(r.step, p)
    && ((r.step.PatchNode? && r.step.plan == p && r.step.why == ReleasingDrifted && r.step.seen.name == n)
        || ReleasedThisPass(r.before, p, n))
  }

  /** A node a drain pass works on: resolved by the status update, and owned, or else released
      for drift in this very pass and found cordoned again when the release was answered. */
  ghost predicate DrainTarget(r: Run, p: string, seen: Node) {
    && Resolved(r, p, seen.name) && InHand(r, p, seen)
    && (Owner(seen) == p || (Owner(seen) == "" && ReleasedThisPass(r, p, seen.name)))
  }

  /** When plan p last evicted a pod since its last status update. */
  function LastEviction(r: Run, p: string): Option<Time> {
    if r.Begin? || Renews(r.step, p) then None
    else if r.step.EvictPod? && r.step.plan == p then Some(r.world.now)
    else LastEviction(r.before, p)
  }

  predicate TimedOut(plan: Plan) {
    DrainTimedOut in plan.status.conditions
  }

  /** An accepted eviction or deletion: the pod is gone or on its way out. */
  ghost predicate Evicted(w: World, id: PodId, w': World) {
    && w' == w.(pods := w'.pods)
    && w'.pods.Keys <= w.pods.Keys && w.pods.Keys <= w'.pods.Keys + {id}
    && (forall k :: k in w'.pods && k != id ==> w'.pods[k] == w.pods[k])
    && (id in w'.pods ==> PodKept(w.pods[id], w'.pods[id]) && w'.pods[id].id == id
                          && w'.pods[id].deletionTimestamp.Some?)
  }

  function ResultsOf(reports: seq<Report>): (r: seq<DrainResult>)
    ensures |r| == |reports| && forall i :: 0 <= i < |reports| ==> r[i] == reports[i].result
  {
    seq(|reports|, i requires 0 <= i < |reports| => reports[i].result)
  }

  function Length(r: Run): nat {
    if r.Begin? then 0 else Length(r.before) + 1
  }

  /** The world after the first k steps of a run. */
  function At(r: Run, k: nat): World {
    if r.Begin? || Length(r) <= k then r.world else At(r.before, k)
  }

  /** The pods whose eviction was accepted so far. */
  function EvictedIds(r: Run): set<PodId> {
    if r.Begin? then {} else if r.step.EvictPod? then EvictedIds(r.before) + {r.step.pod} else EvictedIds(r.before)
  }

  /** After k steps of the run a listing showed this pod, not on its way out. */
  ghost predicate ListedThen(r: Run, k: nat, id: PodId) {
    && k <= Length(r)
    && id in At(r, k).pods && At(r, k).pods[id].deletionTimestamp.None?
  }

  /** The pod was evicted after the first k steps of the run. */
  predicate EvictedAfter(r: Run, k: nat, id: PodId) {
    r.Then? && k < Length(r) && ((r.step.EvictPod? && r.step.pod == id) || EvictedAfter(r.before, k, id))
  }

  /** The pods that were deleted outright. */
  function DeletedIds(r: Run): set<PodId> {
    if r.Begin? then {}
    else if r.step.EvictPod? && r.step.deletion then DeletedIds(r.before) + {r.step.pod}
    else DeletedIds(r.before)
  }

  /** After the first k steps of the run a request for this pod got this answer. */
  predicate Answered(r: Run, k: nat, id: PodId, answer: Answer) {
    r.Then? && k < Length(r)
    && ((r.step.Reply? && r.step.pod == id && r.step.answer == answer) || Answered(r.before, k, id, answer))
  }

  /** The evictions of plan p on node n that no drain status of p accounts for yet. A status
      update starts a new pass, which knows nothing of those of an aborted one. */
  function Unfolded(r: Run, p: string, n: string): nat {
    if r.Begin? || Renews(r.step, p) || (r.step.PublishDrain? && r.step.plan == p) then 0
    else Unfolded(r.before, p, n) + if r.step.EvictPod? && r.step.plan == p && r.step.pod.node == n then 1 else 0
  }

  /** The results name each node at most once, and account for every pending eviction. */
  ghost predicate Accounts(r: Run, p: string, results: seq<DrainResult>) {
    && DistinctResults(results)
    && (forall i :: 0 <= i < |results| ==> results[i].outcome.evicted == Unfolded(r, p, results[i].name))
    && (forall n :: Unfolded(r, p, n) > 0 ==> exists i :: 0 <= i < |results| && results[i].name == n)
  }

  /** The pods of a node that stand in the way of maintenance. */
  ghost predicate IsWorkload(w: World, id: PodId, n: string, cfg: DrainConfig) {
    id in w.pods && id.node == n && Workload(w.pods[id], cfg)
  }

  /** Whatever stood in the way when the pods were listed is gone now. */
  ghost predicate ListedWorkloadGone(r: Run, listedAt: nat, n: string, cfg: DrainConfig) {
    && listedAt <= Length(r)
    && forall id :: IsWorkload(At(r, listedAt), id, n, cfg) ==> id !in r.world.pods
  }

  ghost predicate SoundReport(r: Run, plan: Plan, report: Report) {
    var result := report.result;
    && report.seen.name == result.name
    && report.seen.unschedulable
    && DrainTarget(r, plan.name, report.seen)
    && SoundOutcome(result.outcome)
    && (result.err.NotReadyError? <==> !IsNodeReady(report.seen))
    && (result.err.NotReadyError? ==>
          result.outcome == NO_OUTCOME && result.err.since == NotReadySince(plan.status.nodes, result.name))
    && (FullyDrained(result) ==>
          GetDrainConfig(plan.spec).Some?
          && ListedWorkloadGone(r, report.listedAt, result.name, GetDrainConfig(plan.spec).value))
  }

  /** A pass of plan p may ask for this pod to go: it drains the pod's node, and the options it
      read let the pod be evicted as it was listed. */
  ghost predicate Requestable(r: Run, p: string, spec: Spec, seen: Node, id: PodId, listedAt: nat) {
    && Active(r.world, p) && SpecRead(r, p, spec) && !TimedOut(r.world.plans[p]) && Copied(r, seen)
    && seen.unschedulable && IsNodeReady(seen) && DrainTarget(r, p, seen)
    && id.node == seen.name && ListedThen(r, listedAt, id) && !EvictedAfter(r, listedAt, id)
    && GetDrainConfig(spec).Some? && MayEvict(At(r, listedAt).pods[id], GetDrainConfig(spec).value)
  }

  /** A pod is deleted outright only where budgets need not be respected, and only after one of
      them has refused its eviction. */
  ghost predicate MayDelete(r: Run, spec: Spec, id: PodId, listedAt: nat) {
    && GetDrainConfig(spec).Some? && !GetDrainConfig(spec).value.respectBudgets
    && Answered(r, listedAt, id, TooManyRequests)
  }

  ghost predicate NoneOwnedBy(w: World, p: string) {
    forall n :: n in w.nodes ==> Owner(w.nodes[n]) != p
  }

  ghost predicate Does(r: Run, step: Step, w': World) {
    var w := r.world;
    match step
    case Environment => Disturbs(w, w')
    case AddFinalizer(p) =>
      && p in w.plans && !w.plans[p].deleting
      && w' == w.(plans := w.plans[p := w.plans[p].(finalizer := true)])
    case PatchNode(p, spec, why, seen, put) =>
      && Active(w, p) && SpecRead(r, p, spec) && seen.name in w.nodes && Copied(r, seen)
      && Allowed(r, Seen(w, p, spec), why, seen, put)
      && w' == Patched(w, seen, put)
    case PublishStatus(p, spec, all, conflicting, snapshot, at) =>
      && Active(w, p) && SpecRead(r, p, spec) && at <= w.now
      && DistinctNodes(all) && (forall i :: 0 <= i < |all| ==> Copied(r, all[i]))
      && SnapshotRule(Seen(w, p, spec), all, snapshot)
      && w' == WithStatus(w, p, UpdatedStatus(Seen(w, p, spec), all, conflicting, snapshot, at))
    case EvictPod(p, spec, seen, id, listedAt, deletion) =>
      && Requestable(r, p, spec, seen, id, listedAt)
      && (if deletion then MayDelete(r, spec, id, listedAt) else id in w.pods)
      && Evicted(w, id, w')
    case Reply(p, spec, seen, id, listedAt, answer) =>
      && Requestable(r, p, spec, seen, id, listedAt)
      && answer != Accepted && (answer == NotFound ==> id !in w.pods)
      && w' == w
    case PublishDrain(p, spec, reports, at) =>
      && Active(w, p) && SpecRead(r, p, spec) && !TimedOut(w.plans[p]) && at <= w.now
      && Accounts(r, p, ResultsOf(reports))
      && (LastEviction(r, p).Some? ==> LastEviction(r, p).value <= at)
      && (forall i :: 0 <= i < |reports| ==> SoundReport(r, Seen(w, p, spec), reports[i]))
      && w' == WithStatus(w, p, AppliedDrain(Seen(w, p, spec), ResultsOf(reports), at).0)
    case RemoveFinalizer(p) =>
      && Active(w, p) && w.plans[p].deleting && NoneOwnedBy(w, p)
      && w' == w.(plans := w.plans - {p})
  }

  ghost predicate Legal(r: Run) {
    r.Then? ==> Legal(r.before) && Does(r.before, r.step, r.world)
  }

  /** A cluster the operator has not touched yet. */
  ghost predicate Initial(w: World) {
    && (forall n :: n in w.nodes ==> w.nodes[n].name == n && Unmarked(w.nodes[n]))
    && (forall p :: p in w.plans ==> w.plans[p].name == p && p != "" && FreshPlan(w.plans[p]))
    && (forall id :: id in w.pods ==> w.pods[id].id == id)
    && w.usedIds == w.pods.Keys
  }

  function Origin(r: Run): World {
    if r.Begin? then r.world else Origin(r.before)
  }

  ghost predicate Reachable(r: Run) {
    Legal(r) && Initial(Origin(r))
  }

  /** r2 continues r1. */
  ghost predicate Extends(r1: Run, r2: Run) {
    r1 == r2 || (r2.Then? && Extends(r1, r2.before))
  }
}
