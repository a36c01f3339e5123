/**
 The objects the operator reads and writes: nodes, pods and maintenance plans.

 Annotation and label keys are a datatype, so that the operator's own keys are
 distinct from all others by construction. A nil map is an empty map, and a
 missing key reads as the empty string, as in Go. Times are whole seconds, which
 is the resolution at which the API server stores them.
 */
module Api {

  datatype Option<+T> = None | Some(value: T)

  type Time = int

  const MINUTE: int := 60

  /* ----- Nodes ----- */

  datatype Key = ManagedBy | Reason | Cordoned | OtherKey(name: string)

  datatype Label = InMaintenance | OtherLabel(name: string)

  datatype ConditionStatus = IsTrue | IsFalse | IsUnknown

  datatype NodeConditionType = ReadyCondition | OtherCondition(name: string)

  datatype NodeCondition = NodeCondition(kind: NodeConditionType, status: ConditionStatus)

  datatype Node = Node(
    name: string,
    annotations: map<Key, string>,
    labels: map<Label, string>,
    unschedulable: bool,
    deleting: bool,
    conditions: seq<NodeCondition>
  )

  function Get<K>(m: map<K, string>, k: K): string {
    if k in m then m[k] else ""
  }

  function Owner(node: Node): string {
    Get(node.annotations, ManagedBy)
  }

  predicate OperatorCordoned(node: Node) {
    Get(node.annotations, Cordoned) == "true"
  }

  /** The first Ready condition decides; a node without one is not ready. */
  predicate IsNodeReady(node: Node) {
    ReadyStatus(node.conditions) == Some(IsTrue)
  }

  /** A node is Ready if the first condition that speaks of it says so. */
  lemma NodeReadyMeans(node: Node)
    ensures IsNodeReady(node) <==>
      exists i :: 0 <= i < |node.conditions|
                  && node.conditions[i].kind == ReadyCondition && node.conditions[i].status == IsTrue
                  && forall j :: 0 <= j < i ==> node.conditions[j].kind != ReadyCondition
  {
    var k := FirstReady(node.conditions);
  }

  lemma {:induction false} FirstReady(conditions: seq<NodeCondition>) returns (k: nat)
    ensures k <= |conditions| && forall j :: 0 <= j < k ==> conditions[j].kind != ReadyCondition
    ensures k < |conditions| ==> conditions[k].kind == ReadyCondition
    ensures ReadyStatus(conditions) == if k < |conditions| then Some(conditions[k].status) else None
  {
    if conditions == [] || conditions[0].kind == ReadyCondition {
      k := 0;
    } else {
      k := FirstReady(conditions[1..]);
      k := k + 1;
      assert forall j | 1 <= j < |conditions| :: conditions[j] == conditions[1..][j - 1];
    }
  }

  function ReadyStatus(conditions: seq<NodeCondition>): Option<ConditionStatus> {
    if conditions == [] then None
    else if conditions[0].kind == ReadyCondition then Some(conditions[0].status)
    else ReadyStatus(conditions[1..])
  }

  /* ----- Pods ----- */

  /** A pod is bound to one node for life and its uid is never used again. */
  datatype PodId = PodId(node: string, uid: int)

  datatype PodPhase = Pending | Running | Succeeded | Failed

  datatype OwnerRef = OwnerRef(daemonSet: bool, controller: Option<bool>)

  datatype Volume = Volume(emptyDir: bool)

  datatype Pod = Pod(
    id: PodId,
    mirror: bool,
    deletionTimestamp: Option<Time>,
    gracePeriod: Option<int>,
    phase: PodPhase,
    owners: seq<OwnerRef>,
    volumes: seq<Volume>
  )

  /* ----- Plan spec ----- */

  datatype Selector = Selector(id: int)

  datatype CordonSpec = CordonSpec(enabled: bool, startAt: Option<Time>)

  datatype DrainOptions = DrainOptions(
    maxParallel: int,
    ignoreDaemonSets: bool,
    deleteEmptyDirData: bool,
    force: bool,
    respectBudgets: bool
  )

  datatype DrainSpec = DrainSpec(enabled: bool, options: Option<DrainOptions>, timeoutMinutes: Option<int>)

  datatype Spec = Spec(
    nodes: seq<string>,
    selector: Option<Selector>,
    reason: string,
    cordon: Option<CordonSpec>,
    drain: Option<DrainSpec>
  )

  predicate CordonEnabled(spec: Spec) {
    spec.cordon.Some? && spec.cordon.value.enabled
  }

  predicate DrainEnabled(spec: Spec) {
    spec.drain.Some? && spec.drain.value.enabled
  }

  /* ----- Plan status ----- */

  datatype DriftReason = NoDrift | ManualUncordon | ExternalCordon | MaintenanceComplete

  datatype IssueKind = ConfigBlocked | BudgetBlocked | StuckTerminating | NotReadyWaiting | NotReadyYielded

  datatype Issue = Issue(kind: IssueKind, pod: Option<PodId>)

  datatype NodeStatus = NodeStatus(
    name: string,
    cordoned: bool,
    drifted: bool,
    reason: DriftReason,
    progress: int,
    totalPods: int,
    initialPods: int,
    evictablePods: int,
    blockedPods: int,
    evictedTotal: int,
    issues: seq<Issue>,
    notReadySince: Option<Time>,
    ready: bool
  )

  function BlankStatus(name: string): NodeStatus {
    NodeStatus(name, false, false, NoDrift, 0, 0, 0, 0, 0, 0, [], None, false)
  }

  datatype Condition =
    | NodesSelected | Scheduled | AllCordoned | NodeNotReady | DrainInProgress
    | DrainSucceeded | DrainBlocked | Conflict | DriftDetected | DrainTimedOut

  datatype Phase =
    | PhasePending | PhaseAdopted | PhaseScheduled | PhaseCordoned | PhaseDraining
    | PhaseBlocked | PhaseReady | PhaseTimedOut | PhaseConflict

  datatype Summary = Summary(ready: int, draining: int, blocked: int, total: int, progress: int, drifted: bool)

  /** Conditions are the set of condition types whose status is True. */
  datatype Status = Status(
    nodes: seq<NodeStatus>,
    conditions: set<Condition>,
    drainStartedAt: Option<Time>,
    resolvedNodes: seq<string>,
    snapshotTaken: bool,
    allReady: bool,
    phase: Phase,
    summary: Summary
  )

  const EMPTY_STATUS: Status :=
    Status([], {}, None, [], false, false, PhasePending, Summary(0, 0, 0, 0, 0, false))

  datatype Plan = Plan(name: string, spec: Spec, finalizer: bool, deleting: bool, status: Status)

  function SetCondition(conditions: set<Condition>, c: Condition, value: bool): set<Condition> {
    if value then conditions + {c} else conditions - {c}
  }

  /* ----- Looking up a per-node entry ----- */

  function Lookup(entries: seq<NodeStatus>, name: string): Option<NodeStatus> {
    if entries == [] then None
    else if entries[0].name == name then Some(entries[0])
    else Lookup(entries[1..], name)
  }

  function NotReadySince(entries: seq<NodeStatus>, name: string): Option<Time> {
    match Lookup(entries, name)
    case Some(e) => e.notReadySince
    case None => None
  }

  ghost predicate DistinctNames(entries: seq<NodeStatus>) {
    forall i, j :: 0 <= i < j < |entries| ==> entries[i].name != entries[j].name
  }

  lemma {:induction false} LookupFinds(entries: seq<NodeStatus>, i: nat)
    requires i < |entries| && DistinctNames(entries)
    ensures Lookup(entries, entries[i].name) == Some(entries[i])
  {
    if i > 0 {
      assert entries[1..][i - 1] == entries[i];
      LookupFinds(entries[1..], i - 1);
    }
  }

  lemma {:induction false} LookupIndex(entries: seq<NodeStatus>, name: string) returns (i: int)
    ensures match Lookup(entries, name)
            case Some(e) => 0 <= i < |entries| && entries[i] == e && e.name == name
            case None => i == -1 && forall k :: 0 <= k < |entries| ==> entries[k].name != name
  {
    if entries == [] {
      i := -1;
    } else if entries[0].name == name {
      i := 0;
    } else {
      var k := LookupIndex(entries[1..], name);
      i := if k == -1 then -1 else k + 1;
      assert forall k | 1 <= k < |entries| :: entries[k] == entries[1..][k - 1];
    }
  }

  /* ----- Sets and maps ----- */

  lemma {:induction false} SubsetSize<T>(a: set<T>, b: set<T>)
    requires a <= b
    ensures |a| <= |b|
  {
    if a != {} {
      var x :| x in a;
      SubsetSize(a - {x}, b - {x});
    }
  }

  predicate SameAt<K, V(==)>(a: map<K, V>, b: map<K, V>, k: K) {
    && (k in a <==> k in b)
    && (k in a ==> a[k] == b[k])
  }

  /* ----- Merge patches ----- */

  /** Only the keys that differ between `base` and `put` reach the server. */
  function MergeMap<K>(base: map<K, string>, put: map<K, string>, server: map<K, string>): map<K, string> {
    map k | k in put.Keys + server.Keys && (if SameAt(base, put, k) then k in server else k in put)
      :: if SameAt(base, put, k) then server[k] else put[k]
  }

  /** A patch computed as the difference between `base` and `put`, applied to whatever
      the server holds by then. It carries no version, so it never fails on a stale base. */
  function MergePatch(base: Node, put: Node, server: Node): (r: Node)
    ensures r.name == server.name && r.conditions == server.conditions && r.deleting == server.deleting
    ensures r.unschedulable == if base.unschedulable == put.unschedulable then server.unschedulable else put.unschedulable
  {
    server.(annotations := MergeMap(base.annotations, put.annotations, server.annotations),
            labels := MergeMap(base.labels, put.labels, server.labels),
            unschedulable := if base.unschedulable == put.unschedulable then server.unschedulable
                             else put.unschedulable)
  }

  /** Key by key: what the patch does not change stays as the server has it. */
  lemma MergeKeepsOthers(base: Node, put: Node, server: Node)
    ensures var r := MergePatch(base, put, server);
            && (forall k: Key :: if SameAt(base.annotations, put.annotations, k)
                                 then SameAt(r.annotations, server.annotations, k)
                                 else SameAt(r.annotations, put.annotations, k))
            && (forall l: Label :: if SameAt(base.labels, put.labels, l)
                                   then SameAt(r.labels, server.labels, l)
                                   else SameAt(r.labels, put.labels, l))
  {
  }

  lemma MergeOntoBase(base: Node, put: Node)
    requires put == base.(annotations := put.annotations, labels := put.labels, unschedulable := put.unschedulable)
    ensures MergePatch(base, put, base) == put
  {
    assert MergeMap(base.annotations, put.annotations, base.annotations) == put.annotations;
    assert MergeMap(base.labels, put.labels, base.labels) == put.labels;
  }
}
