/**
 Drift verdicts for one node, and what the plan's status already records about it.
 */
module Drift {
  import opened Api

  /** NoDrift stands for the source's (false, ""). */
  function DetectNodeDrift(node: Node, plan: Plan): DriftReason {
    if Owner(node) != plan.name then NoDrift
    else if CordonEnabled(plan.spec) && OperatorCordoned(node) && !node.unschedulable then
      if RecordedReady(plan.status.nodes, node.name) then MaintenanceComplete else ManualUncordon
    else if !CordonEnabled(plan.spec) && !OperatorCordoned(node) && node.unschedulable then ExternalCordon
    else NoDrift
  }

  /** When which verdict is given. A plan that cordons finds its mark on a schedulable node; the
      node is done if the plan reported it ready, and was else uncordoned by a user. A plan that
      does not cordon finds a node of its own cordoned by somebody else. */
  lemma VerdictMeans(node: Node, plan: Plan)
    ensures DetectNodeDrift(node, plan) == MaintenanceComplete <==>
      && Owner(node) == plan.name && CordonEnabled(plan.spec) && OperatorCordoned(node) && !node.unschedulable
      && exists e :: e in plan.status.nodes && e.name == node.name && e.ready
    ensures DetectNodeDrift(node, plan) == ManualUncordon <==>
      && Owner(node) == plan.name && CordonEnabled(plan.spec) && OperatorCordoned(node) && !node.unschedulable
      && forall e :: e in plan.status.nodes && e.name == node.name ==> !e.ready
    ensures DetectNodeDrift(node, plan) == ExternalCordon <==>
      Owner(node) == plan.name && !CordonEnabled(plan.spec) && !OperatorCordoned(node) && node.unschedulable
  {
    if e :| e in plan.status.nodes && e.name == node.name && e.ready {
      var i :| 0 <= i < |plan.status.nodes| && plan.status.nodes[i] == e;
    }
  }

  predicate RecordedReady(entries: seq<NodeStatus>, name: string) {
    exists i :: 0 <= i < |entries| && entries[i].name == name && entries[i].ready
  }

  function GetNodeDriftState(entries: seq<NodeStatus>, name: string): (bool, DriftReason) {
    match Lookup(entries, name)
    case Some(e) => (e.drifted, e.reason)
    case None => (false, NoDrift)
  }

  predicate NodeCompletedMaintenance(entries: seq<NodeStatus>, name: string) {
    match Lookup(entries, name)
    case Some(e) => e.ready
    case None => false
  }

  /** Either flag keeps the operator from adopting the node again. */
  predicate Latched(entries: seq<NodeStatus>, name: string) {
    GetNodeDriftState(entries, name).0 || NodeCompletedMaintenance(entries, name)
  }

  predicate Releases(verdict: DriftReason) {
    verdict == ManualUncordon || verdict == MaintenanceComplete
  }

  /** Whether a node is released depends on the plan's name and spec alone. */
  lemma ReleasesIgnoresStatus(node: Node, a: Plan, b: Plan)
    requires a.name == b.name && a.spec == b.spec
    ensures Releases(DetectNodeDrift(node, a)) == Releases(DetectNodeDrift(node, b))
  {
  }

  lemma RecordedReadyIsCompleted(entries: seq<NodeStatus>, name: string)
    requires DistinctNames(entries)
    ensures RecordedReady(entries, name) == NodeCompletedMaintenance(entries, name)
  {
    var i := LookupIndex(entries, name);
  }
}
