/**
 Which node events wake the operator, and why the dropped ones cannot matter.
 */
module EventFilter {
  import opened Api
  import opened Drift
  import opened NodeWrites
  import opened Passes

  /** Unlike the drain gate, a node without a Ready condition counts as Unknown here. */
  function GetNodeReadyStatus(node: Node): ConditionStatus {
    match ReadyStatus(node.conditions)
    case Some(status) => status
    case None => IsUnknown
  }

  /** The key alone decides, whatever its value. */
  predicate IsManagedByOperator(node: Node) {
    ManagedBy in node.annotations
  }

  predicate NodeRelevantChange(before: Node, after: Node) {
    || before.unschedulable != after.unschedulable
    || before.labels != after.labels
    || ((IsManagedByOperator(before) || IsManagedByOperator(after)) && before.annotations != after.annotations)
    || (!before.deleting && after.deleting)
    || ((IsManagedByOperator(before) || IsManagedByOperator(after))
        && GetNodeReadyStatus(before) != GetNodeReadyStatus(after))
  }

  /** `admitted` holds the label sets that the plan's selector matches. */
  ghost predicate NodeRelevantToPlan(node: Node, plan: Plan, admitted: iset<map<Label, string>>) {
    || Owner(node) == plan.name
    || node.name in plan.spec.nodes
    || (plan.spec.selector.Some? && node.labels in admitted)
  }

  /** Whether a pass resolves this node: a selector counts once, then its snapshot. */
  ghost predicate Resolves(plan: Plan, node: Node, admitted: iset<map<Label, string>>) {
    if plan.spec.selector.None? then node.name in plan.spec.nodes
    else if plan.status.snapshotTaken then node.name in plan.status.resolvedNodes
    else node.labels in admitted
  }

  datatype Bucket = ToAdopt | Stable | Conflicting | ToRelease | NotConcerned

  ghost function BucketOf(plan: Plan, node: Node, admitted: iset<map<Label, string>>): Bucket {
    if Resolves(plan, node, admitted) then
      if Owner(node) == "" then ToAdopt else if Owner(node) == plan.name then Stable else Conflicting
    else if Owner(node) == plan.name then ToRelease
    else NotConcerned
  }

  /** An undisturbed pass would write nothing to this node. */
  ghost predicate AtRest(plan: Plan, node: Node, admitted: iset<map<Label, string>>, cordonDue: bool) {
    PassNode(node, Resolves(plan, node, admitted), plan, cordonDue) == node
  }

  predicate DrainGate(node: Node) {
    node.unschedulable && IsNodeReady(node)
  }

  /** What is dropped: on a node without an owner any change of other annotations and of conditions,
      and on others a heartbeat that leaves the Ready status alone, a missing one being unknown. */
  lemma NoiseIsDropped(node: Node, annotations: map<Key, string>, conditions: seq<NodeCondition>)
    ensures ManagedBy !in node.annotations && ManagedBy !in annotations ==>
      !NodeRelevantChange(node, node.(annotations := annotations, conditions := conditions))
    ensures ManagedBy in node.annotations ==>
      (!NodeRelevantChange(node, node.(conditions := conditions)) <==>
         || ReadyStatus(conditions) == ReadyStatus(node.conditions)
         || {ReadyStatus(conditions), ReadyStatus(node.conditions)} == {None, Some(IsUnknown)})
  {
  }

  /** What is let through: every cordon and uncordon, change of labels and deletion; an adoption, a
      release, and on a node with an owner any change of annotations or of the Ready status. */
  lemma ChangesPass(node: Node, after: Node)
    ensures after.unschedulable != node.unschedulable || after.labels != node.labels || (after.deleting && !node.deleting)
            ==> NodeRelevantChange(node, after)
    ensures (ManagedBy in node.annotations) != (ManagedBy in after.annotations) ==> NodeRelevantChange(node, after)
    ensures ManagedBy in node.annotations && after.annotations != node.annotations ==> NodeRelevantChange(node, after)
    ensures ManagedBy in node.annotations && IsNodeReady(node) != IsNodeReady(after) ==> NodeRelevantChange(node, after)
  {
  }

  /** A dropped update changes nothing a pass of any plan decides on. */
  lemma FilterLosesNothing(before: Node, after: Node, plan: Plan, admitted: iset<map<Label, string>>)
    requires after.name == before.name && plan.name != ""
    requires !NodeRelevantChange(before, after)
    ensures BucketOf(plan, after, admitted) == BucketOf(plan, before, admitted)
    ensures NodeRelevantToPlan(after, plan, admitted) <==> NodeRelevantToPlan(before, plan, admitted)
    ensures DetectNodeDrift(after, plan) == DetectNodeDrift(before, plan)
    ensures IsManagedByOperator(after) <==> IsManagedByOperator(before)
    ensures IsManagedByOperator(before) ==>
      && (AlreadyCordoned(after) <==> AlreadyCordoned(before))
      && (AlreadyUncordoned(after) <==> AlreadyUncordoned(before))
      && (DrainGate(after) <==> DrainGate(before))
  {
    if IsManagedByOperator(before) || IsManagedByOperator(after) {
      assert before.annotations == after.annotations;
    } else {
      assert Owner(before) == "" == Owner(after);
    }
  }

  /** A dropped update neither creates work for a plan nor makes pending work unnecessary. */
  lemma FilterKeepsRest(before: Node, after: Node, plan: Plan, admitted: iset<map<Label, string>>, cordonDue: bool)
    requires after.name == before.name && plan.name != ""
    requires !NodeRelevantChange(before, after)
    ensures AtRest(plan, after, admitted, cordonDue) <==> AtRest(plan, before, admitted, cordonDue)
  {
    FilterLosesNothing(before, after, plan, admitted);
    var desired := Resolves(plan, before, admitted);
    if IsManagedByOperator(before) {
      assert after == Besides(before, after.deleting, after.conditions);
      SameWrites(before, after.deleting, after.conditions, desired, plan, cordonDue);
    } else if desired {
      AdoptionWrites(before, plan, CordonEnabled(plan.spec) && CordonActs(plan.spec, cordonDue));
      AdoptionWrites(after, plan, CordonEnabled(plan.spec) && CordonActs(plan.spec, cordonDue));
    }
  }

  lemma AdoptionWrites(node: Node, plan: Plan, cordon: bool)
    requires plan.name != "" && Owner(node) == ""
    ensures AfterAdoption(node, plan, cordon) == node <==> Latched(plan.status.nodes, node.name)
  {
    assert Owner(Adopted(node, plan.name, plan.spec.reason, cordon)) == plan.name;
  }

  /** The parts of a node that no write of the operator depends on. */
  function Besides(node: Node, deleting: bool, conditions: seq<NodeCondition>): Node {
    node.(deleting := deleting, conditions := conditions)
  }

  lemma DriftWrites(node: Node, deleting: bool, conditions: seq<NodeCondition>, plan: Plan)
    ensures AfterDrift(Besides(node, deleting, conditions), plan) == Besides(AfterDrift(node, plan), deleting, conditions)
  {
    assert DetectNodeDrift(Besides(node, deleting, conditions), plan) == DetectNodeDrift(node, plan);
  }

  lemma CordonWrites(node: Node, deleting: bool, conditions: seq<NodeCondition>, plan: Plan)
    ensures AfterCordon(Besides(node, deleting, conditions), plan) == Besides(AfterCordon(node, plan), deleting, conditions)
  {
  }

  /** A pass writes alike on nodes that differ only in their conditions or deletion. */
  lemma SameWrites(node: Node, deleting: bool, conditions: seq<NodeCondition>, desired: bool, plan: Plan, cordonDue: bool)
    ensures PassNode(Besides(node, deleting, conditions), desired, plan, cordonDue)
            == Besides(PassNode(node, desired, plan, cordonDue), deleting, conditions)
  {
    DriftWrites(node, deleting, conditions, plan);
    CordonWrites(AfterDrift(node, plan), deleting, conditions, plan);
    hide DetectNodeDrift, AfterCordon, AfterDrift;
  }

  /** An event is routed to the plans its node is relevant to. The plans left out have
      nothing to do on the node, except that a selector plan misses a node of its snapshot
      that has become adoptable after its labels stopped matching. */
  lemma MissedAdoptionIff(node: Node, plan: Plan, admitted: iset<map<Label, string>>, cordonDue: bool)
    requires plan.name != "" && !NodeRelevantToPlan(node, plan, admitted)
    ensures !AtRest(plan, node, admitted, cordonDue)
            <==> && plan.spec.selector.Some? && plan.status.snapshotTaken
                 && node.name in plan.status.resolvedNodes
                 && Owner(node) == "" && !Latched(plan.status.nodes, node.name)
  {
    if Owner(node) == "" {
      AdoptionWrites(node, plan, CordonEnabled(plan.spec) && CordonActs(plan.spec, cordonDue));
    }
  }

  /** Such a node: snapshotted, held by another plan at first, relabelled, then released. */
  lemma MissedAdoption(plan: Plan, admitted: iset<map<Label, string>>)
    requires plan.name != "" && plan.spec.nodes == [] && plan.spec.selector.Some?
    requires plan.status.snapshotTaken && plan.status.resolvedNodes == ["a"] && plan.status.nodes == []
    requires map[] !in admitted
    ensures var node := Node("a", map[], map[], false, false, []);
            !NodeRelevantToPlan(node, plan, admitted) && !AtRest(plan, node, admitted, false)
  {
    MissedAdoptionIff(Node("a", map[], map[], false, false, []), plan, admitted, false);
  }
}
