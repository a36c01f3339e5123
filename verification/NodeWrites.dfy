/**
 What the operator writes to a node, and what of it a merge patch carries over.
 */
module NodeWrites {
  import opened Api

  function Adopted(node: Node, plan: string, reason: string, cordon: bool): Node {
    var marked := node.annotations[ManagedBy := plan][Reason := reason];
    node.(annotations := if cordon then marked[Cordoned := "true"] else marked,
          labels := node.labels[InMaintenance := "true"],
          unschedulable := node.unschedulable || cordon)
  }

  predicate AlreadyCordoned(node: Node) {
    node.unschedulable && OperatorCordoned(node)
  }

  function CordonedNode(node: Node): Node {
    node.(unschedulable := true, annotations := node.annotations[Cordoned := "true"])
  }

  predicate AlreadyUncordoned(node: Node) {
    !node.unschedulable && Get(node.annotations, Cordoned) == ""
  }

  function UncordonedNode(node: Node): Node {
    node.(unschedulable := false, annotations := node.annotations - {Cordoned})
  }

  function ReleasedNode(node: Node): Node {
    node.(annotations := node.annotations - {ManagedBy, Reason, Cordoned}, labels := node.labels - {InMaintenance})
  }

  /** Whatever else is on the node stays: its other annotations and labels, and what users and the
      kubelet say of it. */
  ghost predicate OnlyWrites(before: Node, after: Node, keys: set<Key>, labels: set<Label>) {
    && after == before.(annotations := after.annotations, labels := after.labels, unschedulable := after.unschedulable)
    && (forall k: Key :: k !in keys ==> SameAt(before.annotations, after.annotations, k))
    && (forall l: Label :: l !in labels ==> SameAt(before.labels, after.labels, l))
  }

  /** What each write leaves on the node it is computed from. */
  lemma WritesMean(node: Node, plan: string, reason: string, cordon: bool)
    ensures var a := Adopted(node, plan, reason, cordon);
            && Owner(a) == plan && Get(a.annotations, Reason) == reason && Get(a.labels, InMaintenance) == "true"
            && a.unschedulable == (node.unschedulable || cordon)
            && (if cordon then OperatorCordoned(a) else SameAt(node.annotations, a.annotations, Cordoned))
            && OnlyWrites(node, a, {ManagedBy, Reason, Cordoned}, {InMaintenance})
    ensures var c := CordonedNode(node);
            c.unschedulable && OperatorCordoned(c) && OnlyWrites(node, c, {Cordoned}, {})
    ensures var u := UncordonedNode(node);
            !u.unschedulable && Cordoned !in u.annotations && OnlyWrites(node, u, {Cordoned}, {})
    ensures var r := ReleasedNode(node);
            && Unmarked(r) && InMaintenance !in r.labels && r.unschedulable == node.unschedulable
            && OnlyWrites(node, r, {ManagedBy, Reason, Cordoned}, {InMaintenance})
  {
  }

  /** Agreement on the annotations that only the operator writes. */
  predicate SameMarks(a: Node, b: Node) {
    && SameAt(a.annotations, b.annotations, ManagedBy)
    && SameAt(a.annotations, b.annotations, Reason)
    && SameAt(a.annotations, b.annotations, Cordoned)
  }

  predicate Unmarked(node: Node) {
    ManagedBy !in node.annotations && Reason !in node.annotations && Cordoned !in node.annotations
  }

  /** A merge patch carries the operator's annotations over exactly, even onto a node
      that users have changed since the base was read. */
  lemma PatchCarriesMarks(base: Node, put: Node, server: Node)
    requires SameMarks(base, server)
    ensures SameMarks(MergePatch(base, put, server), put)
  {
    var merged := MergeMap(base.annotations, put.annotations, server.annotations);
    assert SameAt(merged, put.annotations, ManagedBy);
    assert SameAt(merged, put.annotations, Reason);
    assert SameAt(merged, put.annotations, Cordoned);
  }
}
