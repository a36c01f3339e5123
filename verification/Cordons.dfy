/**
 Who cordoned and who uncordoned a node, over whole runs: what drift verdicts and releases
 rest on, although passes decide on copies that the server has moved on from.
 */
module Cordons {
  import opened Api
  import opened Drift
  import opened StatusUpdate
  import opened DrainFold
  import opened NodeWrites
  import opened Protocol
  import opened Safety

  /* ----- Copies ----- */

  /** After k steps the server held this very node, and no operator has patched it since. */
  ghost predicate ReadAt(r: Run, k: nat, seen: Node) {
    && k <= Length(r)
    && (if k == Length(r) then seen.name in r.world.nodes && r.world.nodes[seen.name] == seen
        else r.Then? && ReadAt(r.before, k, seen) && LeftAlone(r, seen.name))
  }

  /** Every copy that a pass works with was read at some point of the run. */
  lemma {:induction false} CopiesWereRead(r: Run, seen: Node) returns (k: nat)
    requires Copied(r, seen)
    ensures ReadAt(r, k, seen) && seen.name in At(r, k).nodes && At(r, k).nodes[seen.name] == seen
  {
    if seen.name in r.world.nodes && r.world.nodes[seen.name] == seen {
      k := Length(r);
    } else {
      k := CopiesWereRead(r.before, seen);
    }
  }

  /* ----- Uncordoned by a user ----- */

  /** The last step of r turned node n from cordoned to schedulable on the users' side. */
  ghost predicate UserUncordons(r: Run, n: string) {
    && r.Then? && r.step.Environment?
    && n in r.before.world.nodes && n in r.world.nodes
    && r.before.world.nodes[n].unschedulable && !r.world.nodes[n].unschedulable
  }

  /** The last step of r is a patch that cordons node n, and n is cordoned after it. */
  ghost predicate CordonTakesEffect(r: Run, n: string) {
    && r.Then? && r.step.PatchNode? && r.step.seen.name == n && Cordons(r.step.why)
    && n in r.world.nodes && r.world.nodes[n].unschedulable
  }

  /** A user uncordoned n, and the operator has not cordoned it with effect since. */
  ghost predicate UncordonedSinceCordon(r: Run, n: string) {
    r.Then? && (UserUncordons(r, n) || (UncordonedSinceCordon(r.before, n) && !CordonTakesEffect(r, n)))
  }

  lemma NodesStay(r: Run, n: string)
    requires Legal(r) && r.Then? && !r.step.Environment? && !(r.step.PatchNode? && r.step.seen.name == n)
    ensures n in r.world.nodes <==> n in r.before.world.nodes
    ensures n in r.world.nodes ==> r.world.nodes[n] == r.before.world.nodes[n]
  {
    hide Copied, Allowed, SnapshotRule, SoundReport, Accounts, DrainTarget, UpdatedStatus, AppliedDrain, MergePatch;
  }

  /** A node that was read as cordoned and is schedulable now was uncordoned by a user. */
  lemma {:induction false} CopyUncordoned(r: Run, seen: Node)
    requires Reachable(r) && Copied(r, seen) && seen.unschedulable
    requires seen.name in r.world.nodes && !r.world.nodes[seen.name].unschedulable
    ensures UncordonedSinceCordon(r, seen.name)
  {
    hide Does;
    if !r.step.Environment? {
      NodesStay(r, seen.name);
    }
    if !r.before.world.nodes[seen.name].unschedulable {
      CopyUncordoned(r.before, seen);
    }
  }

  /** The other writes leave no mark on the node. */
  lemma OtherPatchesUnmark(r: Run, n: string)
    requires Reachable(r) && r.Then? && r.step.PatchNode? && r.step.seen.name == n && !Cordons(r.step.why)
    ensures n in r.world.nodes && Cordoned !in r.world.nodes[n].annotations
  {
    hide Copied, Covered, InHand, DetectNodeDrift, Uncordoned, Disturbs;
    AlwaysInv(r.before);
    assert NodeInv(r.before.world, n);
    CopyIsCurrent(r.before, r.step.seen);
    PatchCarriesMarks(r.step.seen, r.step.put, r.before.world.nodes[n]);
  }

  /** A cordoning patch that leaves its node schedulable rests on a copy that was cordoned. */
  lemma IneffectiveCordon(r: Run, n: string)
    requires Reachable(r) && r.Then? && r.step.PatchNode? && r.step.seen.name == n && Cordons(r.step.why)
    requires n in r.world.nodes && !r.world.nodes[n].unschedulable
    ensures r.step.seen.unschedulable && Copied(r.before, r.step.seen)
    ensures n in r.before.world.nodes && !r.before.world.nodes[n].unschedulable
  {
    hide Copied, Covered, InHand, DetectNodeDrift, Uncordoned, Disturbs;
  }

  lemma PatchedMark(r: Run, n: string)
    requires Reachable(r) && r.Then? && r.step.PatchNode? && r.step.seen.name == n
    requires n in r.world.nodes && Cordoned in r.world.nodes[n].annotations && !r.world.nodes[n].unschedulable
    ensures UncordonedSinceCordon(r, n)
  {
    hide Does, Copied;
    if Cordons(r.step.why) {
      IneffectiveCordon(r, n);
      CopyUncordoned(r.before, r.step.seen);
    } else {
      OtherPatchesUnmark(r, n);
    }
  }

  /** The mark on a schedulable node is a user's doing. */
  lemma {:induction false} MarkMeansUncordoned(r: Run, n: string)
    requires Reachable(r) && n in r.world.nodes
    requires Cordoned in r.world.nodes[n].annotations && !r.world.nodes[n].unschedulable
    ensures UncordonedSinceCordon(r, n)
  {
    hide Copied, Allowed, SnapshotRule, SoundReport, Accounts, DrainTarget, UpdatedStatus, AppliedDrain, PlansMove, PodsMove;
    if n in r.before.world.nodes && Cordoned in r.before.world.nodes[n].annotations
       && !r.before.world.nodes[n].unschedulable {
      MarkMeansUncordoned(r.before, n);
    }
    if r.step.PatchNode? && r.step.seen.name == n {
      PatchedMark(r, n);
    } else if !r.step.Environment? {
      NodesStay(r, n);
    }
  }

  /** No false positives: a verdict that releases a node is given on a copy only after a user
      uncordoned the node, later than the operator's last cordon that took effect, however old
      the copy is, whatever spec the pass works with and whatever was interrupted. */
  lemma {:induction false} DriftMeansUserUncordon(r: Run, plan: Plan, seen: Node)
    requires Reachable(r) && Copied(r, seen) && Releases(DetectNodeDrift(seen, plan))
    ensures UncordonedSinceCordon(r, seen.name)
  {
    if seen.name in r.world.nodes && r.world.nodes[seen.name] == seen {
      MarkMeansUncordoned(r, seen.name);
    } else {
      DriftMeansUserUncordon(r.before, plan, seen);
    }
    hide Does;
  }

  /** So a node is released for drift only after a user uncordoned it. */
  lemma DriftReleaseMeansUserUncordon(r: Run, p: string, spec: Spec, seen: Node, put: Node)
    requires Reachable(r) && r.Then? && r.step == PatchNode(p, spec, ReleasingDrifted, seen, put)
    ensures UncordonedSinceCordon(r.before, seen.name)
  {
    hide Copied, Covered;
    DriftMeansUserUncordon(r.before, Seen(r.before.world, p, spec), seen);
  }

  /* ----- Uncordoned before its release ----- */

  /** The last step of r is a patch by which the operator cordons node n. */
  ghost predicate OperatorCordons(r: Run, n: string) {
    r.Then? && r.step.PatchNode? && r.step.seen.name == n && Cordons(r.step.why)
  }

  /** At some point since the operator last cordoned it, node n was schedulable. */
  ghost predicate SchedulableSinceCordon(r: Run, n: string) {
    || (n in r.world.nodes && !r.world.nodes[n].unschedulable)
    || (r.Then? && !OperatorCordons(r, n) && SchedulableSinceCordon(r.before, n))
  }

  /** Node n is cordoned, and what made it so was a step of the environment: the operator has
      not cordoned it since. */
  ghost predicate CordonedByUser(r: Run, n: string) {
    && r.Then? && n in r.world.nodes && r.world.nodes[n].unschedulable && !OperatorCordons(r, n)
    && ((r.step.Environment? && (n in r.before.world.nodes ==> !r.before.world.nodes[n].unschedulable))
        || CordonedByUser(r.before, n))
  }

  lemma {:induction false} CordonIsUsers(r: Run, n: string)
    requires Reachable(r) && n in r.world.nodes && r.world.nodes[n].unschedulable
    ensures SchedulableSinceCordon(r, n) ==> CordonedByUser(r, n)
  {
    if SchedulableSinceCordon(r, n) {
      if !r.step.Environment? {
        OtherPatchesKeepSchedulable(r, n);
      }
      if n in r.before.world.nodes && r.before.world.nodes[n].unschedulable {
        CordonIsUsers(r.before, n);
      }
    }
    hide Does;
  }

  lemma OtherPatchesKeepSchedulable(r: Run, n: string)
    requires Reachable(r) && r.Then? && !r.step.Environment? && !OperatorCordons(r, n) && n in r.world.nodes
    ensures n in r.before.world.nodes
    ensures r.world.nodes[n].unschedulable ==> r.before.world.nodes[n].unschedulable
  {
    hide Copied, Covered, InHand, SnapshotRule, SoundReport, Accounts, DrainTarget, UpdatedStatus, AppliedDrain;
    if !(r.step.PatchNode? && r.step.seen.name == n) {
      NodesStay(r, n);
    }
  }

  /** A node that was read as schedulable was so since the operator last cordoned it. */
  lemma {:induction false} CopySchedulable(r: Run, seen: Node)
    requires Copied(r, seen) && !seen.unschedulable
    ensures SchedulableSinceCordon(r, seen.name)
  {
    if !(seen.name in r.world.nodes && r.world.nodes[seen.name] == seen) {
      CopySchedulable(r.before, seen);
    }
  }

  /** And so was a node whose last patch is an uncordon: either the patch made it schedulable,
      or its copy already was. */
  lemma {:induction false} UncordonWorks(r: Run, p: string, n: string)
    requires Reachable(r) && UncordonedLast(r, p, n)
    ensures SchedulableSinceCordon(r, n)
  {
    hide Copied, SnapshotRule, SoundReport, Accounts, DrainTarget, UpdatedStatus, AppliedDrain, Disturbs;
    if r.step.PatchNode? && r.step.seen.name == n {
      if !r.step.seen.unschedulable {
        CopySchedulable(r.before, r.step.seen);
      }
    } else {
      UncordonWorks(r.before, p, n);
    }
  }

  lemma UncordonedWasSchedulable(r: Run, p: string, seen: Node)
    requires Reachable(r) && Copied(r, seen) && Uncordoned(r, p, seen)
    ensures SchedulableSinceCordon(r, seen.name)
  {
    hide Reachable, Copied;
    if seen.unschedulable {
      UncordonWorks(r, p, seen.name);
    } else {
      CopySchedulable(r, seen);
    }
  }

  lemma StillSchedulableSince(r: Run, n: string)
    requires r.Then? && SchedulableSinceCordon(r.before, n) && !OperatorCordons(r, n)
    ensures SchedulableSinceCordon(r, n)
  {
  }

  /** A release other than for drift takes every mark off a node that was uncordoned first: at
      some point since the operator last cordoned the node it was schedulable, and if it is
      cordoned when it is released, only users have cordoned it since. */
  lemma ReleasedNodesAreUncordoned(r: Run, p: string, spec: Spec, seen: Node, put: Node)
    requires Reachable(r) && r.Then? && r.step == PatchNode(p, spec, Releasing, seen, put)
    ensures seen.name in r.world.nodes && Unmarked(r.world.nodes[seen.name])
    ensures SchedulableSinceCordon(r, seen.name)
    ensures r.world.nodes[seen.name].unschedulable ==> CordonedByUser(r, seen.name)
  {
    hide Copied, Uncordoned, Covered, DetectNodeDrift, Disturbs, SchedulableSinceCordon, CordonedByUser, Inv;
    AlwaysInv(r.before);
    NameOfPlan(r.before.world, p);
    CopyIsCurrent(r.before, seen);
    PatchCarriesMarks(seen, put, r.before.world.nodes[seen.name]);
    UncordonedWasSchedulable(r.before, p, seen);
    StillSchedulableSince(r, seen.name);
    if r.world.nodes[seen.name].unschedulable {
      CordonIsUsers(r, seen.name);
    }
  }

  /* ----- Marks from stale copies ----- */

  /** Stale copies matter: a patch leaves a node newly marked and yet schedulable exactly when
      it cordons, its copy already showed the node cordoned, and a user uncordoned it before
      the patch landed: the patch then carries the mark alone. */
  lemma StaleMarkIff(r: Run, p: string, spec: Spec, why: Write, seen: Node, put: Node)
    requires Reachable(r) && r.Then? && r.step == PatchNode(p, spec, why, seen, put)
    ensures seen.name in r.before.world.nodes && seen.name in r.world.nodes
    ensures var (before, after) := (r.before.world.nodes[seen.name], r.world.nodes[seen.name]);
            !OperatorCordoned(before) && OperatorCordoned(after) && !after.unschedulable
            <==> Cordons(why) && seen.unschedulable && !before.unschedulable
  {
    hide Disturbs, Covered, Copied, Latched, DetectNodeDrift, Uncordoned;
    CopyIsCurrent(r.before, seen);
    AlwaysInv(r.before);
    assert NodeInv(r.before.world, seen.name);
    PatchCarriesMarks(seen, put, r.before.world.nodes[seen.name]);
  }

  /** For one, by either write: read while cordoned by somebody else, uncordoned, then patched. */
  lemma StaleMark()
    ensures var owned := Node("n", map[ManagedBy := "p"], map[], true, false, []);
            var node := MergePatch(owned, CordonedNode(owned), owned.(unschedulable := false));
            OperatorCordoned(node) && !node.unschedulable
    ensures var free := Node("n", map[], map[], true, false, []);
            var node := MergePatch(free, Adopted(free, "p", "", true), free.(unschedulable := false));
            OperatorCordoned(node) && !node.unschedulable
  {
    var owned := Node("n", map[ManagedBy := "p"], map[], true, false, []);
    var free := Node("n", map[], map[], true, false, []);
    PatchCarriesMarks(owned, CordonedNode(owned), owned.(unschedulable := false));
    PatchCarriesMarks(free, Adopted(free, "p", "", true), free.(unschedulable := false));
  }
}
