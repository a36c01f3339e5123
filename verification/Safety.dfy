/**
 Safety over whole runs.
 */
module Safety {
  import opened Api
  import opened DrainFilters
  import opened Drift
  import opened StatusUpdate
  import opened DrainFold
  import opened NodeWrites
  import opened Protocol

  /* ----- The inductive invariant ----- */

  /** An owner is a live plan with the finalizer; the operator's cordon mark sits only on
      owned nodes. */
  ghost predicate NodeInv(w: World, n: string)
    requires n in w.nodes
  {
    var node := w.nodes[n];
    && node.name == n
    && (ManagedBy in node.annotations ==> Owner(node) != "" && Active(w, Owner(node)))
    && (Cordoned in node.annotations ==> node.annotations[Cordoned] == "true" && ManagedBy in node.annotations)
  }

  ghost predicate StatusInv(s: Status) {
    && DistinctNames(s.nodes)
    && NoStoredCompletion(s.nodes)
    && (forall i :: 0 <= i < |s.nodes| ==> SoundEntry(s.nodes[i]))
    && (DrainTimedOut in s.conditions ==> s.drainStartedAt.Some?)
    && 0 <= s.summary.progress <= 100
  }

  ghost predicate PlanInv(w: World, p: string)
    requires p in w.plans
  {
    && w.plans[p].name == p && p != ""
    && (w.plans[p].deleting ==> w.plans[p].finalizer)
    && (!w.plans[p].finalizer ==> w.plans[p].status == EMPTY_STATUS)
    && StatusInv(w.plans[p].status)
  }

  ghost predicate PodsInv(w: World) {
    && w.pods.Keys <= w.usedIds
    && (forall id :: id in w.pods ==> w.pods[id].id == id)
  }

  ghost predicate Inv(w: World) {
    && (forall n :: n in w.nodes ==> NodeInv(w, n))
    && (forall p :: p in w.plans ==> PlanInv(w, p))
    && PodsInv(w)
  }

  lemma InitialInv(w: World)
    requires Initial(w)
    ensures Inv(w)
  {
  }

  /** What is left of a copy: the operator's marks are those on the server. */
  ghost predicate View(w: World, seen: Node) {
    seen.name in w.nodes ==> SameMarks(seen, w.nodes[seen.name])
  }

  lemma {:induction false} CopyIsCurrent(r: Run, seen: Node)
    requires Copied(r, seen)
    ensures View(r.world, seen)
  {
    if !(seen.name in r.world.nodes && r.world.nodes[seen.name] == seen) {
      CopyIsCurrent(r.before, seen);
    }
  }

  lemma EnvironmentKeepsInv(w: World, w': World)
    requires Inv(w) && Disturbs(w, w')
    ensures Inv(w')
  {
    forall n | n in w'.nodes ensures NodeInv(w', n) {
      if !Unmarked(w'.nodes[n]) {
        assert NodeInv(w, n);
      }
    }
    forall p | p in w'.plans ensures PlanInv(w', p) {
      if p in w.plans {
        assert PlanInv(w, p);
      }
    }
  }

  lemma PatchKeepsInv(r: Run, p: string, spec: Spec, why: Write, seen: Node, put: Node)
    requires Inv(r.world) && Active(r.world, p) && seen.name in r.world.nodes && View(r.world, seen)
    requires Allowed(r, Seen(r.world, p, spec), why, seen, put)
    ensures Inv(Patched(r.world, seen, put))
  {
    var w := r.world;
    var w' := Patched(w, seen, put);
    var n := seen.name;
    assert PlanInv(w, p) && NodeInv(w, n);
    PatchCarriesMarks(seen, put, w.nodes[n]);
    forall m | m in w'.nodes ensures NodeInv(w', m) {
      assert NodeInv(w, m);
    }
    forall q | q in w'.plans ensures PlanInv(w', q) {
      assert PlanInv(w, q);
    }
  }

  lemma StatusKeepsInv(w: World, p: string, status: Status)
    requires Inv(w) && Active(w, p) && StatusInv(status)
    ensures Inv(WithStatus(w, p, status))
  {
    var w' := WithStatus(w, p, status);
    forall m | m in w'.nodes ensures NodeInv(w', m) {
      assert NodeInv(w, m);
    }
    forall q | q in w'.plans ensures PlanInv(w', q) {
      assert PlanInv(w, q);
    }
  }

  lemma UpdatedStatusInv(plan: Plan, all: seq<Node>, conflicting: nat, snapshot: Option<seq<string>>, at: Time)
    requires StatusInv(plan.status) && DistinctNodes(all)
    ensures StatusInv(UpdatedStatus(plan, all, conflicting, snapshot, at))
  {
    var entries := NextEntries(plan, all, at);
    forall i | 0 <= i < |entries|
      ensures SoundEntry(entries[i]) && entries[i].reason != MaintenanceComplete
    {
      LatchCarried(plan, all[i], at);
      ExistingIsLookup(plan.status.nodes, all[i].name);
      var k := LookupIndex(plan.status.nodes, all[i].name);
    }
    AverageProgress(entries);
    assert DrainTimedOut in UpdatedConditions(plan, entries, conflicting, at)
           <==> DrainTimedOut in plan.status.conditions;
  }

  lemma AppliedNodes(plan: Plan, results: seq<DrainResult>, at: Time)
    ensures AppliedDrain(plan, results, at).0.nodes == FoldResults(plan.status.nodes, results, at)
    ensures AppliedDrain(plan, results, at).0.drainStartedAt == StartedAt(plan.status, results, at)
    ensures AppliedDrain(plan, results, at).0.resolvedNodes == plan.status.resolvedNodes
    ensures AppliedDrain(plan, results, at).0.snapshotTaken == plan.status.snapshotTaken
  {
  }

  lemma AppliedDrainInv(plan: Plan, results: seq<DrainResult>, at: Time)
    requires StatusInv(plan.status) && DistinctResults(results)
    requires forall i :: 0 <= i < |results| ==> SoundOutcome(results[i].outcome)
    ensures StatusInv(AppliedDrain(plan, results, at).0)
  {
    var entries := FoldResults(plan.status.nodes, results, at);
    AppliedNodes(plan, results, at);
    TimeoutLatch(plan, results, at);
    forall i | 0 <= i < |entries|
      ensures SoundEntry(entries[i]) && entries[i].reason != MaintenanceComplete
    {
      var before := plan.status.nodes[i];
      LookupFinds(plan.status.nodes, i);
      LookupFinds(entries, i);
      LookupAfterFold(plan.status.nodes, results, at, before.name);
      var k := ResultIndex(results, before.name);
      if k >= 0 {
        EntryStaysSound(before, results[k], at);
        ReadyAfter(before, results[k], at);
      }
    }
    AverageProgress(entries);
  }

  lemma EvictionKeepsInv(w: World, id: PodId, w': World)
    requires Inv(w) && Evicted(w, id, w')
    ensures Inv(w')
  {
    forall m | m in w'.nodes ensures NodeInv(w', m) {
      assert NodeInv(w, m);
    }
    forall q | q in w'.plans ensures PlanInv(w', q) {
      assert PlanInv(w, q);
    }
  }

  lemma FinalizersKeepInv(w: World, p: string)
    requires Inv(w) && p in w.plans
    ensures Inv(w.(plans := w.plans[p := w.plans[p].(finalizer := true)]))
    ensures NoneOwnedBy(w, p) ==> Inv(w.(plans := w.plans - {p}))
  {
    assert PlanInv(w, p);
    forall m | m in w.nodes ensures NodeInv(w, m) {
    }
    forall q | q in w.plans ensures PlanInv(w, q) {
    }
  }

  lemma StepKeepsInv(r: Run, step: Step, w': World)
    requires Inv(r.world) && Does(r, step, w')
    ensures Inv(w')
  {
    var w := r.world;
    match step {
      case Environment => EnvironmentKeepsInv(w, w');
      case AddFinalizer(p) => FinalizersKeepInv(w, p);
      case PatchNode(p, spec, why, seen, put) =>
        CopyIsCurrent(r, seen);
        PatchKeepsInv(r, p, spec, why, seen, put);
      case PublishStatus(p, spec, all, conflicting, snapshot, at) =>
        assert PlanInv(w, p);
        UpdatedStatusInv(Seen(w, p, spec), all, conflicting, snapshot, at);
        StatusKeepsInv(w, p, UpdatedStatus(Seen(w, p, spec), all, conflicting, snapshot, at));
      case EvictPod(_, _, _, id, _, _) => EvictionKeepsInv(w, id, w');
      case Reply(_, _, _, _, _, _) =>
      case PublishDrain(p, spec, reports, at) =>
        assert PlanInv(w, p);
        forall i | 0 <= i < |reports| ensures SoundOutcome(ResultsOf(reports)[i].outcome) {
          assert SoundReport(r, Seen(w, p, spec), reports[i]);
        }
        AppliedDrainInv(Seen(w, p, spec), ResultsOf(reports), at);
        StatusKeepsInv(w, p, AppliedDrain(Seen(w, p, spec), ResultsOf(reports), at).0);
      case RemoveFinalizer(p) => FinalizersKeepInv(w, p);
    }
  }

  lemma {:induction false} AlwaysInv(r: Run)
    requires Reachable(r)
    ensures Inv(r.world)
  {
    if r.Begin? {
      InitialInv(r.world);
    } else {
      AlwaysInv(r.before);
      StepKeepsInv(r.before, r.step, r.world);
    }
  }

  ghost predicate StatusMoved(w: World, w': World, p: string) {
    || (p in w.plans && p in w'.plans && w'.plans[p].status == w.plans[p].status
        && (w.plans[p].finalizer ==> w'.plans[p].finalizer))
    || (!Active(w, p) && p in w'.plans && w'.plans[p].status == EMPTY_STATUS)
  }

  lemma EnvironmentMovesPlan(w: World, w': World, p: string)
    requires Disturbs(w, w') && p in w'.plans
    ensures StatusMoved(w, w', p)
  {
    hide NodesMove, PodsMove;
  }

  /** A plan's status changes by its own two kinds of status write, or starts out empty. */
  lemma StatusMoves(r: Run, p: string)
    requires Legal(r) && r.Then? && p in r.world.plans
    requires !(r.step.PublishStatus? && r.step.plan == p) && !(r.step.PublishDrain? && r.step.plan == p)
    ensures StatusMoved(r.before.world, r.world, p)
  {
    hide Disturbs, PlansMove, Copied, Allowed, SnapshotRule, SoundReport, MergePatch, PodKept, DrainTarget,
         UpdatedStatus, AppliedDrain;
    if r.step.Environment? {
      EnvironmentMovesPlan(r.before.world, r.world, p);
    }
  }

  /** A finalizer goes only with the plan. */
  lemma FinalizerStays(r: Run, p: string)
    requires Legal(r) && r.Then? && Active(r.before.world, p) && r.step != RemoveFinalizer(p)
    ensures Active(r.world, p)
  {
    hide NodesMove, PodsMove, Copied, Allowed, SnapshotRule, SoundReport, MergePatch, PodKept, DrainTarget, UpdatedStatus,
         AppliedDrain;
  }

  /** Pod ids are used once. */
  lemma PodsComeNew(r: Run, id: PodId)
    requires Legal(r) && r.Then?
    ensures id in r.before.world.usedIds ==> id in r.world.usedIds
    ensures id in r.world.pods && id !in r.before.world.pods ==> id !in r.before.world.usedIds
  {
    hide NodesMove, PlansMove, Copied, Allowed, SnapshotRule, SoundReport;
  }

  /** Whatever happens, every stored figure is a possible one: progress and its average are
      percentages, no more pods are blocked than there are, and one entry is kept per node. */
  lemma CountersStaySound(r: Run, p: string)
    requires Reachable(r) && p in r.world.plans
    ensures var s := r.world.plans[p].status;
            && DistinctNames(s.nodes)
            && 0 <= s.summary.progress <= 100
            && (forall i :: 0 <= i < |s.nodes| ==>
                  && 0 <= s.nodes[i].progress <= 100
                  && 0 <= s.nodes[i].blockedPods <= s.nodes[i].totalPods
                  && s.nodes[i].initialPods >= 0 && s.nodes[i].evictedTotal >= 0)
  {
    AlwaysInv(r);
    assert PlanInv(r.world, p);
  }

  /* ----- Ownership ----- */

  /** Every managed-by annotation names a plan that exists and still carries its finalizer. */
  lemma NoOrphanedNodes(r: Run, n: string)
    requires Reachable(r) && n in r.world.nodes && ManagedBy in r.world.nodes[n].annotations
    ensures Active(r.world, Owner(r.world.nodes[n]))
  {
    AlwaysInv(r);
    assert NodeInv(r.world, n);
  }

  /** A plan with a finalizer disappears only by the operator's own last write, when no node
      names it. */
  lemma PlanLeavesNothingBehind(r: Run, p: string)
    requires Reachable(r) && r.Then?
    requires Active(r.before.world, p) && p !in r.world.plans
    ensures r.step == RemoveFinalizer(p) && r.before.world.plans[p].deleting
    ensures NoneOwnedBy(r.world, p)
  {
    hide NodesMove, PodsMove, Copied, Allowed, SnapshotRule, SoundReport, UpdatedStatus, AppliedDrain, MergePatch, Inv;
    AlwaysInv(r.before);
  }

  /** The plan on whose behalf a step writes. */
  function Writer(step: Step): string {
    match step
    case Environment => ""
    case AddFinalizer(p) => p
    case PatchNode(p, _, _, _, _) => p
    case PublishStatus(p, _, _, _, _, _) => p
    case EvictPod(p, _, _, _, _, _) => p
    case Reply(p, _, _, _, _, _) => p
    case PublishDrain(p, _, _, _) => p
    case RemoveFinalizer(p) => p
  }

  /** What one write of plan p may do to node n. */
  ghost predicate Isolated(w: World, w': World, p: string, n: string)
    requires n in w.nodes
  {
    var before := Owner(w.nodes[n]);
    && n in w'.nodes
    && (before != Owner(w'.nodes[n]) ==> {before, Owner(w'.nodes[n])} == {"", p})
    && (before != "" && before != p ==>
          && w'.nodes[n] == w.nodes[n]
          && (forall id :: id in w.pods && id.node == n ==> id in w'.pods && w'.pods[id] == w.pods[id]))
    && (forall q :: q in w.plans && q != p ==> q in w'.plans && w'.plans[q] == w.plans[q])
  }

  lemma PatchIsolation(r: Run, p: string, spec: Spec, why: Write, seen: Node, put: Node, n: string)
    requires Inv(r.world) && Active(r.world, p) && seen.name in r.world.nodes && View(r.world, seen)
    requires Allowed(r, Seen(r.world, p, spec), why, seen, put) && n in r.world.nodes
    ensures Isolated(r.world, Patched(r.world, seen, put), p, n)
  {
    var w := r.world;
    assert PlanInv(w, p) && NodeInv(w, seen.name);
    PatchCarriesMarks(seen, put, w.nodes[seen.name]);
  }

  lemma EvictionIsolation(w: World, p: string, seen: Node, id: PodId, w': World, n: string)
    requires Inv(w) && Active(w, p) && View(w, seen) && Owner(seen) in {"", p}
    requires id.node == seen.name && Evicted(w, id, w') && n in w.nodes
    ensures Isolated(w, w', p, n)
  {
    assert NodeInv(w, n);
  }

  lemma NameOfPlan(w: World, p: string)
    requires Inv(w) && p in w.plans
    ensures w.plans[p].name == p
  {
    assert PlanInv(w, p);
  }

  lemma ElsewhereIsolation(w: World, w': World, p: string, n: string)
    requires w'.nodes == w.nodes && w'.pods == w.pods && n in w.nodes
    requires forall q :: q in w.plans && q != p ==> q in w'.plans && w'.plans[q] == w.plans[q]
    ensures Isolated(w, w', p, n)
  {
  }

  /** A plan's writes leave alone every node another plan owns, its pods, and every other
      plan; an owner moves only between the writing plan and nobody. */
  lemma OwnershipIsolation(r: Run, n: string)
    requires Reachable(r) && r.Then? && !r.step.Environment? && n in r.before.world.nodes
    ensures Isolated(r.before.world, r.world, Writer(r.step), n)
  {
    hide SnapshotRule, SoundReport, Allowed, Copied, InHand, View, Patched, UpdatedStatus, AppliedDrain, Isolated, Evicted, Inv,
         Disturbs;
    var w := r.before.world;
    AlwaysInv(r.before);
    match r.step {
      case PatchNode(p, spec, why, seen, put) =>
        CopyIsCurrent(r.before, seen);
        PatchIsolation(r.before, p, spec, why, seen, put, n);
      case Reply(p, _, _, _, _, _) => ElsewhereIsolation(w, r.world, p, n);
      case EvictPod(p, _, seen, id, _, _) =>
        CopyIsCurrent(r.before, seen);
        NameOfPlan(w, p);
        EvictionIsolation(w, p, seen, id, r.world, n);
      case AddFinalizer(p) => ElsewhereIsolation(w, r.world, p, n);
      case RemoveFinalizer(p) => ElsewhereIsolation(w, r.world, p, n);
      case PublishStatus(p, _, _, _, _, _) => ElsewhereIsolation(w, r.world, p, n);
      case PublishDrain(p, _, _, _) => ElsewhereIsolation(w, r.world, p, n);
      case Environment =>
    }
  }

  /* ----- Cooperative release ----- */

  /** Between r1 and r2 plan p is not finalized away, and each of its status updates
      resolves node n. */
  ghost predicate StaysResolved(r1: Run, r2: Run, p: string, n: string) {
    r1 == r2 ||
    (r2.Then? && StaysResolved(r1, r2.before, p, n)
     && r2.step != RemoveFinalizer(p)
     && (r2.step.PublishStatus? && r2.step.plan == p ==>
           exists i :: 0 <= i < |r2.step.all| && r2.step.all[i].name == n))
  }

  /** Recorded as drifted or ready, and not owned by p. */
  ghost predicate Barred(w: World, p: string, n: string) {
    && Active(w, p)
    && Latched(w.plans[p].status.nodes, n)
    && (n in w.nodes ==> Owner(w.nodes[n]) != p)
  }

  /** The spec with which plan p made its last status update. */
  function UpdateSpec(r: Run, p: string): Option<Spec> {
    if r.Begin? then None
    else if Renews(r.step, p) then (if r.step.PublishStatus? then Some(r.step.spec) else None)
    else UpdateSpec(r.before, p)
  }

  /** What the status says of a copy that the last update resolved. */
  ghost predicate EntryTells(w: World, p: string, seen: Node, spec: Spec)
    requires p in w.plans
  {
    var entries := w.plans[p].status.nodes;
    && Lookup(entries, seen.name).Some?
    && Lookup(entries, seen.name).value.cordoned == seen.unschedulable
    && (Releases(DetectNodeDrift(seen, Seen(w, p, spec))) ==> Latched(entries, seen.name))
  }

  lemma UpdateTells(w: World, p: string, spec: Spec, all: seq<Node>, conflicting: nat, snapshot: Option<seq<string>>,
                    at: Time, i: nat)
    requires p in w.plans && PlanInv(w, p) && DistinctNodes(all) && i < |all|
    ensures EntryTells(WithStatus(w, p, UpdatedStatus(Seen(w, p, spec), all, conflicting, snapshot, at)), p, all[i], spec)
  {
    var plan := Seen(w, p, spec);
    EntryFor(plan, all, at, i);
    if Releases(DetectNodeDrift(all[i], plan)) {
      ReleaseIsRecorded(plan, all[i], at);
    }
  }

  lemma DrainTells(w: World, p: string, spec: Spec, results: seq<DrainResult>, at: Time, seen: Node,
                  earlier: Spec)
    requires p in w.plans && EntryTells(w, p, seen, earlier) && DistinctResults(results)
    ensures EntryTells(WithStatus(w, p, AppliedDrain(Seen(w, p, spec), results, at).0), p, seen, earlier)
  {
    var w' := WithStatus(w, p, AppliedDrain(Seen(w, p, spec), results, at).0);
    ReadyOnlyWhenDrained(Seen(w, p, spec), results, at, seen.name);
    ReleasesIgnoresStatus(seen, Seen(w, p, earlier), Seen(w', p, earlier));
    hide AppliedDrain, DetectNodeDrift;
  }

  /** Whatever happens between a status update and the end of its pass, the entry of a copy it
      resolved still tells what the update saw. */
  lemma {:induction false} CoveredIsTold(r: Run, p: string, seen: Node)
    requires Reachable(r) && Covered(r, p, seen)
    ensures Active(r.world, p) && UpdateSpec(r, p).Some?
    ensures EntryTells(r.world, p, seen, UpdateSpec(r, p).value)
  {
    hide Disturbs, Copied, Allowed, SnapshotRule, SoundReport, UpdatedStatus, AppliedDrain, Latched, DetectNodeDrift;
    AlwaysInv(r.before);
    var w := r.before.world;
    if Renews(r.step, p) {
      var i :| 0 <= i < |r.step.all| && r.step.all[i] == seen;
      assert PlanInv(w, p);
      UpdateTells(w, p, r.step.spec, r.step.all, r.step.conflicting, r.step.snapshot, r.step.at, i);
    } else {
      CoveredIsTold(r.before, p, seen);
      if r.step.PublishDrain? && r.step.plan == p {
        DrainTells(w, p, r.step.spec, ResultsOf(r.step.reports), r.step.at, seen, UpdateSpec(r, p).value);
      } else {
        FinalizerStays(r, p);
        StatusMoves(r, p);
        AlwaysInv(r);
        NameOfPlan(w, p);
        NameOfPlan(r.world, p);
        ReleasesIgnoresStatus(seen, Seen(w, p, UpdateSpec(r, p).value), Seen(r.world, p, UpdateSpec(r, p).value));
      }
    }
  }

  /** While its pass lasts, a node that the status update resolved has its entry. */
  lemma {:induction false} ResolvedHasEntry(r: Run, p: string, n: string)
    requires Reachable(r) && Resolved(r, p, n)
    ensures Active(r.world, p) && Lookup(r.world.plans[p].status.nodes, n).Some?
  {
    hide Disturbs, Copied, Allowed, SnapshotRule, SoundReport, UpdatedConditions, AppliedDrain;
    var w := r.before.world;
    if Renews(r.step, p) {
      var i :| 0 <= i < |r.step.all| && r.step.all[i].name == n;
      EntryFor(Seen(w, p, r.step.spec), r.step.all, r.step.at, i);
    } else {
      ResolvedHasEntry(r.before, p, n);
      if r.step.PublishDrain? && r.step.plan == p {
        ReadyOnlyWhenDrained(Seen(w, p, r.step.spec), ResultsOf(r.step.reports), r.step.at, n);
      } else {
        FinalizerStays(r, p);
        StatusMoves(r, p);
      }
    }
  }

  /** A release for drift leaves the node barred, its verdict persisted before: the order of a
      pass is crash-safe. The one exception is a pass whose status update still worked with a
      spec that did not cordon. */
  lemma ReleaseAfterRecord(r: Run, p: string, spec: Spec, seen: Node, put: Node)
    requires Reachable(r) && r.Then? && r.step == PatchNode(p, spec, ReleasingDrifted, seen, put)
    ensures UpdateSpec(r.before, p).Some?
    ensures CordonEnabled(UpdateSpec(r.before, p).value) ==>
      Latched(r.before.world.plans[p].status.nodes, seen.name) && Barred(r.world, p, seen.name)
  {
    AlwaysInv(r.before);
    assert PlanInv(r.before.world, p);
    CoveredIsTold(r.before, p, seen);
    CopyIsCurrent(r.before, seen);
    PatchCarriesMarks(seen, put, r.before.world.nodes[seen.name]);
  }

  lemma BarredPatch(r: Run, q: string, spec: Spec, why: Write, seen: Node, put: Node, p: string, n: string)
    requires Inv(r.world) && Active(r.world, q) && seen.name in r.world.nodes && View(r.world, seen)
    requires Allowed(r, Seen(r.world, q, spec), why, seen, put) && Barred(r.world, p, n)
    ensures Barred(Patched(r.world, seen, put), p, n)
  {
    var w := r.world;
    assert PlanInv(w, p) && PlanInv(w, q);
    PatchCarriesMarks(seen, put, w.nodes[seen.name]);
  }

  lemma BarredPublish(plan: Plan, all: seq<Node>, conflicting: nat, snapshot: Option<seq<string>>, at: Time, n: string)
    requires StatusInv(plan.status) && DistinctNodes(all) && Latched(plan.status.nodes, n)
    requires exists i :: 0 <= i < |all| && all[i].name == n
    ensures Latched(UpdatedStatus(plan, all, conflicting, snapshot, at).nodes, n)
  {
    var i :| 0 <= i < |all| && all[i].name == n;
    EntryFor(plan, all, at, i);
    LatchCarried(plan, all[i], at);
  }

  lemma BarredDrain(plan: Plan, results: seq<DrainResult>, at: Time, n: string)
    requires DistinctResults(results) && Latched(plan.status.nodes, n)
    ensures Latched(AppliedDrain(plan, results, at).0.nodes, n)
  {
    ReadyOnlyWhenDrained(plan, results, at, n);
  }

  lemma BarredEnvironment(w: World, w': World, p: string, n: string)
    requires Disturbs(w, w') && Barred(w, p, n) && p != ""
    ensures Barred(w', p, n)
  {
    hide PodsMove;
  }

  lemma BarredStep(r: Run, p: string, n: string)
    requires Reachable(r) && r.Then? && Barred(r.before.world, p, n)
    requires r.step != RemoveFinalizer(p)
    requires r.step.PublishStatus? && r.step.plan == p ==>
               exists i :: 0 <= i < |r.step.all| && r.step.all[i].name == n
    ensures Barred(r.world, p, n)
  {
    hide Disturbs, SnapshotRule, SoundReport, Allowed, Copied, Patched, UpdatedStatus, AppliedDrain, DrainTarget;
    var w := r.before.world;
    AlwaysInv(r.before);
    assert PlanInv(w, p);
    match r.step {
      case Environment => BarredEnvironment(w, r.world, p, n);
      case PatchNode(q, spec, why, seen, put) =>
        CopyIsCurrent(r.before, seen);
        BarredPatch(r.before, q, spec, why, seen, put, p, n);
      case PublishStatus(q, spec, all, conflicting, snapshot, at) =>
        if q == p {
          BarredPublish(Seen(w, p, spec), all, conflicting, snapshot, at, n);
        }
      case PublishDrain(q, spec, reports, at) =>
        if q == p {
          BarredDrain(Seen(w, p, spec), ResultsOf(reports), at, n);
        }
      case _ =>
    }
  }

  /** A request for a pod, whatever the answer. */
  predicate Asks(step: Step, p: string) {
    (step.EvictPod? || step.Reply?) && step.plan == p
  }

  /** The last step of r is one by which plan p adopts, cordons, uncordons, releases or
      drains node n. */
  ghost predicate Touches(r: Run, p: string, n: string) {
    && r.Then?
    && ((r.step.PatchNode? && r.step.plan == p && r.step.seen.name == n)
        || (Asks(r.step, p) && r.step.pod.node == n && n in r.before.world.nodes))
  }

  ghost predicate HandsOff(r1: Run, r2: Run, p: string, n: string) {
    r1 == r2 || (r2.Then? && HandsOff(r1, r2.before, p, n) && !Touches(r2, p, n))
  }

  lemma BarredIsUntouched(r: Run, p: string, n: string)
    requires Reachable(r) && r.Then? && Barred(r.before.world, p, n) && !ReleasedThisPass(r.before, p, n)
    ensures !Touches(r, p, n)
    ensures !ReleasedThisPass(r, p, n)
  {
    hide Disturbs, Evicted, SnapshotRule, SoundReport, Patched, UpdatedStatus, AppliedDrain, DetectNodeDrift;
    var w := r.before.world;
    AlwaysInv(r.before);
    assert PlanInv(w, p);
    match r.step {
      case PatchNode(q, spec, why, seen, put) =>
        if q == p && seen.name == n {
          CopyIsCurrent(r.before, seen);
          BarredCopy(w, p, n, seen);
        }
      case EvictPod(q, _, seen, _, _, _) =>
        if q == p && seen.name == n && n in w.nodes {
          CopyIsCurrent(r.before, seen);
          BarredCopy(w, p, n, seen);
        }
      case Reply(q, _, seen, _, _, _) =>
        if q == p && seen.name == n && n in w.nodes {
          CopyIsCurrent(r.before, seen);
          BarredCopy(w, p, n, seen);
        }
      case _ =>
    }
    hide Inv, Copied, Barred;
  }

  lemma BarredCopy(w: World, p: string, n: string, seen: Node)
    requires Barred(w, p, n) && n in w.nodes && seen.name == n && View(w, seen)
    ensures Owner(seen) != p
  {
  }

  /** Once barred, a node stays barred for as long as the plan resolves it, whatever aborts,
      users or other plans do in between; and from the next pass on the plan never adopts,
      cordons, releases or drains it. */
  lemma {:induction false} ReleaseIsPermanent(r1: Run, r2: Run, p: string, n: string)
    requires Reachable(r2) && StaysResolved(r1, r2, p, n) && Barred(r1.world, p, n)
    ensures Barred(r2.world, p, n)
    ensures !ReleasedThisPass(r1, p, n) ==> HandsOff(r1, r2, p, n) && !ReleasedThisPass(r2, p, n)
  {
    if r1 != r2 {
      ReleaseIsPermanent(r1, r2.before, p, n);
      BarredStep(r2, p, n);
      if !ReleasedThisPass(r1, p, n) {
        BarredIsUntouched(r2, p, n);
      }
    }
  }

  /** Within the releasing pass the node can still be drained, exactly when the answer to the
      release patch shows that a user cordoned the node again: the drain step tests only
      the schedulability of its copy. */
  lemma ReleasedCopyStillDrainsIff(plan: Plan, seen: Node, server: Node)
    requires Releases(DetectNodeDrift(seen, plan)) && SameMarks(seen, server)
    ensures var answer := MergePatch(seen, ReleasedNode(seen), server);
            && Owner(answer) == ""
            && (answer.unschedulable && IsNodeReady(answer) <==> server.unschedulable && IsNodeReady(server))
            && !seen.unschedulable
  {
    PatchCarriesMarks(seen, ReleasedNode(seen), server);
  }

  /* ----- Interleaved passes ----- */

  /** The object a pass of plan p puts when it writes a node. */
  function Put(why: Write, p: string, reason: string, seen: Node): Node {
    match why
    case Adopting(cordon) => Adopted(seen, p, reason, cordon)
    case ReleasingDrifted => ReleasedNode(seen)
    case Cordoning => CordonedNode(seen)
    case Uncordoning => UncordonedNode(seen)
    case Releasing => ReleasedNode(seen)
  }

  /** Passes of two plans that interleave are outside the runs of the protocol, and this is why:
      when another plan has adopted the node since it was read, the patch leaves it with that
      plan exactly if it neither adopts nor releases. */
  lemma TakenOverIff(why: Write, p: string, reason: string, seen: Node, server: Node)
    requires p != "" && Owner(server) != "" && Owner(server) != p
    requires if why.Adopting? then ManagedBy !in seen.annotations else Owner(seen) == p
    ensures var after := MergePatch(seen, Put(why, p, reason, seen), server);
            && (Owner(after) == Owner(server) <==> why.Cordoning? || why.Uncordoning?)
            && (Owner(after) != Owner(server) ==> Owner(after) == if why.Adopting? then p else "")
  {
    assert Owner(seen) == p ==> ManagedBy in seen.annotations;
  }

  /** For one: two plans read a free node and both adopt it. The last writer has it. */
  lemma TakenOver()
    ensures var free := Node("n", map[], map[], false, false, []);
            var first := MergePatch(free, Adopted(free, "q", "", true), free);
            Owner(first) == "q" && Owner(MergePatch(free, Adopted(free, "p", "", true), first)) == "p"
  {
    var free := Node("n", map[], map[], false, false, []);
    var first := MergePatch(free, Adopted(free, "q", "", true), free);
    PatchCarriesMarks(free, Adopted(free, "q", "", true), free);
    assert SameAt(first.annotations, Adopted(free, "q", "", true).annotations, ManagedBy);
    TakenOverIff(Adopting(true), "p", "", free, first);
  }

  /* ----- Readiness ----- */

  function EntryReady(w: World, p: string, n: string): bool {
    p in w.plans && NodeCompletedMaintenance(w.plans[p].status.nodes, n)
  }

  /** The last step of r switches ready on. */
  predicate TurnsReady(r: Run, p: string, n: string) {
    r.Then? && p in r.before.world.plans && !EntryReady(r.before.world, p, n) && EntryReady(r.world, p, n)
  }

  /** Ready is switched on by one kind of write only: for a node that was owned, recorded as
      cordoned, seen cordoned and Ready, and fully drained, with all listed workload gone. */
  lemma NoFalseReady(r: Run, p: string, n: string)
    requires Reachable(r)
    ensures TurnsReady(r, p, n) ==>
      && r.step.PublishDrain? && r.step.plan == p
      && exists i :: 0 <= i < |r.step.reports| && ReadyReport(r.before, p, r.step.spec, r.step.reports[i], n)
  {
    hide Disturbs, SnapshotRule, Evicted, Allowed, Accounts;
    if TurnsReady(r, p, n) {
      var w := r.before.world;
      AlwaysInv(r.before);
      assert PlanInv(w, p);
      if !(r.step.PublishStatus? && r.step.plan == p) && !(r.step.PublishDrain? && r.step.plan == p) {
        StatusMoves(r, p);
      }
      match r.step {
        case PublishStatus(q, spec, all, conflicting, snapshot, at) =>
          if q == p {
            UpdateKeepsReady(Seen(w, p, spec), all, conflicting, snapshot, at, n);
          }
        case PublishDrain(q, spec, reports, at) =>
          if q == p {
            FoldTurnsReady(r, p, n);
          }
        case _ =>
      }
    }
  }

  lemma UpdateKeepsReady(plan: Plan, all: seq<Node>, conflicting: nat, snapshot: Option<seq<string>>, at: Time, n: string)
    requires StatusInv(plan.status) && DistinctNodes(all)
    ensures NodeCompletedMaintenance(UpdatedStatus(plan, all, conflicting, snapshot, at).nodes, n)
            ==> NodeCompletedMaintenance(plan.status.nodes, n)
  {
    if i :| 0 <= i < |all| && all[i].name == n {
      EntryFor(plan, all, at, i);
      LatchCarried(plan, all[i], at);
    } else {
      NoEntryFor(plan, all, at, n);
    }
  }

  /** The entry of a node released for drift in this pass does not record it as cordoned. */
  lemma {:induction false} ReleasedEntry(r: Run, p: string, n: string)
    requires Reachable(r) && ReleasedThisPass(r, p, n)
    ensures Active(r.world, p) && Lookup(r.world.plans[p].status.nodes, n).Some?
    ensures !Lookup(r.world.plans[p].status.nodes, n).value.cordoned
  {
    hide Disturbs, Copied, SnapshotRule, SoundReport, UpdatedStatus, AppliedDrain, Latched;
    var w := r.before.world;
    if r.step.PatchNode? && r.step.plan == p && r.step.why == ReleasingDrifted && r.step.seen.name == n {
      AlwaysInv(r.before);
      assert PlanInv(w, p);
      CoveredIsTold(r.before, p, r.step.seen);
    } else {
      ReleasedEntry(r.before, p, n);
      if r.step.PublishDrain? && r.step.plan == p {
        ReadyOnlyWhenDrained(Seen(w, p, r.step.spec), ResultsOf(r.step.reports), r.step.at, n);
      } else {
        FinalizerStays(r, p);
        StatusMoves(r, p);
      }
    }
  }

  lemma FoldTurnsReady(r: Run, p: string, n: string)
    requires Reachable(r) && TurnsReady(r, p, n) && r.step.PublishDrain? && r.step.plan == p
    ensures exists i :: 0 <= i < |r.step.reports| && ReadyReport(r.before, p, r.step.spec, r.step.reports[i], n)
  {
    hide Disturbs, Copied, SnapshotRule, UpdatedStatus, AppliedDrain, Latched, Inv;
    var plan, results := Seen(r.before.world, p, r.step.spec), ResultsOf(r.step.reports);
    AlwaysInv(r.before);
    NameOfPlan(r.before.world, p);
    ReadyOnlyWhenDrained(plan, results, r.step.at, n);
    var i :| 0 <= i < |results| && results[i].name == n && FullyDrained(results[i]);
    assert SoundReport(r.before, plan, r.step.reports[i]);
    if ReleasedThisPass(r.before, p, n) {
      ReleasedEntry(r.before, p, n);
    }
    assert ReadyReport(r.before, p, r.step.spec, r.step.reports[i], n);
  }

  ghost predicate ReadyReport(r: Run, p: string, spec: Spec, report: Report, n: string) {
    && p in r.world.plans
    && report.result.name == n && report.seen.name == n
    && FullyDrained(report.result)
    && Owner(report.seen) == p && report.seen.unschedulable && IsNodeReady(report.seen)
    && Lookup(r.world.plans[p].status.nodes, n).Some?
    && Lookup(r.world.plans[p].status.nodes, n).value.cordoned
    && GetDrainConfig(spec).Some?
    && ListedWorkloadGone(r, report.listedAt, n, GetDrainConfig(spec).value)
  }

  /** From step k on, n is cordoned without interruption and gets no new workload. */
  ghost predicate KeptCordoned(r: Run, k: nat, n: string, cfg: DrainConfig) {
    Length(r) <= k ||
    (r.Then? && KeptCordoned(r.before, k, n, cfg)
     && n in r.world.nodes && r.world.nodes[n].unschedulable
     && (r.step.Environment? ==>
           forall id :: IsWorkload(r.world, id, n, cfg) ==> id in r.before.world.pods))
  }

  lemma {:induction false} WorkloadOnlyShrinks(r: Run, k: nat, n: string, cfg: DrainConfig, id: PodId)
    requires Reachable(r) && KeptCordoned(r, k, n, cfg) && k <= Length(r)
    requires IsWorkload(r.world, id, n, cfg)
    ensures IsWorkload(At(r, k), id, n, cfg)
  {
    if k < Length(r) {
      assert IsWorkload(r.before.world, id, n, cfg);
      WorkloadOnlyShrinks(r.before, k, n, cfg, id);
    }
  }

  /** A pod that has gone never comes back. */
  lemma {:induction false} GoneForGood(r1: Run, r2: Run, id: PodId)
    requires Reachable(r2) && Extends(r1, r2)
    requires id in r1.world.usedIds && id !in r1.world.pods
    ensures id in r2.world.usedIds && id !in r2.world.pods
  {
    hide Does;
    if r1 != r2 {
      GoneForGood(r1, r2.before, id);
      PodsComeNew(r2, id);
    }
  }

  lemma {:induction false} UsedSince(r: Run, k: nat, id: PodId)
    requires Reachable(r) && id in At(r, k).pods
    ensures id in r.world.usedIds
  {
    hide Does;
    AlwaysInv(r);
    if r.Then? && k < Length(r) {
      UsedSince(r.before, k, id);
      PodsComeNew(r, id);
    }
  }

  lemma {:induction false} AtExtended(r1: Run, r2: Run, k: nat)
    requires Extends(r1, r2) && k <= Length(r1)
    ensures At(r2, k) == At(r1, k) && Length(r1) <= Length(r2)
  {
    if r1 != r2 {
      AtExtended(r1, r2.before, k);
    }
  }

  lemma {:induction false} ExtendsReachable(r1: Run, r2: Run)
    requires Extends(r1, r2) && Reachable(r2)
    ensures Reachable(r1)
  {
    if r1 != r2 {
      ExtendsReachable(r1, r2.before);
    }
  }

  /** A node reported drained and kept cordoned since its pods were listed holds no workload,
      then or at any later time. */
  lemma DrainedStaysEmpty(r1: Run, r2: Run, report: Report, cfg: DrainConfig, id: PodId)
    requires Reachable(r2) && Extends(r1, r2)
    requires ListedWorkloadGone(r1, report.listedAt, report.result.name, cfg)
    requires KeptCordoned(r2, report.listedAt, report.result.name, cfg)
    ensures !IsWorkload(r2.world, id, report.result.name, cfg)
  {
    var k, n := report.listedAt, report.result.name;
    ExtendsReachable(r1, r2);
    AtExtended(r1, r2, k);
    if IsWorkload(r2.world, id, n, cfg) {
      WorkloadOnlyShrinks(r2, k, n, cfg, id);
      UsedSince(r1, k, id);
      GoneForGood(r1, r2, id);
      assert false;
    }
  }

  /** Once ready is switched on for a node that was kept cordoned since the listing behind it,
      without new workload, the node holds no workload from then on. */
  lemma ReadyNodeStaysEmpty(r1: Run, r2: Run, p: string, n: string, id: PodId)
    requires Reachable(r2) && Extends(r1, r2) && TurnsReady(r1, p, n)
    requires r1.step.PublishDrain? && GetDrainConfig(r1.step.spec).Some?
    requires forall i :: 0 <= i < |r1.step.reports| && r1.step.reports[i].result.name == n ==>
      KeptCordoned(r2, r1.step.reports[i].listedAt, n, GetDrainConfig(r1.step.spec).value)
    ensures !IsWorkload(r2.world, id, n, GetDrainConfig(r1.step.spec).value)
  {
    ExtendsReachable(r1, r2);
    NoFalseReady(r1, p, n);
    var i :| 0 <= i < |r1.step.reports| && ReadyReport(r1.before, p, r1.step.spec, r1.step.reports[i], n);
    ExtendsBefore(r1, r2);
    DrainedStaysEmpty(r1.before, r2, r1.step.reports[i], GetDrainConfig(r1.step.spec).value, id);
  }

  lemma {:induction false} ExtendsBefore(r1: Run, r2: Run)
    requires r1.Then? && Extends(r1, r2)
    ensures Extends(r1.before, r2)
  {
    if r1 == r2 {
      assert Extends(r1.before, r1.before);
    } else {
      ExtendsBefore(r1, r2.before);
    }
  }

  /* ----- Timeout and snapshot ----- */

  /** Plan p is not finalized away between r1 and r2. */
  ghost predicate Survives(r1: Run, r2: Run, p: string) {
    r1 == r2 || (r2.Then? && Survives(r1, r2.before, p) && r2.step != RemoveFinalizer(p))
  }

  ghost predicate LatchesKept(s1: Status, s2: Status) {
    && (s1.drainStartedAt.Some? ==> s2.drainStartedAt == s1.drainStartedAt)
    && (DrainTimedOut in s1.conditions ==> DrainTimedOut in s2.conditions)
    && (s1.snapshotTaken ==> s2.snapshotTaken && s2.resolvedNodes == s1.resolvedNodes)
  }

  lemma PublishKeepsLatches(plan: Plan, all: seq<Node>, conflicting: nat, snapshot: Option<seq<string>>, at: Time)
    requires SnapshotRule(plan, all, snapshot)
    ensures LatchesKept(plan.status, UpdatedStatus(plan, all, conflicting, snapshot, at))
  {
    var entries := NextEntries(plan, all, at);
    assert DrainTimedOut in UpdatedConditions(plan, entries, conflicting, at)
           <==> DrainTimedOut in plan.status.conditions;
  }

  lemma DrainKeepsLatches(plan: Plan, results: seq<DrainResult>, at: Time)
    ensures LatchesKept(plan.status, AppliedDrain(plan, results, at).0)
  {
    TimeoutLatch(plan, results, at);
    AppliedNodes(plan, results, at);
  }

  lemma StatusLatchStep(r: Run, p: string)
    requires Reachable(r) && r.Then? && r.step != RemoveFinalizer(p) && Active(r.before.world, p)
    ensures Active(r.world, p)
    ensures LatchesKept(r.before.world.plans[p].status, r.world.plans[p].status)
  {
    var w := r.before.world;
    match r.step {
      case PublishStatus(q, spec, all, conflicting, snapshot, at) =>
        PublishKeepsLatches(Seen(w, q, spec), all, conflicting, snapshot, at);
      case PublishDrain(q, spec, reports, at) =>
        DrainKeepsLatches(Seen(w, q, spec), ResultsOf(reports), at);
      case _ =>
    }
  }

  /** The drain start, the timeout verdict and the selector snapshot are set once. */
  lemma {:induction false} StatusLatches(r1: Run, r2: Run, p: string)
    requires Reachable(r2) && Survives(r1, r2, p) && Active(r1.world, p)
    ensures Active(r2.world, p)
    ensures LatchesKept(r1.world.plans[p].status, r2.world.plans[p].status)
  {
    if r1 != r2 {
      StatusLatches(r1, r2.before, p);
      StatusLatchStep(r2, p);
    }
  }

  /** After the timeout verdict the plan evicts nothing and folds no drain results. */
  lemma TimedOutMeansIdle(r1: Run, r2: Run, p: string)
    requires Reachable(r2) && r2.Then? && Survives(r1, r2.before, p)
    requires Active(r1.world, p) && TimedOut(r1.world.plans[p])
    ensures !Asks(r2.step, p)
    ensures !(r2.step.PublishDrain? && r2.step.plan == p)
  {
    StatusLatches(r1, r2.before, p);
  }

  /** A status update came after r1. */
  ghost predicate PublishedSince(r1: Run, r2: Run, p: string) {
    r1 != r2 && r2.Then? && ((r2.step.PublishStatus? && r2.step.plan == p) || PublishedSince(r1, r2.before, p))
  }

  /** From the next status update on, the phase of a timed-out plan is TimedOut for good. */
  lemma {:induction false} TimedOutPhase(r1: Run, r2: Run, p: string)
    requires Reachable(r2) && Survives(r1, r2, p) && PublishedSince(r1, r2, p)
    requires Active(r1.world, p) && TimedOut(r1.world.plans[p])
    ensures Active(r2.world, p) && r2.world.plans[p].status.phase == PhaseTimedOut
  {
    StatusLatches(r1, r2, p);
    StatusLatches(r1, r2.before, p);
    if !(r2.step.PublishStatus? && r2.step.plan == p) {
      TimedOutPhase(r1, r2.before, p);
    }
  }

  /** While a plan keeps its selector, it adopts only nodes of the frozen snapshot. */
  lemma SnapshotFreeze(r1: Run, r2: Run, p: string, spec: Spec, cordon: bool, seen: Node, put: Node)
    requires Reachable(r2) && r2.Then? && Survives(r1, r2.before, p)
    requires Active(r1.world, p) && r1.world.plans[p].status.snapshotTaken
    requires r2.step == PatchNode(p, spec, Adopting(cordon), seen, put) && spec.selector.Some?
    ensures seen.name in r1.world.plans[p].status.resolvedNodes
  {
    StatusLatches(r1, r2.before, p);
  }
}
