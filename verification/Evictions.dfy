/**
 Evictions over whole runs: each pod at most once, every one accounted for, and none after
 the timeout verdict.
 */
module Evictions {
  import opened Api
  import opened DrainFilters
  import opened StatusUpdate
  import opened DrainFold
  import opened Protocol
  import opened Safety
  import opened Runs

  /* ----- Each pod at most once ----- */

  /** A pod once evicted has been seen, and is gone or on its way out for good. */
  ghost predicate OnItsWay(r: Run, id: PodId) {
    && id in r.world.usedIds
    && (id in r.world.pods ==> r.world.pods[id].deletionTimestamp.Some?)
  }

  lemma OnItsWayStep(r: Run, id: PodId)
    requires Legal(r) && r.Then? && OnItsWay(r.before, id)
    ensures OnItsWay(r, id)
  {
    hide NodesMove, PlansMove, Copied, Allowed, SnapshotRule, SoundReport, Accounts;
    PodsComeNew(r, id);
  }

  lemma {:induction false} UsedIfListed(r: Run, k: nat, id: PodId)
    requires Reachable(r) && ListedThen(r, k, id)
    ensures id in r.world.usedIds
  {
    UsedSince(r, k, id);
  }

  lemma {:induction false} EvictedIsOnItsWay(r: Run, id: PodId)
    requires Reachable(r) && id in EvictedIds(r)
    ensures OnItsWay(r, id)
  {
    if id in EvictedIds(r.before) {
      EvictedIsOnItsWay(r.before, id);
      OnItsWayStep(r, id);
    } else {
      UsedIfListed(r.before, r.step.listedAt, id);
    }
  }

  /** The first k steps of a run. */
  function Prefix(r: Run, k: nat): (r1: Run)
    ensures Extends(r1, r)
    ensures k <= Length(r) ==> Length(r1) == k
    ensures r1.world == At(r, k)
  {
    if r.Begin? || Length(r) <= k then r else Prefix(r.before, k)
  }

  lemma {:induction false} EvictedBeforeOrAfter(r: Run, k: nat, id: PodId)
    requires id in EvictedIds(r)
    ensures id in EvictedIds(Prefix(r, k)) || EvictedAfter(r, k, id)
  {
    if k < Length(r) && id in EvictedIds(r.before) {
      EvictedBeforeOrAfter(r.before, k, id);
    }
  }

  /** No pod is evicted twice, by whichever plan: a listing shows an evicted pod only as one
      on its way out, and one listing is worked through once. */
  lemma EvictedOnce(r: Run)
    requires Reachable(r) && r.Then? && r.step.EvictPod?
    ensures r.step.pod !in EvictedIds(r.before)
  {
    var id, k := r.step.pod, r.step.listedAt;
    if id in EvictedIds(r.before) {
      EvictedBeforeOrAfter(r.before, k, id);
      var listed := Prefix(r.before, k);
      ExtendsReachable(listed, r.before);
      EvictedIsOnItsWay(listed, id);
      assert false;
    }
  }

  /* ----- Which pods, and how ----- */

  /** No pod is asked to go but one that its listing showed running, bound to be recreated unless
      the plan forces it, and without local data unless the plan gives that up. */
  lemma OnlyEvictablePods(r: Run)
    requires Reachable(r) && r.Then? && (r.step.EvictPod? || r.step.Reply?)
    ensures SpecRead(r.before, r.step.plan, r.step.spec) && r.step.spec.drain.Some? && r.step.spec.drain.value.enabled
    ensures r.step.pod in At(r.before, r.step.listedAt).pods
    ensures var pod := At(r.before, r.step.listedAt).pods[r.step.pod];
            var options := r.step.spec.drain.value.options;
            && !pod.mirror && pod.deletionTimestamp.None? && pod.phase != Succeeded && pod.phase != Failed
            && (forall o :: o in pod.owners ==> !o.daemonSet)
            && ((forall o :: o in pod.owners ==> o.controller != Some(true)) ==> options.Some? && options.value.force)
            && ((exists v :: v in pod.volumes && v.emptyDir) ==> options.Some? && options.value.deleteEmptyDirData)
  {
    hide Copied, DrainTarget, SpecRead;
    DoneStep(r);
    DrainConfigMeans(r.step.spec);
    hide Does, Reachable, GetDrainConfig;
  }

  /** The pods that plan p has deleted outright. */
  function DeletedBy(r: Run, p: string): set<PodId> {
    if r.Begin? then {}
    else if r.step.EvictPod? && r.step.deletion && r.step.plan == p then DeletedBy(r.before, p) + {r.step.pod}
    else DeletedBy(r.before, p)
  }

  lemma {:induction false} AnsweredFromStart(r: Run, k: nat, id: PodId, answer: Answer)
    requires Answered(r, k, id, answer)
    ensures Answered(r, 0, id, answer)
  {
    if !(r.step.Reply? && r.step.pod == id && r.step.answer == answer) {
      AnsweredFromStart(r.before, k, id, answer);
    }
  }

  /** A pod is deleted outright only after a disruption budget has refused its eviction. */
  lemma {:induction false} DeletedWasRefused(r: Run, p: string, id: PodId)
    requires Reachable(r) && id in DeletedBy(r, p)
    ensures Answered(r, 0, id, TooManyRequests) && id in EvictedIds(r)
  {
    if id in DeletedBy(r.before, p) {
      DeletedWasRefused(r.before, p, id);
    } else {
      DoneStep(r);
      AnsweredFromStart(r.before, r.step.listedAt, id, TooManyRequests);
      hide Reachable, Requestable;
    }
  }

  /** A plan that was never stored without respect for budgets never deletes a pod. */
  lemma {:induction false} BudgetsAreRespected(r: Run, p: string)
    requires Reachable(r)
    requires forall spec :: SpecRead(r, p, spec) && spec.drain.Some? && spec.drain.value.options.Some? ==>
      spec.drain.value.options.value.respectBudgets
    ensures DeletedBy(r, p) == {}
  {
    if r.Then? {
      forall spec | SpecRead(r.before, p, spec) ensures SpecRead(r, p, spec) {
      }
      BudgetsAreRespected(r.before, p);
      if r.step.EvictPod? && r.step.deletion && r.step.plan == p {
        DoneStep(r);
        DrainConfigMeans(r.step.spec);
      }
    }
  }

  /* ----- As many as pods, and finitely many ----- */

  function Evictions(r: Run, n: string): nat {
    if r.Begin? then 0
    else Evictions(r.before, n) + if r.step.EvictPod? && r.step.pod.node == n then 1 else 0
  }

  ghost function OnNode(ids: set<PodId>, n: string): set<PodId> {
    set id | id in ids && id.node == n
  }

  lemma OneMoreOnNode(ids: set<PodId>, id: PodId, n: string)
    requires id !in ids
    ensures |OnNode(ids + {id}, n)| == |OnNode(ids, n)| + if id.node == n then 1 else 0
  {
    assert OnNode(ids + {id}, n) == OnNode(ids, n) + if id.node == n then {id} else {};
  }

  /** The evictions of a run on a node are as many as the distinct pods evicted there. */
  lemma {:induction false} EvictionsAreDistinct(r: Run, n: string)
    requires Reachable(r)
    ensures Evictions(r, n) == |OnNode(EvictedIds(r), n)|
  {
    if r.Then? {
      EvictionsAreDistinct(r.before, n);
      if r.step.EvictPod? {
        EvictedOnce(r);
        OneMoreOnNode(EvictedIds(r.before), r.step.pod, n);
      }
    } else {
      assert OnNode(EvictedIds(r), n) == {};
    }
  }

  /** Some state of the run held the pod. */
  ghost predicate EverSeen(r: Run, id: PodId) {
    exists k :: 0 <= k <= Length(r) && id in At(r, k).pods
  }

  lemma EvictedWasSeen(r: Run, id: PodId)
    requires Reachable(r) && id in EvictedIds(r)
    ensures EverSeen(r, id)
  {
    EvictedIsOnItsWay(r, id);
    UsedWasSeen(r, id);
  }

  lemma {:induction false} UsedWasSeen(r: Run, id: PodId)
    requires Reachable(r) && id in r.world.usedIds
    ensures EverSeen(r, id)
  {
    if id in r.world.pods {
      assert id in At(r, Length(r)).pods;
    } else {
      UsedBefore(r, id);
      UsedWasSeen(r.before, id);
      var k :| 0 <= k <= Length(r.before) && id in At(r.before, k).pods;
      assert At(r, k) == At(r.before, k);
    }
  }

  lemma UsedBefore(r: Run, id: PodId)
    requires Reachable(r) && id in r.world.usedIds && id !in r.world.pods
    ensures r.Then? && id in r.before.world.usedIds
  {
    hide NodesMove, PlansMove, Copied, Allowed, SnapshotRule, SoundReport, Accounts;
  }

  /** There are never more evictions on a node than pods that were ever seen there. */
  lemma EvictionsAreBounded(r: Run, n: string, seen: set<PodId>)
    requires Reachable(r) && forall id: PodId :: id.node == n && EverSeen(r, id) ==> id in seen
    ensures Evictions(r, n) <= |OnNode(seen, n)|
  {
    EvictionsAreDistinct(r, n);
    forall id | id in OnNode(EvictedIds(r), n) ensures id in OnNode(seen, n) {
      EvictedWasSeen(r, id);
    }
    SubsetSize(OnNode(EvictedIds(r), n), OnNode(seen, n));
  }

  /** The pods of node n evicted after step k: those listed since then, or before. */
  function EvictedSince(r: Run, k: nat, n: string, listedBefore: bool): set<PodId> {
    if r.Begin? || Length(r) <= k then {}
    else
      EvictedSince(r.before, k, n, listedBefore)
      + if r.step.EvictPod? && r.step.pod.node == n && (listedBefore <==> r.step.listedAt < k) then {r.step.pod} else {}
  }

  lemma {:induction false} SinceIsEvicted(r: Run, k: nat, n: string, listedBefore: bool, id: PodId)
    requires id in EvictedSince(r, k, n, listedBefore)
    ensures id in EvictedIds(r)
  {
    if id in EvictedSince(r.before, k, n, listedBefore) {
      SinceIsEvicted(r.before, k, n, listedBefore, id);
    }
  }

  lemma {:induction false} CountSince(r: Run, k: nat, n: string)
    requires Reachable(r) && k <= Length(r)
    ensures Evictions(r, n) == Evictions(Prefix(r, k), n) + |EvictedSince(r, k, n, true)| + |EvictedSince(r, k, n, false)|
  {
    if k < Length(r) {
      CountSince(r.before, k, n);
      if r.step.EvictPod? && r.step.pod.node == n {
        EvictedOnce(r);
        forall b: bool ensures r.step.pod !in EvictedSince(r.before, k, n, b) {
          if r.step.pod in EvictedSince(r.before, k, n, b) {
            SinceIsEvicted(r.before, k, n, b, r.step.pod);
          }
        }
      }
    }
  }

  /** After step k no pod has come to node n. */
  ghost predicate NoNewPods(r: Run, k: nat, n: string) {
    Length(r) <= k ||
    (r.Then? && NoNewPods(r.before, k, n)
     && forall id :: id in r.world.pods && id.node == n ==> id in r.before.world.pods)
  }

  lemma {:induction false} PodsOnlyGo(r: Run, k: nat, n: string, j: nat, id: PodId)
    requires NoNewPods(r, k, n) && k <= j <= Length(r) && id.node == n && id in At(r, j).pods
    ensures id in At(r, k).pods
  {
    if k < j {
      if j < Length(r) {
        PodsOnlyGo(r.before, k, n, j, id);
      } else {
        PodsOnlyGo(r.before, k, n, j - 1, id);
      }
    }
  }

  lemma {:induction false} ListedSinceWasThere(r: Run, k: nat, n: string, id: PodId)
    requires Reachable(r) && NoNewPods(r, k, n) && k <= Length(r) && id in EvictedSince(r, k, n, false)
    ensures id in OnNode(At(r, k).pods.Keys, n)
  {
    if id in EvictedSince(r.before, k, n, false) {
      ListedSinceWasThere(r.before, k, n, id);
    } else {
      PodsOnlyGo(r.before, k, n, r.step.listedAt, id);
    }
  }

  /** A node that gets no new pod after step k sees no more evictions from then on than it has
      pods at step k, besides those of a listing that was already being worked through. */
  lemma EvictionsRunOut(r: Run, k: nat, n: string)
    requires Reachable(r) && k <= Length(r) && NoNewPods(r, k, n)
    ensures Evictions(r, n) - Evictions(Prefix(r, k), n)
            <= |OnNode(At(r, k).pods.Keys, n)| + |EvictedSince(r, k, n, true)|
  {
    CountSince(r, k, n);
    forall id | id in EvictedSince(r, k, n, false) ensures id in OnNode(At(r, k).pods.Keys, n) {
      ListedSinceWasThere(r, k, n, id);
    }
    SubsetSize(EvictedSince(r, k, n, false), OnNode(At(r, k).pods.Keys, n));
  }

  /* ----- The stored totals ----- */

  /** The evictions plan p has had accepted on node n. */
  function EvictionsBy(r: Run, p: string, n: string): nat {
    if r.Begin? then 0
    else EvictionsBy(r.before, p, n) + if r.step.EvictPod? && r.step.plan == p && r.step.pod.node == n then 1 else 0
  }

  /** Those of passes that ended without a drain status. */
  function Lost(r: Run, p: string, n: string): nat {
    if r.Begin? then 0
    else Lost(r.before, p, n) + if Renews(r.step, p) then Unfolded(r.before, p, n) else 0
  }

  function StoredTotal(r: Run, p: string, n: string): int {
    if p !in r.world.plans then 0
    else match Lookup(r.world.plans[p].status.nodes, n)
         case Some(e) => e.evictedTotal
         case None => 0
  }

  ghost predicate HasEntry(r: Run, p: string, n: string) {
    p in r.world.plans && Lookup(r.world.plans[p].status.nodes, n).Some?
  }

  lemma TotalAfter(e: NodeStatus, r: DrainResult, at: Time)
    requires r.err.NotReadyError? ==> r.outcome == NO_OUTCOME
    ensures EntryAfter(e, r, at).evictedTotal == e.evictedTotal + r.outcome.evicted
  {
  }

  /** What a drain status makes of an entry: the work of the one result that names it. */
  lemma DrainedEntry(r: Run, p: string, n: string) returns (i: int)
    requires Reachable(r) && r.Then? && r.step.PublishDrain? && r.step.plan == p && HasEntry(r.before, p, n)
    ensures HasEntry(r, p, n) && i < |r.step.reports|
    ensures var e := Lookup(r.before.world.plans[p].status.nodes, n).value;
            var e' := Lookup(r.world.plans[p].status.nodes, n).value;
            if i < 0 then e' == e && Unfolded(r.before, p, n) == 0
            else
              var result := r.step.reports[i].result;
              && e' == EntryAfter(e, result, r.step.at)
              && SoundOutcome(result.outcome) && (result.err.NotReadyError? ==> result.outcome == NO_OUTCOME)
              && result.outcome.evicted == Unfolded(r.before, p, n)
  {
    hide Reachable, Disturbs, Copied, Allowed, SnapshotRule, EntryAfter, UpdatedStatus, DrainTarget, SoundOutcome,
         ListedWorkloadGone;
    DoneStep(r);
    var w, results := r.before.world, ResultsOf(r.step.reports);
    var plan := Seen(w, p, r.step.spec);
    AppliedNodes(plan, results, r.step.at);
    LookupAfterFold(plan.status.nodes, results, r.step.at, n);
    i := -1;
    if k :| 0 <= k < |results| && results[k].name == n {
      assert SoundReport(r.before, plan, r.step.reports[k]);
      i := k;
    }
  }

  /** A drain status adds to each stored total exactly the evictions that were pending there. */
  lemma FoldAddsPending(r: Run, p: string, n: string)
    requires Reachable(r) && r.Then? && r.step.PublishDrain? && r.step.plan == p && HasEntry(r.before, p, n)
    ensures HasEntry(r, p, n) && StoredTotal(r, p, n) == StoredTotal(r.before, p, n) + Unfolded(r.before, p, n)
  {
    hide Reachable, EntryAfter, SoundOutcome;
    var i := DrainedEntry(r, p, n);
    if i >= 0 {
      TotalAfter(Lookup(r.before.world.plans[p].status.nodes, n).value, r.step.reports[i].result, r.step.at);
    }
  }

  lemma DoneStep(r: Run)
    requires Reachable(r) && r.Then?
    ensures Reachable(r.before) && Does(r.before, r.step, r.world)
  {
  }

  /** Every drained node has its entry, and what its result reports is what the run did. */
  lemma ResultsAreRecorded(r: Run, p: string, i: nat)
    requires Reachable(r) && r.Then? && r.step.PublishDrain? && r.step.plan == p && i < |r.step.reports|
    ensures var result := r.step.reports[i].result;
            && HasEntry(r.before, p, result.name) && HasEntry(r, p, result.name)
            && result.outcome.evicted == Unfolded(r.before, p, result.name)
            && StoredTotal(r, p, result.name) == StoredTotal(r.before, p, result.name) + result.outcome.evicted
  {
    var n := r.step.reports[i].result.name;
    AlwaysInv(r.before);
    NameOfPlan(r.before.world, p);
    assert SoundReport(r.before, Seen(r.before.world, p, r.step.spec), r.step.reports[i]);
    ResolvedHasEntry(r.before, p, n);
    FoldAddsPending(r, p, n);
    assert ResultsOf(r.step.reports)[i].name == n;
  }

  lemma UpdateCarriesCounts(plan: Plan, all: seq<Node>, conflicting: nat, snapshot: Option<seq<string>>, at: Time, n: string)
    requires DistinctNames(plan.status.nodes) && DistinctNodes(all) && Lookup(plan.status.nodes, n).Some?
    requires exists i :: 0 <= i < |all| && all[i].name == n
    ensures var e := Lookup(UpdatedStatus(plan, all, conflicting, snapshot, at).nodes, n);
            && e.Some? && e.value.evictedTotal == Lookup(plan.status.nodes, n).value.evictedTotal
            && e.value.initialPods == Lookup(plan.status.nodes, n).value.initialPods
  {
    var i :| 0 <= i < |all| && all[i].name == n;
    EntryFor(plan, all, at, i);
    ExistingIsLookup(plan.status.nodes, n);
  }

  /* ----- The initial count ----- */

  function InitialCount(r: Run, p: string, n: string): int {
    if p !in r.world.plans then 0
    else match Lookup(r.world.plans[p].status.nodes, n)
         case Some(e) => e.initialPods
         case None => 0
  }

  lemma FoldKeepsInitial(r: Run, p: string, n: string)
    requires Reachable(r) && r.Then? && r.step.PublishDrain? && r.step.plan == p && InitialCount(r.before, p, n) > 0
    ensures InitialCount(r, p, n) == InitialCount(r.before, p, n)
  {
    hide Reachable, EntryAfter, SoundOutcome, Inv;
    var i := DrainedEntry(r, p, n);
    if i >= 0 {
      DoneStep(r);
      AlwaysInv(r.before);
      var e := EntrySound(r.before.world, p, n);
      EntryStaysSound(e, r.step.reports[i].result, r.step.at);
    }
  }

  lemma EntrySound(w: World, p: string, n: string) returns (e: NodeStatus)
    requires Inv(w) && p in w.plans && Lookup(w.plans[p].status.nodes, n).Some?
    ensures e == Lookup(w.plans[p].status.nodes, n).value && SoundEntry(e)
  {
    assert PlanInv(w, p);
    var k := LookupIndex(w.plans[p].status.nodes, n);
    e := w.plans[p].status.nodes[k];
  }

  lemma InitialCountStep(r: Run, p: string, n: string)
    requires Reachable(r) && r.Then? && Active(r.before.world, p) && InitialCount(r.before, p, n) > 0
    requires StaysResolved(r.before, r, p, n)
    ensures Active(r.world, p) && InitialCount(r, p, n) == InitialCount(r.before, p, n)
  {
    hide Disturbs, Copied, Allowed, SnapshotRule, SoundReport, UpdatedStatus, AppliedDrain, Accounts;
    FinalizerStays(r, p);
    if r.step.PublishStatus? && r.step.plan == p {
      AlwaysInv(r.before);
      assert PlanInv(r.before.world, p);
      assert Length(r.before) < Length(r);
      UpdateCarriesCounts(Seen(r.before.world, p, r.step.spec), r.step.all, r.step.conflicting, r.step.snapshot, r.step.at, n);
    } else if r.step.PublishDrain? && r.step.plan == p {
      FoldKeepsInitial(r, p, n);
    } else {
      StatusMoves(r, p);
    }
  }

  /** The number of pods that progress is measured against never changes once it is set, as long
      as the plan lives and each of its status updates resolves the node. */
  lemma {:induction false} InitialCountStays(r1: Run, r2: Run, p: string, n: string)
    requires Reachable(r2) && StaysResolved(r1, r2, p, n) && Active(r1.world, p) && InitialCount(r1, p, n) > 0
    ensures Active(r2.world, p) && InitialCount(r2, p, n) == InitialCount(r1, p, n)
  {
    if r1 != r2 {
      InitialCountStays(r1, r2.before, p, n);
      assert StaysResolved(r2.before, r2.before, p, n);
      InitialCountStep(r2, p, n);
    }
  }

  /* ----- Conservation ----- */

  /** Stored, pending and lost evictions together. */
  function Accounted(r: Run, p: string, n: string): int {
    StoredTotal(r, p, n) + Unfolded(r, p, n) + Lost(r, p, n)
  }

  lemma AccountsStep(r: Run, p: string, n: string)
    requires Reachable(r) && r.Then? && Active(r.before.world, p) && HasEntry(r.before, p, n)
    requires StaysResolved(r.before, r, p, n)
    ensures Active(r.world, p) && HasEntry(r, p, n)
    ensures Accounted(r, p, n) - Accounted(r.before, p, n) == EvictionsBy(r, p, n) - EvictionsBy(r.before, p, n)
  {
    hide Disturbs, Copied, Allowed, SnapshotRule, SoundReport, UpdatedStatus, AppliedDrain, Accounts;
    FinalizerStays(r, p);
    if r.step.PublishStatus? && r.step.plan == p {
      var w := r.before.world;
      AlwaysInv(r.before);
      assert PlanInv(w, p);
      UpdateCarriesCounts(Seen(w, p, r.step.spec), r.step.all, r.step.conflicting, r.step.snapshot, r.step.at, n);
    } else if r.step.PublishDrain? && r.step.plan == p {
      FoldAddsPending(r, p, n);
    } else {
      StatusMoves(r, p);
    }
  }

  /** Conservation: as long as a plan lives and each of its status updates resolves the node,
      its evictions there are those its entry has gained, those not folded yet, and those of
      aborted passes. */
  lemma {:induction false} EvictionsAreConserved(r1: Run, r2: Run, p: string, n: string)
    requires Reachable(r2) && StaysResolved(r1, r2, p, n) && Active(r1.world, p) && HasEntry(r1, p, n)
    ensures Active(r2.world, p) && HasEntry(r2, p, n)
    ensures Accounted(r2, p, n) - Accounted(r1, p, n) == EvictionsBy(r2, p, n) - EvictionsBy(r1, p, n)
  {
    if r1 != r2 {
      EvictionsAreConserved(r1, r2.before, p, n);
      assert StaysResolved(r2.before, r2.before, p, n);
      AccountsStep(r2, p, n);
    }
  }

  /** A pass of p evicted on n and ended without a drain status. */
  ghost predicate AbortedBetween(r1: Run, r2: Run, p: string, n: string) {
    r1 != r2 && r2.Then? && ((Renews(r2.step, p) && Unfolded(r2.before, p, n) > 0) || AbortedBetween(r1, r2.before, p, n))
  }

  lemma {:induction false} LostIffAborted(r1: Run, r2: Run, p: string, n: string)
    requires Extends(r1, r2)
    ensures Lost(r1, p, n) <= Lost(r2, p, n)
    ensures Lost(r1, p, n) == Lost(r2, p, n) <==> !AbortedBetween(r1, r2, p, n)
  {
    if r1 != r2 {
      LostIffAborted(r1, r2.before, p, n);
    }
  }

  /** Between two points with nothing pending, the stored total grows by exactly the plan's
      evictions if and only if no pass in between evicted there and was aborted. */
  lemma TotalIsExactIff(r1: Run, r2: Run, p: string, n: string)
    requires Reachable(r2) && StaysResolved(r1, r2, p, n) && Active(r1.world, p) && HasEntry(r1, p, n)
    requires Unfolded(r1, p, n) == 0 == Unfolded(r2, p, n)
    ensures StoredTotal(r2, p, n) - StoredTotal(r1, p, n) == EvictionsBy(r2, p, n) - EvictionsBy(r1, p, n)
            <==> !AbortedBetween(r1, r2, p, n)
  {
    EvictionsAreConserved(r1, r2, p, n);
    ResolvedExtends(r1, r2, p, n);
    LostIffAborted(r1, r2, p, n);
  }

  lemma {:induction false} ResolvedExtends(r1: Run, r2: Run, p: string, n: string)
    requires StaysResolved(r1, r2, p, n)
    ensures Extends(r1, r2)
  {
    if r1 != r2 {
      ResolvedExtends(r1, r2.before, p, n);
    }
  }

  /* ----- The timeout ----- */

  /** The last step evicts a pod of plan p past the deadline that this timeout sets. */
  ghost predicate LateEviction(r: Run, p: string, minutes: int) {
    && r.Then? && r.step.EvictPod? && r.step.plan == p
    && p in r.before.world.plans && r.before.world.plans[p].status.drainStartedAt.Some?
    && r.world.now > r.before.world.plans[p].status.drainStartedAt.value + minutes * MINUTE
  }

  predicate WritesStatus(step: Step, p: string) {
    Renews(step, p) || (step.PublishDrain? && step.plan == p)
  }

  /** Between r1 and r plan p has written no status: the pass goes on. */
  ghost predicate SamePass(r1: Run, r: Run, p: string) {
    r1 == r || (r.Then? && SamePass(r1, r.before, p) && !WritesStatus(r.step, p))
  }

  /** The first status plan p wrote after r1 is a drain status: the pass was completed. */
  ghost predicate Folded(r1: Run, r: Run, p: string) {
    r1 != r && r.Then?
    && (if SamePass(r1, r.before, p) then r.step.PublishDrain? && r.step.plan == p else Folded(r1, r.before, p))
  }

  /** Every drain status of p in between was computed with this timeout. */
  ghost predicate FixedTimeout(r1: Run, r: Run, p: string, minutes: int) {
    r1 == r ||
    (r.Then? && FixedTimeout(r1, r.before, p, minutes)
     && (r.step.PublishDrain? && r.step.plan == p ==> Timeout(r.step.spec) == Some(minutes)))
  }

  /** While the pass goes on, its latest eviction stays late and pending. */
  lemma {:induction false} StaysLate(r1: Run, r: Run, p: string, minutes: int)
    requires Reachable(r) && LateEviction(r1, p, minutes) && SamePass(r1, r, p)
    ensures Active(r.world, p)
    ensures r.world.plans[p].status.drainStartedAt == r1.before.world.plans[p].status.drainStartedAt
    ensures LastEviction(r, p).Some?
    ensures LastEviction(r, p).value > r.world.plans[p].status.drainStartedAt.value + minutes * MINUTE
    ensures r1.world.now <= r.world.now && exists n :: Unfolded(r, p, n) > 0
  {
    hide NodesMove, Copied, Allowed, SnapshotRule, SoundReport, UpdatedStatus, AppliedDrain, Accounts, PodsMove;
    if r1 == r {
      assert Unfolded(r, p, r.step.pod.node) > 0;
    } else {
      StaysLate(r1, r.before, p, minutes);
      var n :| Unfolded(r.before, p, n) > 0;
      assert Unfolded(r, p, n) > 0;
      FinalizerStays(r, p);
      StatusMoves(r, p);
    }
  }

  /** The drain status of a pass that evicted past the deadline gives the timeout verdict. */
  lemma LateFoldTimesOut(r1: Run, r: Run, p: string, minutes: int)
    requires Reachable(r) && r.Then? && LateEviction(r1, p, minutes) && SamePass(r1, r.before, p)
    requires r.step.PublishDrain? && r.step.plan == p && Timeout(r.step.spec) == Some(minutes)
    ensures Active(r.world, p) && TimedOut(r.world.plans[p])
  {
    hide Disturbs, Copied, Allowed, SnapshotRule, SoundReport, UpdatedStatus;
    var w, results := r.before.world, ResultsOf(r.step.reports);
    StaysLate(r1, r.before, p, minutes);
    var n :| Unfolded(r.before, p, n) > 0;
    var i :| 0 <= i < |results| && results[i].name == n;
    assert !FullyDrained(results[i]);
    TimeoutLatch(Seen(w, p, r.step.spec), results, r.step.at);
  }

  /** With a fixed timeout a completed pass that evicted past the deadline is the last that
      evicts: the plan is timed out for good. */
  lemma {:induction false} LatePassIsLast(r1: Run, r: Run, p: string, minutes: int)
    requires Reachable(r) && LateEviction(r1, p, minutes) && Folded(r1, r, p)
    requires Survives(r1, r, p) && FixedTimeout(r1, r, p, minutes)
    ensures Active(r.world, p) && TimedOut(r.world.plans[p])
  {
    if SamePass(r1, r.before, p) {
      LateFoldTimesOut(r1, r, p, minutes);
    } else {
      LatePassIsLast(r1, r.before, p, minutes);
      StatusLatchStep(r, p);
    }
  }

  /** So when a later pass evicts, the late pass before it was aborted: the first status its plan
      wrote afterwards is not a drain status. */
  lemma LateAgainMeansAborted(r1: Run, r2: Run, p: string, minutes: int)
    requires Reachable(r2) && r2.Then? && r2.step.EvictPod? && r2.step.plan == p
    requires LateEviction(r1, p, minutes) && !SamePass(r1, r2.before, p)
    requires Survives(r1, r2.before, p) && FixedTimeout(r1, r2.before, p, minutes)
    ensures !Folded(r1, r2.before, p)
  {
    if Folded(r1, r2.before, p) {
      LatePassIsLast(r1, r2.before, p, minutes);
    }
  }

  /* ----- An aborted late pass can be followed by another ----- */

  /** Whenever a late eviction leaves another evictable pod on a node that the plan still names,
      its pass need only be aborted: the next one evicts late again. */
  lemma LateAgain(r1: Run, p: string, n: string, id: PodId, minutes: int) returns (r2: Run)
    requires Reachable(r1) && LateEviction(r1, p, minutes) && Drainable(r1, p, n) && InSnapshot(r1.world.plans[p], n)
    requires id in r1.world.pods && id.node == n && MayGo(r1, p, id)
    ensures Reachable(r2) && LateEviction(r2, p, minutes) && Survives(r1, r2, p) && FixedTimeout(r1, r2, p, minutes)
    ensures !SamePass(r1, r2.before, p) && !Folded(r1, r2.before, p) && Extends(r1, r2)
    ensures AbortedBetween(r1, r2, p, r1.step.pod.node)
  {
    var again := Update(r1, p, n);
    r2 := Evict(again, p, again.world.nodes[n], id);
    assert Unfolded(r1, p, r1.step.pod.node) > 0 && AbortedBetween(r1, again, p, r1.step.pod.node);
    assert SamePass(r1, r1, p) && Extends(r1, again) && Survives(r1, again, p) && FixedTimeout(r1, again, p, minutes);
  }
}
