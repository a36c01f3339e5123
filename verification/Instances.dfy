/**
 Concrete runs of one plan "p" and one node "n": what the code lets happen.
 */
module Instances {
  import opened Api
  import opened Drift
  import opened StatusUpdate
  import opened DrainFold
  import opened NodeWrites
  import opened Protocol
  import opened Safety
  import opened Runs
  import opened Evictions
  import opened Streak

  function FreeNode(ready: bool): Node {
    Node("n", map[], map[], false, false, [NodeCondition(ReadyCondition, if ready then IsTrue else IsFalse)])
  }

  function CordonAndDrain(cordon: bool): Spec {
    Spec(["n"], None, "", Some(CordonSpec(cordon, None)), Some(DrainSpec(true, None, Some(1))))
  }

  function SomePod(uid: int): Pod {
    Pod(PodId("n", uid), false, None, None, PodPhase.Running, [OwnerRef(false, Some(true))], [])
  }

  function ActivePlan(status: Status): Plan {
    Plan("p", CordonAndDrain(true), true, false, status)
  }

  /** The node, the plan with its finalizer, and two pods. */
  function Setting(node: Node): World {
    World(map["n" := node], map["p" := ActivePlan(EMPTY_STATUS)],
          map[PodId("n", 0) := SomePod(0), PodId("n", 1) := SomePod(1)], 0, {PodId("n", 0), PodId("n", 1)})
  }

  lemma Begins(ready: bool) returns (r: Run)
    ensures Reachable(r) && r.world == Setting(FreeNode(ready))
    ensures LastEviction(r, "p").None? && forall m :: Unfolded(r, "p", m) == 0
  {
    var unmarked := ActivePlan(EMPTY_STATUS).(finalizer := false);
    var w := Setting(FreeNode(ready)).(plans := map["p" := unmarked]);
    assert w.plans["p" := unmarked.(finalizer := true)] == map["p" := ActivePlan(EMPTY_STATUS)];
    assert Reachable(Begin(w));
    r := Then(Begin(w), AddFinalizer("p"), Setting(FreeNode(ready)));
    assert Does(Begin(w), r.step, r.world);
  }

  /** The plan adopts the node, and cordons it or not. */
  lemma Adopts(ready: bool, cordon: bool) returns (r: Run)
    ensures Reachable(r) && r.world == Setting(Adopted(FreeNode(ready), "p", "", cordon))
    ensures LastEviction(r, "p").None? && forall m :: Unfolded(r, "p", m) == 0
  {
    hide Reachable;
    var before := Begins(ready);
    var seen := FreeNode(ready);
    r := Writes(before, "p", Adopting(cordon), seen, Adopted(seen, "p", "", cordon));
    MergeOntoBase(seen, Adopted(seen, "p", "", cordon));
  }

  /* ----- Two passes that evict past the deadline ----- */

  /** A first drain status that gets nowhere starts the clock. */
  lemma StartsDrain(r: Run) returns (r': Run)
    requires Reachable(r) && Drainable(r, "p", "n") && DrainTarget(r, "p", r.world.nodes["n"]) && r.world.now == 0
    requires Timeout(r.world.plans["p"].spec) == Some(1) && r.world.plans["p"].status.drainStartedAt.None?
    requires LastEviction(r, "p").None? && forall m :: Unfolded(r, "p", m) == 0
    ensures Reachable(r') && Drainable(r', "p", "n") && r'.world == r.world.(plans := r'.world.plans)
    ensures r'.world.plans["p"] == r.world.plans["p"].(status := r'.world.plans["p"].status)
    ensures r'.world.plans["p"].status.drainStartedAt == Some(0)
  {
    hide AppliedDrain, Disturbs, Copied, SoundReport, Accounts, UpdatedStatus, Inv, FullyDrained;
    var w := r.world;
    NameOfNodeAndPlan(r);
    var plan := Seen(w, "p", w.plans["p"].spec);
    var reports := [Report(DrainResult("n", NO_OUTCOME, OtherError), w.nodes["n"], 0)];
    NothingFound(r, plan, reports);
    var status := AppliedDrain(plan, ResultsOf(reports), 0).0;
    var step := PublishDrain("p", plan.spec, reports, 0);
    StartedNow(plan, ResultsOf(reports));
    r' := Then(r, step, WithStatus(w, "p", status));
    assert Does(r, step, r'.world);
  }

  lemma NothingFound(r: Run, plan: Plan, reports: seq<Report>)
    requires plan.name == "p" && |reports| == 1 && reports[0].result == DrainResult("n", NO_OUTCOME, OtherError)
    requires reports[0].seen.name == "n" && reports[0].seen.unschedulable && IsNodeReady(reports[0].seen)
    requires DrainTarget(r, "p", reports[0].seen) && forall m :: Unfolded(r, "p", m) == 0
    ensures SoundReport(r, plan, reports[0]) && Accounts(r, "p", ResultsOf(reports))
    ensures !FullyDrained(ResultsOf(reports)[0])
  {
  }

  lemma StartedNow(plan: Plan, results: seq<DrainResult>)
    requires plan.status.drainStartedAt.None? && Timeout(plan.spec) == Some(1) && !TimedOut(plan) && |results| > 0
    requires !FullyDrained(results[0])
    ensures AppliedDrain(plan, results, 0).0.drainStartedAt == Some(0)
    ensures DrainTimedOut !in AppliedDrain(plan, results, 0).0.conditions
  {
    TimeoutLatch(plan, results, 0);
  }

  lemma NameOfNodeAndPlan(r: Run)
    requires Reachable(r) && "p" in r.world.plans && "n" in r.world.nodes
    ensures r.world.nodes["n"].name == "n" && r.world.plans["p"].name == "p"
  {
    AlwaysInv(r);
    assert NodeInv(r.world, "n") && PlanInv(r.world, "p");
  }

  /** A drain starts, a minute passes, and two passes evict a pod each. */
  lemma TwoLatePasses() returns (r1: Run, r2: Run)
    ensures Reachable(r2) && LateEviction(r1, "p", 1) && LateEviction(r2, "p", 1)
    ensures Extends(r1, r2) && !SamePass(r1, r2.before, "p") && FixedTimeout(r1, r2, "p", 1)
    ensures AbortedBetween(r1, r2, "p", "n")
  {
    hide Reachable, AppliedDrain, UpdatedStatus;
    var r := Adopts(true, true);
    var node := r.world.nodes["n"];
    r := Update(r, "p", "n");
    r := StartsDrain(r);
    r := Happens(r, "n", node, "p", CordonAndDrain(true), 100);
    r := Update(r, "p", "n");
    r1 := Evict(r, "p", node, PodId("n", 0));
    r2 := LateAgain(r1, "p", "n", PodId("n", 1), 1);
  }

  /* ----- A released node is drained ----- */

  /** A user uncordons the node, the status update reads it, the user cordons it again, and the
      pass releases it and evicts one of its pods. */
  lemma ReleasedCopyDrains() returns (r: Run)
    ensures Reachable(r) && r.Then? && r.step.EvictPod? && r.step.plan == "p" && r.step.pod.node == "n"
    ensures ReleasedThisPass(r.before, "p", "n") && "n" in r.before.world.nodes && Owner(r.before.world.nodes["n"]) == ""
  {
    hide Reachable, UpdatedStatus;
    r := Adopts(true, true);
    var cordoned := r.world.nodes["n"];
    var seen := cordoned.(unschedulable := false);
    r := Happens(r, "n", seen, "p", CordonAndDrain(true), 0);
    r := Update(r, "p", "n");
    r := Happens(r, "n", cordoned, "p", CordonAndDrain(true), 0);
    ReleasesUncordoned(seen, r.world.plans["p"]);
    r := Writes(r, "p", ReleasingDrifted, seen, ReleasedNode(seen));
    var answer := r.world.nodes["n"];
    PatchCarriesMarks(seen, ReleasedNode(seen), cordoned);
    AnswerIsTarget(r);
    r := Evict(r, "p", answer, PodId("n", 0));
  }

  lemma AnswerIsTarget(r: Run)
    requires r.Then? && r.step.PatchNode? && r.step.plan == "p" && r.step.seen.name == "n" && Resolved(r.before, "p", "n")
    requires "n" in r.world.nodes && r.world.nodes["n"].name == "n"
    requires Owner(r.world.nodes["n"]) == if r.step.why == ReleasingDrifted then "" else "p"
    ensures DrainTarget(r, "p", r.world.nodes["n"])
  {
  }

  lemma ReleasesUncordoned(seen: Node, plan: Plan)
    requires Owner(seen) == plan.name && CordonEnabled(plan.spec) && OperatorCordoned(seen) && !seen.unschedulable
    ensures Releases(DetectNodeDrift(seen, plan))
  {
  }

  /* ----- A release that no status records ----- */

  /** A user uncordons the node and switches cordon off; the status update finds nothing to
      record; the user switches cordon on again, and the pass releases the node. */
  lemma UnrecordedRelease() returns (r: Run)
    ensures Reachable(r) && r.Then? && r.step.PatchNode? && r.step.plan == "p" && r.step.why == ReleasingDrifted
    ensures "p" in r.world.plans && "n" in r.world.nodes && Owner(r.world.nodes["n"]) == ""
    ensures Lookup(r.world.plans["p"].status.nodes, "n").Some? && !Latched(r.world.plans["p"].status.nodes, "n")
  {
    hide Reachable, UpdatedStatus;
    r := Adopts(true, true);
    var seen := r.world.nodes["n"].(unschedulable := false);
    r := Happens(r, "n", seen, "p", CordonAndDrain(false), 0);
    var plan := r.world.plans["p"];
    r := Update(r, "p", "n");
    NothingToRecord(plan, seen, r.step.snapshot, r.world.now);
    r := Happens(r, "n", seen, "p", CordonAndDrain(true), 0);
    ReleasesUncordoned(seen, r.world.plans["p"]);
    r := Writes(r, "p", ReleasingDrifted, seen, ReleasedNode(seen));
    MergeOntoBase(seen, ReleasedNode(seen));
  }

  lemma NothingToRecord(plan: Plan, seen: Node, snapshot: Option<seq<string>>, at: Time)
    requires plan.status == EMPTY_STATUS && !CordonEnabled(plan.spec) && seen.name == "n"
    requires OperatorCordoned(seen) && !seen.unschedulable
    ensures var entries := UpdatedStatus(plan, [seen], 0, snapshot, at).nodes;
            Lookup(entries, "n").Some? && !Latched(entries, "n")
  {
    EntryFor(plan, [seen], at, 0);
    ExistingIsLookup(plan.status.nodes, "n");
    assert [seen][0].name == "n" && DetectNodeDrift(seen, plan) == NoDrift;
    var entry := NextEntry(plan, seen, at);
    assert !entry.drifted && !entry.ready;
  }

  /* ----- A node seen NotReady is drained ----- */

  /** The status update sees the node NotReady; it recovers; the answer to the pass's own cordon
      shows it Ready, and the pass evicts one of its pods. */
  lemma RefreshedCopyDrains() returns (r: Run)
    ensures Reachable(r) && r.Then? && r.step.EvictPod? && r.step.plan == "p" && r.step.pod.node == "n"
    ensures LastSawNotReady(r.before, "p", "n")
  {
    hide Reachable, UpdatedStatus;
    r := Adopts(false, false);
    var seen := r.world.nodes["n"];
    var ready := seen.(conditions := FreeNode(true).conditions);
    r := Update(r, "p", "n");
    assert SawNotReady(r.step, "p", "n") by {
      assert r.step.all[0] == seen;
    }
    assert LastSawNotReady(r, "p", "n");
    r := Happens(r, "n", ready, "p", CordonAndDrain(true), 0);
    assert LastSawNotReady(r, "p", "n");
    r := Writes(r, "p", Cordoning, seen, CordonedNode(seen));
    assert LastSawNotReady(r, "p", "n");
    var answer := r.world.nodes["n"];
    PatchCarriesMarks(seen, CordonedNode(seen), ready);
    AnswerIsTarget(r);
    r := Evict(r, "p", answer, PodId("n", 0));
  }
}
