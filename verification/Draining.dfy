/**
 Draining one node within a pass: what its report promises, and what it counts.
 */
module Draining {
  import opened Api
  import opened DrainFold
  import opened DrainFilters
  import opened StatusUpdate
  import opened Protocol
  import opened Safety
  import opened Evictions
  import opened Passes
  import opened Requests

  /** Evictions move the last-eviction time forward and nothing else that reports rest on. */
  ghost predicate EvictionsSince(r1: Run, r2: Run, p: string, some: bool) {
    if some then LastEviction(r2, p).Some? && LastEviction(r2, p).value <= r2.world.now
    else LastEviction(r2, p) == LastEviction(r1, p)
  }

  ghost predicate SomeEvicted(results: seq<DrainResult>) {
    exists i :: 0 <= i < |results| && results[i].outcome.evicted > 0
  }

  lemma EvictionsCompose(a: Run, b: Run, c: Run, p: string, first: bool, second: bool)
    requires EvictionsSince(a, b, p, first) && EvictionsSince(b, c, p, second) && Onward(b, c, p)
    ensures EvictionsSince(a, c, p, first || second)
  {
  }

  lemma EvictionsSinceQuiet(a: Run, b: Run, p: string)
    requires Quietly(a, b, p)
    ensures EvictionsSince(a, b, p, false)
  {
  }

  lemma NoEvictionsYet(r: Run, p: string)
    ensures EvictionsSince(r, r, p, false)
  {
  }

  /** What drain work between two points of a pass has evicted: that many pods of node n, none elsewhere. */
  ghost predicate CountsOnly(r1: Run, r2: Run, p: string, n: string, evicted: nat) {
    forall m ::
      && EvictionsBy(r2, p, m) == EvictionsBy(r1, p, m) + (if m == n then evicted else 0)
      && Unfolded(r2, p, m) == Unfolded(r1, p, m) + (if m == n then evicted else 0)
  }

  lemma NothingCounted(r: Run, p: string, n: string)
    ensures CountsOnly(r, r, p, n, 0)
  {
  }

  lemma CountsAdd(a: Run, b: Run, c: Run, p: string, n: string, first: nat, second: nat)
    requires CountsOnly(a, b, p, n, first) && CountsOnly(b, c, p, n, second)
    ensures CountsOnly(a, c, p, n, first + second)
  {
  }

  /** What a whole drain step has evicted, node by node. */
  ghost predicate CountsAs(r1: Run, r2: Run, p: string, results: seq<DrainResult>) {
    forall m ::
      && EvictionsBy(r2, p, m) == EvictionsBy(r1, p, m) + EvictedFor(results, m)
      && Unfolded(r2, p, m) == Unfolded(r1, p, m) + EvictedFor(results, m)
  }

  lemma CountsAsEmpty(r: Run, p: string)
    ensures CountsAs(r, r, p, [])
  {
  }

  lemma CountsAsNext(a: Run, b: Run, c: Run, p: string, results: seq<DrainResult>, r: DrainResult)
    requires CountsAs(a, b, p, results) && CountsOnly(b, c, p, r.name, r.outcome.evicted)
    ensures CountsAs(a, c, p, results + [r])
  {
    assert (results + [r])[..|results|] == results;
  }

  lemma {:induction false} EvictedForConcat(a: seq<DrainResult>, b: seq<DrainResult>, n: string)
    ensures EvictedFor(a + b, n) == EvictedFor(a, n) + EvictedFor(b, n)
  {
    if b == [] {
      assert a + b == a;
    } else {
      var k := |b| - 1;
      EvictedForConcat(a, b[..k], n);
      assert (a + b)[..|a + b| - 1] == a + b[..k];
    }
  }

  lemma SomeEvictedNext(results: seq<DrainResult>, r: DrainResult)
    ensures SomeEvicted(results + [r]) == (SomeEvicted(results) || r.outcome.evicted > 0)
  {
    var all := results + [r];
    assert all[|results|] == r;
    assert forall i | 0 <= i < |results| :: all[i] == results[i];
  }

  lemma DrainTargetPersists(r1: Run, r2: Run, p: string, seen: Node)
    requires Onward(r1, r2, p) && DrainTarget(r1, p, seen)
    ensures DrainTarget(r2, p, seen)
  {
  }

  /** Results of nodes that were not drained because they were NotReady. */
  ghost predicate OnlyNotReady(results: seq<DrainResult>) {
    forall i :: 0 <= i < |results| ==> results[i].err.NotReadyError? && results[i].outcome == NO_OUTCOME
  }

  lemma {:induction false} NotReadyEvictsNothing(results: seq<DrainResult>, n: string)
    requires OnlyNotReady(results)
    ensures EvictedFor(results, n) == 0
  {
    if results != [] {
      NotReadyEvictsNothing(results[..|results| - 1], n);
    }
  }

  /** The eviction totals of a status follow the plan's evictions. */
  ghost predicate TotalsFollow(r1: Run, r2: Run, p: string, s: Status, s': Status) {
    forall n ::
      match (Lookup(s.nodes, n), Lookup(s'.nodes, n))
      case (Some(e), Some(e')) =>
        e'.evictedTotal - e.evictedTotal == EvictionsBy(r2, p, n) - EvictionsBy(r1, p, n)
      case (None, None) => true
      case _ => false
  }

  lemma TotalsFollowDrain(r1: Run, r2: Run, plan: Plan, skipped: seq<DrainResult>, drained: seq<DrainResult>, at: Time)
    requires DistinctResults(skipped + drained) && OnlyNotReady(skipped)
    requires forall i :: 0 <= i < |drained| ==> !drained[i].err.NotReadyError?
    requires CountsAs(r1, r2, plan.name, drained)
    ensures TotalsFollow(r1, r2, plan.name, plan.status, AppliedDrain(plan, skipped + drained, at).0)
  {
    var all := skipped + drained;
    AppliedNodes(plan, all, at);
    forall n
      ensures match (Lookup(plan.status.nodes, n), Lookup(FoldResults(plan.status.nodes, all, at), n))
              case (Some(e), Some(e')) =>
                e'.evictedTotal - e.evictedTotal == EvictionsBy(r2, plan.name, n) - EvictionsBy(r1, plan.name, n)
              case (None, None) => true
              case _ => false
    {
      TotalsGrowByEvictions(plan.status.nodes, all, at, n);
      EvictedForConcat(skipped, drained, n);
      NotReadyEvictsNothing(skipped, n);
    }
  }

  lemma CountsAsMoves(a: Run, b: Run, c: Run, p: string, results: seq<DrainResult>)
    requires CountsAs(a, b, p, results) && SameEvictions(b, c, p)
    ensures CountsAs(a, c, p, results)
  {
  }

  lemma TotalsIgnoreStatus(a: Run, b: Run, c: Run, p: string, s: Status, s': Status)
    requires TotalsFollow(a, b, p, s, s') && forall n :: EvictionsBy(c, p, n) == EvictionsBy(b, p, n)
    ensures TotalsFollow(a, c, p, s, s')
  {
  }

  /** Results that count what was evicted since nothing was pending account for all of it. */
  lemma CountsAccount(start: Run, r: Run, p: string, skipped: seq<DrainResult>, drained: seq<DrainResult>)
    requires AllFolded(start, p) && CountsAs(start, r, p, drained)
    requires DistinctResults(skipped + drained) && OnlyNotReady(skipped)
    ensures Accounts(r, p, skipped + drained)
  {
    var all := skipped + drained;
    forall n ensures Unfolded(r, p, n) == EvictedFor(all, n) {
      EvictedForConcat(skipped, drained, n);
      NotReadyEvictsNothing(skipped, n);
    }
    forall i | 0 <= i < |all| ensures all[i].outcome.evicted == Unfolded(r, p, all[i].name) {
      EvictedForOne(all, i);
    }
    forall n | Unfolded(r, p, n) > 0 ensures exists i :: 0 <= i < |all| && all[i].name == n {
      if forall i :: 0 <= i < |all| ==> all[i].name != n {
        EvictedForOthers(all, n);
      }
    }
  }

  /** The stored eviction total before a pass; a node that was not listed starts at nothing. */
  function PriorTotal(entries: seq<NodeStatus>, n: string): int {
    match Lookup(entries, n)
    case Some(e) => e.evictedTotal
    case None => 0
  }

  /** A status update carries every total over. */
  lemma TotalsCarried(plan: Plan, copies: seq<Node>, conflicting: nat, snapshot: Option<seq<string>>, at: Time, n: string)
    requires DistinctNames(plan.status.nodes) && DistinctNodes(copies)
    ensures var e := Lookup(UpdatedStatus(plan, copies, conflicting, snapshot, at).nodes, n);
            e.Some? ==> e.value.evictedTotal == PriorTotal(plan.status.nodes, n)
  {
    if i :| 0 <= i < |copies| && copies[i].name == n {
      EntryFor(plan, copies, at, i);
      ExistingIsLookup(plan.status.nodes, n);
    } else {
      NoEntryFor(plan, copies, at, n);
    }
  }

  /** A report stays true while the pass goes on. */
  lemma ReportPersists(r1: Run, r2: Run, plan: Plan, report: Report)
    requires Reachable(r2) && Onward(r1, r2, plan.name) && SoundReport(r1, plan, report)
    ensures SoundReport(r2, plan, report)
  {
    if FullyDrained(report.result) {
      ExtendsReachable(r1, r2);
      AtExtended(r1, r2, report.listedAt);
      var n, cfg := report.result.name, GetDrainConfig(plan.spec).value;
      forall id | IsWorkload(At(r2, report.listedAt), id, n, cfg) ensures id !in r2.world.pods {
        UsedSince(r1, report.listedAt, id);
        GoneForGood(r1, r2, id);
      }
    }
  }

  function EvictedFor(results: seq<DrainResult>, n: string): nat {
    if results == [] then 0
    else
      var k := |results| - 1;
      EvictedFor(results[..k], n) + if results[k].name == n then results[k].outcome.evicted else 0
  }

  lemma {:induction false} EvictedForOthers(results: seq<DrainResult>, n: string)
    requires forall i :: 0 <= i < |results| ==> results[i].name != n
    ensures EvictedFor(results, n) == 0
  {
    if results != [] {
      EvictedForOthers(results[..|results| - 1], n);
    }
  }

  lemma {:induction false} EvictedForOne(results: seq<DrainResult>, i: nat)
    requires DistinctResults(results) && i < |results|
    ensures EvictedFor(results, results[i].name) == results[i].outcome.evicted
  {
    var k := |results| - 1;
    var n := results[i].name;
    if i < k {
      assert results[..k][i] == results[i];
      EvictedForOne(results[..k], i);
    } else {
      EvictedForOthers(results[..k], n);
    }
  }

  /** The stored eviction total grows by exactly what the results report. */
  lemma TotalsGrowByEvictions(entries: seq<NodeStatus>, results: seq<DrainResult>, at: Time, n: string)
    requires DistinctResults(results)
    requires forall i :: 0 <= i < |results| ==> (results[i].err.NotReadyError? ==> results[i].outcome == NO_OUTCOME)
    ensures match (Lookup(entries, n), Lookup(FoldResults(entries, results, at), n))
            case (Some(e), Some(e')) => e'.evictedTotal == e.evictedTotal + EvictedFor(results, n)
            case (None, None) => true
            case _ => false
  {
    LookupAfterFold(entries, results, at, n);
    var k := ResultIndex(results, n);
    if k >= 0 {
      EvictedForOne(results, k);
    } else {
      EvictedForOthers(results, n);
    }
  }

  /** The listing of a node's pods: each once, in no particular order. */
  ghost predicate Lists(all: map<PodId, Pod>, n: string, pods: seq<Pod>) {
    && (forall i :: 0 <= i < |pods| ==> pods[i].id in all && all[pods[i].id] == pods[i] && pods[i].id.node == n)
    && (forall id :: id in all && id.node == n ==> all[id] in pods)
    && DistinctIds(pods)
  }

  method ListNode(all: map<PodId, Pod>, n: string) returns (pods: seq<Pod>)
    requires forall id :: id in all ==> all[id].id == id
    ensures Lists(all, n, pods)
  {
    pods := [];
    var todo := all.Keys;
    while todo != {}
      invariant todo <= all.Keys
      invariant forall i :: 0 <= i < |pods| ==>
        pods[i].id in all && pods[i].id !in todo && all[pods[i].id] == pods[i] && pods[i].id.node == n
      invariant forall id :: id in all && id.node == n && id !in todo ==> all[id] in pods
      invariant DistinctIds(pods)
    {
      var id :| id in todo;
      if id.node == n {
        pods := pods + [all[id]];
      }
      todo := todo - {id};
    }
  }

  /** An accepted request: the pod goes at once, or is left with a deletion timestamp. */
  method Terminate(w: World, id: PodId) returns (next: World)
    requires Inv(w)
    ensures Evicted(w, id, next)
    ensures next.pods.Keys <= w.pods.Keys
  {
    var pods := w.pods;
    if id in pods {
      if * {
        pods := pods - {id};
      } else if pods[id].deletionTimestamp.None? {
        pods := pods[id := pods[id].(deletionTimestamp := Some(w.now))];
      }
    }
    next := w.(pods := pods);
  }

  lemma {:induction false} BucketIsDistinct(pods: seq<Pod>, cfg: DrainConfig, now: Time, c: PodClass)
    requires DistinctIds(pods)
    ensures DistinctIds(OfClass(pods, cfg, now, c))
  {
    if pods != [] {
      var k := |pods| - 1;
      BucketIsDistinct(pods[..k], cfg, now, c);
      var rest := OfClass(pods[..k], cfg, now, c);
      forall i | 0 <= i < |rest| ensures rest[i].id != pods[k].id {
        assert rest[i] in rest;
        var j :| 0 <= j < k && pods[..k][j] == rest[i];
      }
      var bucket := OfClass(pods, cfg, now, c);
      assert bucket == rest + if Classify(pods[k], cfg, now) == c then [pods[k]] else [];
      forall i, j | 0 <= i < j < |bucket| ensures bucket[i].id != bucket[j].id {
        if j == |rest| {
          assert bucket[i] == rest[i] && bucket[j] == pods[k];
        } else {
          assert bucket[i] == rest[i] && bucket[j] == rest[j];
        }
      }
    }
  }

  /** With nothing blocked, evicted or terminating, and every evictable pod reported gone,
      all workload of the listing is gone. */
  lemma NothingLeft(r1: Run, r2: Run, n: string, pods: seq<Pod>, cfg: DrainConfig, now: Time)
    requires Reachable(r2) && Extends(r1, r2)
    requires Lists(r1.world.pods, n, pods)
    requires OfClass(pods, cfg, now, Blocked) == [] && OfClass(pods, cfg, now, Terminating) == []
    requires OfClass(pods, cfg, now, Stuck) == []
    requires forall p :: p in OfClass(pods, cfg, now, Evictable) ==> p.id !in r2.world.pods
    ensures ListedWorkloadGone(r2, Length(r1), n, cfg)
  {
    AtExtended(r1, r2, Length(r1));
    AtEnd(r1);
    forall id | IsWorkload(r1.world, id, n, cfg) ensures id !in r2.world.pods {
      var pod := r1.world.pods[id];
      ExtendsReachable(r1, r2);
      AlwaysInv(r1);
      SkippedIsNoWorkload(pod, cfg, now);
      assert pod in pods;
      assert pod in OfClass(pods, cfg, now, Classify(pod, cfg, now));
      assert pod !in OfClass(pods, cfg, now, Blocked) && pod !in OfClass(pods, cfg, now, Terminating)
             && pod !in OfClass(pods, cfg, now, Stuck);
    }
  }

  function PodIds(pods: seq<Pod>): seq<PodId> {
    seq(|pods|, i requires 0 <= i < |pods| => pods[i].id)
  }

  /** What a drain call returns: counts as classified, and the gravest error. */
  function ResultOf(n: string, f: FilterResult, evicted: nat, refused: seq<PodId>, failed: bool): DrainResult {
    var total := |f.evictable| + |f.blocked| + |f.terminating| + |f.stuck|;
    var outcome := Outcome(evicted, total, |f.evictable|, |f.terminating|, |f.stuck|, PodIds(f.stuck));
    DrainResult(n, outcome,
                if failed then OtherError
                else if |f.blocked| > 0 then BlockedError(PodIds(f.blocked), false)
                else if |refused| > 0 then BlockedError(refused, true)
                else NoError)
  }

  ghost predicate Classified(pods: seq<Pod>, cfg: DrainConfig, now: Time, f: FilterResult) {
    forall c: PodClass :: f.Bucket(c) == OfClass(pods, cfg, now, c)
  }

  lemma ListedOnce(all: map<PodId, Pod>, n: string, pods: seq<Pod>)
    requires Lists(all, n, pods)
    ensures DistinctIds(pods)
  {
  }

  /** The evictable pods of a listing were not evicted before. */
  lemma EvictableAreWaiting(r: Run, n: string, pods: seq<Pod>, evictable: seq<Pod>, cfg: DrainConfig)
    requires Reachable(r) && Lists(r.world.pods, n, pods)
    requires forall i :: 0 <= i < |evictable| ==> evictable[i] in pods && MayEvict(evictable[i], cfg)
    ensures Waiting(r, Length(r), evictable)
    ensures forall i :: 0 <= i < |evictable| ==> evictable[i].id.node == n && evictable[i].id in r.world.pods
  {
    hide Reachable, Waiting;
    ListedIsWaiting(r, evictable);
  }

  /** The evictable pods of a listing are listed pods, each once, none on its way out. */
  lemma BucketFacts(pods: seq<Pod>, cfg: DrainConfig, now: Time, f: FilterResult)
    requires Classified(pods, cfg, now, f)
    requires DistinctIds(pods)
    ensures forall i :: 0 <= i < |f.evictable| ==> f.evictable[i] in pods && MayEvict(f.evictable[i], cfg)
    ensures DistinctIds(f.evictable)
  {
    assert f.evictable == f.Bucket(Evictable);
    BucketIsDistinct(pods, cfg, now, Evictable);
    BucketsMean(pods, cfg, now, f);
    forall i | 0 <= i < |f.evictable| ensures f.evictable[i] in pods && MayEvict(f.evictable[i], cfg) {
      assert f.evictable[i] in f.evictable;
    }
  }

  lemma DrainedIsEmpty(r1: Run, r2: Run, n: string, pods: seq<Pod>, cfg: DrainConfig, now: Time, f: FilterResult)
    requires Reachable(r2) && Extends(r1, r2)
    requires Lists(r1.world.pods, n, pods) && Classified(pods, cfg, now, f)
    requires f.blocked == [] && f.terminating == [] && f.stuck == []
    requires forall i :: 0 <= i < |f.evictable| ==> f.evictable[i].id !in r2.world.pods
    ensures ListedWorkloadGone(r2, Length(r1), n, cfg)
  {
    assert f.blocked == f.Bucket(Blocked) && f.terminating == f.Bucket(Terminating) && f.stuck == f.Bucket(Stuck);
    assert f.evictable == f.Bucket(Evictable);
    NothingLeft(r1, r2, n, pods, cfg, now);
  }

  lemma StillGone(r1: Run, r2: Run, p: string, pods: seq<Pod>, i: nat)
    requires Reachable(r2) && Onward(r1, r2, p) && i <= |pods|
    requires forall j :: 0 <= j < i ==> pods[j].id in r1.world.usedIds
    ensures forall j :: 0 <= j < i && pods[j].id !in r1.world.pods ==> pods[j].id !in r2.world.pods
  {
    forall j | 0 <= j < i && pods[j].id !in r1.world.pods ensures pods[j].id !in r2.world.pods {
      GoneForGood(r1, r2, pods[j].id);
    }
  }

  lemma {:induction false} CoveredIsResolved(r: Run, p: string, seen: Node)
    requires Covered(r, p, seen)
    ensures Resolved(r, p, seen.name)
  {
    if Renews(r.step, p) {
      var i :| 0 <= i < |r.step.all| && r.step.all[i] == seen;
    } else {
      CoveredIsResolved(r.before, p, seen);
    }
  }

  /** No eviction of the pass so far, and none it does not account for. */
  ghost predicate NothingPending(r: Run, p: string) {
    LastEviction(r, p).None? && AllFolded(r, p)
  }

  ghost predicate AllFolded(r: Run, p: string) {
    forall n :: Unfolded(r, p, n) == 0
  }

  /** One more request in a drain call, counted or not. */
  lemma RequestAddsUp(start: Run, before: Run, r: Run, p: string, id: PodId, evicted: nat, counted: bool)
    requires Onward(start, before, p) && Onward(before, r, p)
    requires CountsOnly(start, before, p, id.node, evicted)
    requires EvictionsSince(start, before, p, evicted > 0) && EvictionsSince(before, r, p, counted)
    requires CountsOnly(before, r, p, id.node, if counted then 1 else 0)
    ensures Onward(start, r, p)
    ensures CountsOnly(start, r, p, id.node, evicted + if counted then 1 else 0)
    ensures EvictionsSince(start, r, p, evicted + (if counted then 1 else 0) > 0)
  {
    OnwardTransitive(start, before, r, p);
    EvictionsCompose(start, before, r, p, evicted > 0, counted);
    CountsAdd(start, before, r, p, id.node, evicted, if counted then 1 else 0);
    hide Onward, CountsOnly, EvictionsSince;
  }

  /** Waiting and reading counts and evicts nothing. */
  lemma NothingYet(start: Run, r: Run, p: string, n: string)
    requires Quietly(start, r, p) && Onward(start, r, p)
    ensures CountsOnly(start, r, p, n, 0) && EvictionsSince(start, r, p, false)
    ensures EvictedIds(r) == EvictedIds(start)
  {
    EvictionsSinceQuiet(start, r, p);
  }

  /** A call whose listing failed reports nothing but the failure. */
  lemma FailedReport(r: Run, plan: Plan, seen: Node, at: nat)
    requires seen.unschedulable && IsNodeReady(seen) && DrainTarget(r, plan.name, seen)
    ensures SoundReport(r, plan, Report(DrainResult(seen.name, NO_OUTCOME, OtherError), seen, at))
  {
  }

  /** A node that is not Ready is reported without being touched. */
  lemma SkippedReport(r: Run, plan: Plan, seen: Node)
    requires seen.unschedulable && !IsNodeReady(seen) && DrainTarget(r, plan.name, seen)
    ensures var since := NotReadySince(plan.status.nodes, seen.name);
            SoundReport(r, plan, Report(DrainResult(seen.name, NO_OUTCOME, NotReadyError(since)), seen, 0))
  {
  }

  /** What one drain call saw and did. */
  datatype Account = Account(pods: seq<Pod>, now: Time, classes: FilterResult, evicted: nat, refused: seq<PodId>, failed: bool)

  /** The result is what the listing and the answers to the requests make it; unless a call
      failed every pod that may be evicted was dealt with. */
  ghost predicate Explains(a: Account, r: Run, listedAt: nat, n: string, cfg: DrainConfig, result: DrainResult) {
    && Lists(At(r, listedAt).pods, n, a.pods) && Classified(a.pods, cfg, a.now, a.classes)
    && result == ResultOf(n, a.classes, a.evicted, a.refused, a.failed)
    && a.refused == RefusedOf(r, listedAt, a.classes.evictable, cfg.respectBudgets)
    && (a.failed <==> AnyFailed(r, listedAt, a.classes.evictable))
    && (!a.failed ==> Handled(r, listedAt, a.classes.evictable, cfg.respectBudgets))
  }

  /** The error of a drain call: an answer that was neither acceptance, refusal nor absence goes
      first, then pods that the options hold back, then pods that budgets refused. */
  lemma ResultMeans(a: Account, r: Run, listedAt: nat, n: string, cfg: DrainConfig, result: DrainResult)
    requires Explains(a, r, listedAt, n, cfg, result)
    ensures result.name == n && result.outcome.evicted == a.evicted
    ensures result.err == OtherError <==> AnyFailed(r, listedAt, a.classes.evictable)
    ensures result.err.BlockedError? && !result.err.budget <==>
      !AnyFailed(r, listedAt, a.classes.evictable) && exists p :: p in a.pods && HeldBack(p, cfg)
    ensures result.err.BlockedError? && result.err.budget <==>
      && !AnyFailed(r, listedAt, a.classes.evictable) && (forall p :: p in a.pods ==> !HeldBack(p, cfg)) && cfg.respectBudgets
      && exists p :: p in a.pods && MayEvict(p, cfg) && Answered(r, listedAt, p.id, TooManyRequests)
    ensures result.err.BlockedError? ==>
      result.err.pods == if result.err.budget then a.refused else PodIds(a.classes.blocked)
    ensures !result.err.NotReadyError?
    ensures result.outcome.stuckPods == PodIds(a.classes.stuck) && result.outcome.stuckTerminating == |a.classes.stuck|
    ensures result.outcome.evictable == |a.classes.evictable| && result.outcome.terminating == |a.classes.terminating|
    ensures result.outcome.total ==
      |a.classes.evictable| + |a.classes.blocked| + |a.classes.terminating| + |a.classes.stuck|
  {
    BucketsMean(a.pods, cfg, a.now, a.classes);
    var evictable := a.classes.evictable;
    assert a.classes.blocked != [] ==> a.classes.blocked[0] in a.classes.blocked;
    RefusedFrom(r, listedAt, evictable, cfg.respectBudgets);
    hide Lists, Classified, HeldBack, MayEvict, AnyFailed, Handled, RefusedOf, Answered;
    if a.refused != [] {
      assert a.refused[0] in a.refused;
    }
    if p :| p in a.pods && MayEvict(p, cfg) && Answered(r, listedAt, p.id, TooManyRequests) && cfg.respectBudgets {
      assert p in evictable;
      var i :| 0 <= i < |evictable| && evictable[i] == p;
      assert evictable[i].id in a.refused;
    }
  }

  /** What counts as blocked on a drained node: pods the options hold back, and stuck ones. */
  lemma BlockedCount(a: Account, r: Run, listedAt: nat, n: string, cfg: DrainConfig, entries: seq<NodeStatus>,
                     results: seq<DrainResult>, i: nat, at: Time)
    requires DistinctResults(results) && i < |results| && results[i].name == n
    requires Explains(a, r, listedAt, n, cfg, results[i]) && Lookup(entries, n).Some?
    ensures var e := Lookup(FoldResults(entries, results, at), n);
            e.Some? && e.value.blockedPods == |OfClass(a.pods, cfg, a.now, Blocked)| + |OfClass(a.pods, cfg, a.now, Stuck)|
  {
    assert a.classes.Bucket(Blocked) == OfClass(a.pods, cfg, a.now, Blocked);
    assert a.classes.Bucket(Stuck) == OfClass(a.pods, cfg, a.now, Stuck);
    LookupAfterFold(entries, results, at, n);
    EntryOfListed(Lookup(entries, n).value, a, n, at);
  }

  lemma EntryOfListed(e: NodeStatus, a: Account, n: string, at: Time)
    ensures EntryAfter(e, ResultOf(n, a.classes, a.evicted, a.refused, a.failed), at).blockedPods
            == |a.classes.blocked| + |a.classes.stuck|
  {
  }

  lemma ListedReport(listed: Run, r: Run, plan: Plan, seen: Node, a: Account, cfg: DrainConfig)
    requires Reachable(r) && Extends(listed, r)
    requires seen.unschedulable && IsNodeReady(seen) && DrainTarget(r, plan.name, seen)
    requires GetDrainConfig(plan.spec) == Some(cfg)
    requires Lists(listed.world.pods, seen.name, a.pods) && Classified(a.pods, cfg, a.now, a.classes)
    requires !a.failed && a.evicted == 0 && a.refused == []
             ==> forall i :: 0 <= i < |a.classes.evictable| ==> a.classes.evictable[i].id !in r.world.pods
    ensures SoundReport(r, plan, Report(ResultOf(seen.name, a.classes, a.evicted, a.refused, a.failed), seen, Length(listed)))
  {
    hide Lists, Classified, DrainTarget, Reachable, Extends, ListedWorkloadGone;
    if FullyDrained(ResultOf(seen.name, a.classes, a.evicted, a.refused, a.failed)) {
      DrainedIsEmpty(listed, r, seen.name, a.pods, cfg, a.now, a.classes);
    }
    AtExtended(listed, r, Length(listed));
  }

  /** The run ends in a drain report of plan p that covers node n. */
  ghost predicate ReportedOn(r: Run, p: string, n: string) {
    && r.Then? && r.step.PublishDrain? && r.step.plan == p
    && exists i :: 0 <= i < |r.step.reports| && r.step.reports[i].result.name == n
  }

  /** The unschedulable ones among the named copies are in one list or the other. */
  ghost predicate Covers(names: seq<string>, nodes: map<string, Node>, toDrain: seq<string>, skipped: seq<DrainResult>) {
    forall n :: n in names && n in nodes && nodes[n].unschedulable
      ==> n in toDrain || exists k :: 0 <= k < |skipped| && skipped[k].name == n
  }

  lemma NothingCovered(names: seq<string>, nodes: map<string, Node>)
    requires Covers(names, nodes, [], [])
    ensures forall n :: n in names && n in nodes ==> !nodes[n].unschedulable
  {
  }

  lemma NoneToCover(nodes: map<string, Node>)
    ensures Covers([], nodes, [], [])
  {
  }

  lemma CoveredIsReported(r: Run, p: string, names: seq<string>, nodes: map<string, Node>, toDrain: seq<string>,
                          skipped: seq<DrainResult>, drained: seq<DrainResult>, reports: seq<Report>)
    requires r.Then? && r.step.PublishDrain? && r.step.plan == p && r.step.reports == reports
    requires ResultsOf(reports) == skipped + drained && Covers(names, nodes, toDrain, skipped)
    requires |drained| == |toDrain| && forall i :: 0 <= i < |toDrain| ==> drained[i].name == toDrain[i]
    ensures forall n :: n in names && n in nodes && nodes[n].unschedulable ==> ReportedOn(r, p, n)
  {
    forall n | n in names && n in nodes && nodes[n].unschedulable ensures ReportedOn(r, p, n) {
      if n in toDrain {
        var i :| 0 <= i < |toDrain| && toDrain[i] == n;
        assert ResultsOf(reports)[|skipped| + i] == drained[i];
      } else {
        var k :| 0 <= k < |skipped| && skipped[k].name == n;
        assert ResultsOf(reports)[k] == skipped[k];
      }
    }
  }

  lemma CoversMore(names: seq<string>, n: string, nodes: map<string, Node>, toDrain: seq<string>, skipped: seq<DrainResult>,
                   r: DrainResult)
    requires Covers(names, nodes, toDrain, skipped)
    ensures Covers(names + [n], nodes, toDrain + [n], skipped)
    ensures r.name == n ==> Covers(names + [n], nodes, toDrain, skipped + [r])
    ensures n in nodes && !nodes[n].unschedulable ==> Covers(names + [n], nodes, toDrain, skipped)
  {
    forall m | m in names && m in nodes && nodes[m].unschedulable && m !in toDrain
      ensures exists k :: 0 <= k < |skipped + [r]| && (skipped + [r])[k].name == m
    {
      var k :| 0 <= k < |skipped| && skipped[k].name == m;
      assert (skipped + [r])[k].name == m;
    }
    assert (skipped + [r])[|skipped|] == r;
  }

  lemma ListingKept(listed: Run, r: Run, p: string)
    requires Onward(listed, r, p)
    ensures At(r, Length(listed)) == listed.world
  {
    AtExtended(listed, r, Length(listed));
    AtEnd(listed);
  }

  lemma OnwardReflexive(r: Run, p: string)
    ensures Onward(r, r, p)
  {
  }

  lemma ExtendsReflexive(r: Run)
    ensures Extends(r, r)
  {
  }

  lemma NoTotalsMoved(r: Run, p: string, s: Status)
    ensures TotalsFollow(r, r, p, s, s)
  {
  }

  lemma JoinResults(skipped: seq<DrainResult>, drained: seq<DrainResult>, stable: seq<string>, toDrain: seq<string>)
    requires DistinctResults(skipped) && Distinct(toDrain) && |drained| == |toDrain|
    requires forall i :: 0 <= i < |drained| ==> drained[i].name == toDrain[i]
    requires forall i :: 0 <= i < |skipped| ==> skipped[i].name !in toDrain
    ensures DistinctResults(skipped + drained)
  {
    var all := skipped + drained;
    forall i, j | 0 <= i < j < |all| ensures all[i].name != all[j].name {
      if i < |skipped| <= j {
        assert all[j].name == toDrain[j - |skipped|] && toDrain[j - |skipped|] in toDrain;
      }
    }
  }
}
