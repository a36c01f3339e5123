/**
 Folding the per-node drain outcomes of one pass into the plan status.
 */
module DrainFold {
  import opened Api
  import opened StatusUpdate

  const DRAIN_CHECK_INTERVAL: int := 5
  const DRAIN_BLOCKED_RETRY: int := 15

  datatype Outcome = Outcome(
    evicted: nat, total: nat, evictable: nat, terminating: nat, stuckTerminating: nat, stuckPods: seq<PodId>)

  const NO_OUTCOME: Outcome := Outcome(0, 0, 0, 0, 0, [])

  datatype DrainError =
    | NoError
    | NotReadyError(since: Option<Time>)
    | BlockedError(pods: seq<PodId>, budget: bool)
    | OtherError

  datatype DrainResult = DrainResult(name: string, outcome: Outcome, err: DrainError)

  predicate FullyDrained(r: DrainResult) {
    r.err == NoError && r.outcome.evicted == 0 && r.outcome.terminating == 0 && r.outcome.stuckTerminating == 0
  }

  predicate InFlight(r: DrainResult) {
    match r.err
    case NoError => r.outcome.evicted > 0 || r.outcome.terminating > 0
    case BlockedError(_, _) => r.outcome.terminating > 0
    case _ => false
  }

  predicate Blocking(r: DrainResult) {
    match r.err
    case NoError => r.outcome.evicted == 0 && r.outcome.stuckTerminating > 0
    case NotReadyError(_) => true
    case BlockedError(_, _) => true
    case OtherError => false
  }

  function PodIssues(kind: IssueKind, pods: seq<PodId>): seq<Issue> {
    seq(|pods|, i requires 0 <= i < |pods| => Issue(kind, Some(pods[i])))
  }

  function IssuesOf(r: DrainResult, now: Time): seq<Issue> {
    var stuck := PodIssues(StuckTerminating, r.outcome.stuckPods);
    match r.err
    case NoError => if FullyDrained(r) then [] else stuck
    case NotReadyError(since) => [Issue(if LongNotReady(since, now) then NotReadyYielded else NotReadyWaiting, None)]
    case BlockedError(pods, budget) => PodIssues(if budget then BudgetBlocked else ConfigBlocked, pods) + stuck
    case OtherError => stuck
  }

  /* ----- Changes to a single entry ----- */

  datatype Change = Count(outcome: Outcome, issues: seq<Issue>) | SetIssues(issues: seq<Issue>) | MarkReady

  function Min(a: int, b: int): int {
    if a < b then a else b
  }

  function Progress(initial: nat, total: nat): int
    requires initial > 0
  {
    (initial - Min(total, initial)) * 100 / initial
  }

  function Changed(e: NodeStatus, change: Change): NodeStatus {
    match change
    case Count(outcome, issues) =>
      var initial := if e.initialPods == 0 && outcome.total > 0 then outcome.total else e.initialPods;
      e.(initialPods := initial,
         totalPods := outcome.total,
         evictablePods := outcome.evictable,
         blockedPods := outcome.total - outcome.evictable - outcome.terminating,
         evictedTotal := e.evictedTotal + outcome.evicted,
         issues := issues,
         progress := if initial > 0 then Progress(initial, outcome.total) else e.progress)
    case SetIssues(issues) => e.(issues := issues)
    case MarkReady => if !e.cordoned || e.ready then e else e.(ready := true, progress := 100)
  }

  /** The first entry of that name changes, nothing else. */
  function ChangeFirst(entries: seq<NodeStatus>, name: string, change: Change): (r: seq<NodeStatus>)
    ensures |r| == |entries|
    ensures forall i :: 0 <= i < |entries| ==> r[i].name == entries[i].name
  {
    if entries == [] then []
    else if entries[0].name == name then [Changed(entries[0], change)] + entries[1..]
    else [entries[0]] + ChangeFirst(entries[1..], name, change)
  }

  method ChangeEntry(entries: seq<NodeStatus>, name: string, change: Change) returns (r: seq<NodeStatus>)
    ensures r == ChangeFirst(entries, name, change)
  {
    for i := 0 to |entries|
      invariant forall k :: 0 <= k < i ==> entries[k].name != name
    {
      if entries[i].name == name {
        ChangeFirstAt(entries, name, change, i);
        return entries[i := Changed(entries[i], change)];
      }
    }
    ChangeFirstAt(entries, name, change, |entries|);
    return entries;
  }

  lemma {:induction false} ChangeFirstAt(entries: seq<NodeStatus>, name: string, change: Change, i: nat)
    requires i <= |entries| && forall k :: 0 <= k < i ==> entries[k].name != name
    requires i < |entries| ==> entries[i].name == name
    ensures ChangeFirst(entries, name, change)
            == if i < |entries| then entries[i := Changed(entries[i], change)] else entries
  {
    if i > 0 {
      ChangeFirstAt(entries[1..], name, change, i - 1);
      assert entries == [entries[0]] + entries[1..];
    } else if entries != [] {
      assert entries[0 := Changed(entries[0], change)] == [Changed(entries[0], change)] + entries[1..];
    }
  }

  lemma {:induction false} LookupAfterChange(entries: seq<NodeStatus>, name: string, change: Change, n: string)
    ensures Lookup(ChangeFirst(entries, name, change), n)
            == match Lookup(entries, n)
               case Some(e) => Some(if n == name then Changed(e, change) else e)
               case None => None
  {
    if entries != [] {
      var r := ChangeFirst(entries, name, change);
      if entries[0].name == name {
        assert r[1..] == entries[1..];
      } else {
        assert r[1..] == ChangeFirst(entries[1..], name, change);
        LookupAfterChange(entries[1..], name, change, n);
      }
    }
  }

  /* ----- The fold ----- */

  function AfterResult(entries: seq<NodeStatus>, r: DrainResult, now: Time): (s: seq<NodeStatus>)
    ensures |s| == |entries|
    ensures forall i :: 0 <= i < |entries| ==> s[i].name == entries[i].name
  {
    if FullyDrained(r) then
      ChangeFirst(ChangeFirst(entries, r.name, Count(r.outcome, [])), r.name, MarkReady)
    else if r.err.NotReadyError? then ChangeFirst(entries, r.name, SetIssues(IssuesOf(r, now)))
    else ChangeFirst(entries, r.name, Count(r.outcome, IssuesOf(r, now)))
  }

  function EntryAfter(e: NodeStatus, r: DrainResult, now: Time): NodeStatus {
    if FullyDrained(r) then Changed(Changed(e, Count(r.outcome, [])), MarkReady)
    else if r.err.NotReadyError? then Changed(e, SetIssues(IssuesOf(r, now)))
    else Changed(e, Count(r.outcome, IssuesOf(r, now)))
  }

  lemma LookupAfterResult(entries: seq<NodeStatus>, r: DrainResult, now: Time, n: string)
    ensures Lookup(AfterResult(entries, r, now), n)
            == match Lookup(entries, n)
               case Some(e) => Some(if n == r.name then EntryAfter(e, r, now) else e)
               case None => None
  {
    LookupAfterChange(entries, r.name, Count(r.outcome, IssuesOf(r, now)), n);
    LookupAfterChange(entries, r.name, SetIssues(IssuesOf(r, now)), n);
    LookupAfterChange(entries, r.name, Count(r.outcome, []), n);
    LookupAfterChange(ChangeFirst(entries, r.name, Count(r.outcome, [])), r.name, MarkReady, n);
  }

  function FoldResults(entries: seq<NodeStatus>, results: seq<DrainResult>, now: Time): (s: seq<NodeStatus>)
    ensures |s| == |entries|
    ensures forall i :: 0 <= i < |entries| ==> s[i].name == entries[i].name
  {
    if results == [] then entries
    else
      var n := |results| - 1;
      AfterResult(FoldResults(entries, results[..n], now), results[n], now)
  }

  ghost predicate DistinctResults(results: seq<DrainResult>) {
    forall i, j :: 0 <= i < j < |results| ==> results[i].name != results[j].name
  }

  /** Every entry is changed by the one result that names it, or not at all. */
  lemma {:induction false} LookupAfterFold(entries: seq<NodeStatus>, results: seq<DrainResult>, now: Time, n: string)
    requires DistinctResults(results)
    ensures Lookup(entries, n).None? ==> Lookup(FoldResults(entries, results, now), n) == None
    ensures Lookup(entries, n).Some? ==>
      forall i :: 0 <= i < |results| && results[i].name == n ==>
        Lookup(FoldResults(entries, results, now), n) == Some(EntryAfter(Lookup(entries, n).value, results[i], now))
    ensures (forall i :: 0 <= i < |results| ==> results[i].name != n)
            ==> Lookup(FoldResults(entries, results, now), n) == Lookup(entries, n)
  {
    hide AfterResult, EntryAfter, Lookup;
    if results != [] {
      var k := |results| - 1;
      LookupAfterFold(entries, results[..k], now, n);
      LookupAfterResult(FoldResults(entries, results[..k], now), results[k], now, n);
      assert forall i | 0 <= i < k :: results[..k][i] == results[i];
    }
  }

  ghost predicate AllDone(results: seq<DrainResult>) {
    forall i :: 0 <= i < |results| ==> FullyDrained(results[i])
  }

  ghost predicate AnyInFlight(results: seq<DrainResult>) {
    exists i :: 0 <= i < |results| && InFlight(results[i])
  }

  ghost predicate AnyBlocking(results: seq<DrainResult>) {
    exists i :: 0 <= i < |results| && Blocking(results[i])
  }

  ghost predicate AllNodesReady(entries: seq<NodeStatus>) {
    entries != [] && forall i :: 0 <= i < |entries| ==> entries[i].ready
  }

  function DrainConditions(conditions: set<Condition>, allDone: bool, anyBlocked: bool, inFlight: bool): set<Condition> {
    if allDone then conditions + {DrainSucceeded} - {DrainInProgress} - {DrainBlocked}
    else if anyBlocked && !inFlight then conditions + {DrainBlocked} - {DrainInProgress} - {DrainSucceeded}
    else SetCondition(conditions + {DrainInProgress} - {DrainSucceeded}, DrainBlocked, anyBlocked)
  }

  function Timeout(spec: Spec): Option<int> {
    if spec.drain.Some? then spec.drain.value.timeoutMinutes else None
  }

  ghost function StartedAt(status: Status, results: seq<DrainResult>, now: Time): Option<Time> {
    if !AllDone(results) && status.drainStartedAt.None? then Some(now) else status.drainStartedAt
  }

  ghost predicate Expires(plan: Plan, results: seq<DrainResult>, now: Time) {
    && !AllDone(results)
    && Timeout(plan.spec).Some?
    && now > StartedAt(plan.status, results, now).value + Timeout(plan.spec).value * MINUTE
  }

  function TimedOutStatus(s: Status): Status {
    s.(conditions := SetCondition(SetCondition(SetCondition(
         s.conditions, DrainTimedOut, true), DrainInProgress, false), DrainSucceeded, false))
  }

  function SettledStatus(s: Status, allDone: bool, anyBlocked: bool, inFlight: bool, ready: bool): Status {
    Recomputed(s.(conditions := DrainConditions(s.conditions, allDone, anyBlocked, inFlight), allReady := ready))
  }

  function Requeue(allDone: bool, inFlight: bool): int {
    if allDone then 0 else if inFlight then DRAIN_CHECK_INTERVAL else DRAIN_BLOCKED_RETRY
  }

  /** The status a drain pass leaves behind, and the requeue it asks for. */
  ghost function AppliedDrain(plan: Plan, results: seq<DrainResult>, now: Time): (Status, int) {
    var entries := FoldResults(plan.status.nodes, results, now);
    var s := plan.status.(nodes := entries, drainStartedAt := StartedAt(plan.status, results, now));
    if Expires(plan, results, now) then (TimedOutStatus(s), 0)
    else
      (SettledStatus(s, AllDone(results), AnyBlocking(results), AnyInFlight(results), AllNodesReady(entries)),
       Requeue(AllDone(results), AnyInFlight(results)))
  }

  method ApplyDrainResults(plan: Plan, results: seq<DrainResult>, now: Time) returns (status: Status, requeue: int)
    ensures (status, requeue) == AppliedDrain(plan, results, now)
  {
    var entries, allDone, inFlight, anyBlocked := FoldOutcomes(plan.status.nodes, results, now);
    status := plan.status.(nodes := entries);

    if !allDone {
      if status.drainStartedAt.None? {
        status := status.(drainStartedAt := Some(now));
      }
      if plan.spec.drain.Some? && plan.spec.drain.value.timeoutMinutes.Some? {
        var deadline := status.drainStartedAt.value + plan.spec.drain.value.timeoutMinutes.value * MINUTE;
        if now > deadline {
          return TimedOutStatus(status), 0;
        }
      }
    }

    var ready := CheckAllReady(entries);
    status := status.(conditions := SetDrainConditions(status.conditions, allDone, anyBlocked, inFlight),
                      allReady := ready);
    status := RecomputePlanSummaries(status);
    requeue := if allDone then 0 else if inFlight then DRAIN_CHECK_INTERVAL else DRAIN_BLOCKED_RETRY;
  }

  method FoldOutcomes(nodes: seq<NodeStatus>, results: seq<DrainResult>, now: Time)
    returns (entries: seq<NodeStatus>, allDone: bool, inFlight: bool, anyBlocked: bool)
    ensures entries == FoldResults(nodes, results, now)
    ensures allDone == AllDone(results) && inFlight == AnyInFlight(results) && anyBlocked == AnyBlocking(results)
  {
    entries, allDone, inFlight, anyBlocked := nodes, true, false, false;
    for i := 0 to |results|
      invariant entries == FoldResults(nodes, results[..i], now)
      invariant allDone == AllDone(results[..i])
      invariant inFlight == AnyInFlight(results[..i])
      invariant anyBlocked == AnyBlocking(results[..i])
    {
      FlagsOfPrefix(results, i);
      assert results[..i + 1][..i] == results[..i];
      var done, flying, blocked;
      entries, done, flying, blocked := FoldOutcome(entries, results[i], now);
      allDone, inFlight, anyBlocked := allDone && done, inFlight || flying, anyBlocked || blocked;
    }
    assert results[..|results|] == results;
  }

  lemma FlagsOfPrefix(results: seq<DrainResult>, i: nat)
    requires i < |results|
    ensures AllDone(results[..i + 1]) == (AllDone(results[..i]) && FullyDrained(results[i]))
    ensures AnyInFlight(results[..i + 1]) == (AnyInFlight(results[..i]) || InFlight(results[i]))
    ensures AnyBlocking(results[..i + 1]) == (AnyBlocking(results[..i]) || Blocking(results[i]))
  {
    var a, b := results[..i], results[..i + 1];
    assert b == a + [results[i]];
    assert b[i] == results[i];
    assert forall k | 0 <= k < i :: b[k] == a[k];
  }

  /** One turn of the source's switch. */
  method FoldOutcome(nodes: seq<NodeStatus>, r: DrainResult, now: Time)
    returns (entries: seq<NodeStatus>, done: bool, flying: bool, blocked: bool)
    ensures entries == AfterResult(nodes, r, now)
    ensures done == FullyDrained(r) && flying == InFlight(r) && blocked == Blocking(r)
  {
    done, flying, blocked := false, false, false;
    match r.err {
      case NoError =>
        if r.outcome.evicted == 0 && r.outcome.terminating == 0 && r.outcome.stuckTerminating == 0 {
          done := true;
          entries := ChangeEntry(nodes, r.name, Count(r.outcome, []));
          entries := ChangeEntry(entries, r.name, MarkReady);
        } else if r.outcome.evicted > 0 {
          flying := true;
          entries := ChangeEntry(nodes, r.name, Count(r.outcome, IssuesOf(r, now)));
        } else if r.outcome.stuckTerminating > 0 {
          blocked := true;
          if r.outcome.terminating > 0 {
            flying := true;
          }
          entries := ChangeEntry(nodes, r.name, Count(r.outcome, IssuesOf(r, now)));
        } else {
          flying := true;
          entries := ChangeEntry(nodes, r.name, Count(r.outcome, IssuesOf(r, now)));
        }
      case NotReadyError(_) =>
        blocked := true;
        entries := ChangeEntry(nodes, r.name, SetIssues(IssuesOf(r, now)));
      case BlockedError(_, _) =>
        blocked := true;
        if r.outcome.terminating > 0 {
          flying := true;
        }
        entries := ChangeEntry(nodes, r.name, Count(r.outcome, IssuesOf(r, now)));
      case OtherError =>
        entries := ChangeEntry(nodes, r.name, Count(r.outcome, IssuesOf(r, now)));
    }
  }

  function SetDrainConditions(conditions: set<Condition>, allDone: bool, anyBlocked: bool, inFlight: bool): (r: set<Condition>)
    ensures r == DrainConditions(conditions, allDone, anyBlocked, inFlight)
  {
    if allDone then
      var c := SetCondition(conditions, DrainSucceeded, true);
      var c' := SetCondition(c, DrainInProgress, false);
      SetCondition(c', DrainBlocked, false)
    else if anyBlocked && !inFlight then
      var c := SetCondition(conditions, DrainBlocked, true);
      var c' := SetCondition(c, DrainInProgress, false);
      SetCondition(c', DrainSucceeded, false)
    else
      var c := SetCondition(conditions, DrainInProgress, true);
      var c' := SetCondition(c, DrainSucceeded, false);
      SetCondition(c', DrainBlocked, anyBlocked)
  }

  method CheckAllReady(entries: seq<NodeStatus>) returns (ready: bool)
    ensures ready == AllNodesReady(entries)
  {
    if |entries| == 0 {
      return false;
    }
    for i := 0 to |entries|
      invariant forall k :: 0 <= k < i ==> entries[k].ready
    {
      if !entries[i].ready {
        return false;
      }
    }
    return true;
  }

  /* ----- Order independence ----- */

  lemma SameLookupsSameEntries(a: seq<NodeStatus>, b: seq<NodeStatus>)
    requires DistinctNames(a) && |a| == |b|
    requires forall i :: 0 <= i < |a| ==> a[i].name == b[i].name
    requires forall i :: 0 <= i < |a| ==> Lookup(a, a[i].name) == Lookup(b, a[i].name)
    ensures a == b
  {
    forall i | 0 <= i < |a| ensures a[i] == b[i] {
      LookupFinds(a, i);
      LookupFinds(b, i);
    }
  }

  lemma PermutationKeepsDistinct(results: seq<DrainResult>, permuted: seq<DrainResult>)
    requires multiset(results) == multiset(permuted) && DistinctResults(results)
    ensures DistinctResults(permuted)
    ensures forall r :: r in results <==> r in permuted
  {
    assert forall r :: r in results <==> r in multiset(results);
    assert forall r :: r in permuted <==> r in multiset(permuted);
    forall i, j | 0 <= i < j < |permuted| ensures permuted[i].name != permuted[j].name {
      if permuted[i] == permuted[j] {
        var r := permuted[i];
        assert permuted == permuted[..i] + [r] + permuted[i + 1..j] + [r] + permuted[j + 1..];
        assert multiset(permuted)[r] >= 2;
        OccursOnce(results, r);
      } else {
        assert permuted[i] in results && permuted[j] in results;
      }
    }
  }

  lemma {:induction false} OccursOnce(results: seq<DrainResult>, r: DrainResult)
    requires DistinctResults(results)
    ensures multiset(results)[r] <= 1
  {
    if results != [] {
      OccursOnce(results[1..], r);
      assert results == [results[0]] + results[1..];
      if results[0] == r {
        assert r !in results[1..];
      }
    }
  }

  lemma FoldIgnoresOrder(entries: seq<NodeStatus>, results: seq<DrainResult>, permuted: seq<DrainResult>, now: Time)
    requires DistinctNames(entries) && DistinctResults(results) && DistinctResults(permuted)
    requires forall r :: r in results <==> r in permuted
    ensures FoldResults(entries, results, now) == FoldResults(entries, permuted, now)
  {
    hide FoldResults, EntryAfter, Lookup;
    var a, b := FoldResults(entries, results, now), FoldResults(entries, permuted, now);
    forall i | 0 <= i < |a| ensures Lookup(a, a[i].name) == Lookup(b, a[i].name) {
      var n := a[i].name;
      LookupAfterFold(entries, results, now, n);
      LookupAfterFold(entries, permuted, now, n);
      if k :| 0 <= k < |results| && results[k].name == n {
        assert results[k] in permuted;
        var j :| 0 <= j < |permuted| && permuted[j] == results[k];
      } else {
        assert forall j | 0 <= j < |permuted| :: permuted[j] in results;
      }
    }
    SameLookupsSameEntries(a, b);
  }

  /** The order in which a map iteration delivers the results does not show. */
  lemma OrderIndependent(plan: Plan, results: seq<DrainResult>, permuted: seq<DrainResult>, now: Time)
    requires DistinctNames(plan.status.nodes)
    requires DistinctResults(results) && multiset(results) == multiset(permuted)
    ensures AppliedDrain(plan, results, now) == AppliedDrain(plan, permuted, now)
  {
    PermutationKeepsDistinct(results, permuted);
    FoldIgnoresOrder(plan.status.nodes, results, permuted, now);
    SameFlags(results, permuted);
    hide AllDone, AnyInFlight, AnyBlocking, FoldResults, SettledStatus, TimedOutStatus, AllNodesReady;
  }

  lemma SameFlags(results: seq<DrainResult>, permuted: seq<DrainResult>)
    requires forall r :: r in results <==> r in permuted
    ensures AllDone(results) == AllDone(permuted)
    ensures AnyInFlight(results) == AnyInFlight(permuted)
    ensures AnyBlocking(results) == AnyBlocking(permuted)
  {
    assert AllDone(results) <==> forall r | r in results :: FullyDrained(r);
    assert AllDone(permuted) <==> forall r | r in permuted :: FullyDrained(r);
    assert AnyInFlight(results) <==> exists r | r in results :: InFlight(r);
    assert AnyInFlight(permuted) <==> exists r | r in permuted :: InFlight(r);
    assert AnyBlocking(results) <==> exists r | r in results :: Blocking(r);
    assert AnyBlocking(permuted) <==> exists r | r in permuted :: Blocking(r);
  }

  /* ----- What the verdicts mean ----- */

  /** Off the timeout path the three drain conditions and the requeue tell one story. */
  lemma DrainVerdicts(plan: Plan, results: seq<DrainResult>, now: Time)
    requires !Expires(plan, results, now)
    ensures var (s, requeue) := AppliedDrain(plan, results, now);
            && (DrainSucceeded in s.conditions <==> AllDone(results))
            && (requeue == 0 <==> AllDone(results))
            && (DrainSucceeded in s.conditions ==> DrainInProgress !in s.conditions && DrainBlocked !in s.conditions)
            && (DrainSucceeded !in s.conditions ==> DrainInProgress in s.conditions || DrainBlocked in s.conditions)
            && (s.allReady <==> s.nodes != [] && forall i :: 0 <= i < |s.nodes| ==> s.nodes[i].ready)
            && (DrainTimedOut in s.conditions <==> DrainTimedOut in plan.status.conditions)
            && (requeue == DRAIN_CHECK_INTERVAL <==> AnyInFlight(results))
  {
    if AnyInFlight(results) {
      var i :| 0 <= i < |results| && InFlight(results[i]);
      assert !FullyDrained(results[i]);
    }
  }

  /** What a drain status says, told from the results: nothing is left; something is held up,
      because a node is NotReady, pods are held back or refused, or only stuck ones are left;
      something is on its way out. */
  ghost predicate NothingLeftBy(results: seq<DrainResult>) {
    forall r :: r in results ==>
      r.err == NoError && r.outcome.evicted == 0 && r.outcome.terminating == 0 && r.outcome.stuckTerminating == 0
  }

  ghost predicate HeldUpBy(results: seq<DrainResult>) {
    exists r :: r in results &&
      (r.err.NotReadyError? || r.err.BlockedError?
       || (r.err == NoError && r.outcome.evicted == 0 && r.outcome.stuckTerminating > 0))
  }

  ghost predicate MovingBy(results: seq<DrainResult>) {
    exists r :: r in results &&
      ((r.err == NoError && (r.outcome.evicted > 0 || r.outcome.terminating > 0))
       || (r.err.BlockedError? && r.outcome.terminating > 0))
  }

  lemma FlagsMean(results: seq<DrainResult>)
    ensures AllDone(results) <==> NothingLeftBy(results)
    ensures AnyBlocking(results) <==> HeldUpBy(results)
    ensures AnyInFlight(results) <==> MovingBy(results)
    ensures NothingLeftBy(results) ==> !HeldUpBy(results) && !MovingBy(results)
  {
    assert forall r | r in results :: exists i :: 0 <= i < |results| && results[i] == r;
    assert forall i | 0 <= i < |results| :: results[i] in results;
    assert AllDone(results) <==> forall r | r in results :: FullyDrained(r);
    assert AnyBlocking(results) <==> exists r | r in results :: Blocking(r);
    assert AnyInFlight(results) <==> exists r | r in results :: InFlight(r);
  }

  /** When a drain pass runs out of time. */
  lemma ExpiresMeans(plan: Plan, results: seq<DrainResult>, now: Time)
    ensures var started := if plan.status.drainStartedAt.Some? then plan.status.drainStartedAt.value else now;
            Expires(plan, results, now) <==>
              && !NothingLeftBy(results)
              && plan.spec.drain.Some? && plan.spec.drain.value.timeoutMinutes.Some?
              && now > started + plan.spec.drain.value.timeoutMinutes.value * 60
    ensures AppliedDrain(plan, results, now).0.drainStartedAt
            == if plan.status.drainStartedAt.None? && !NothingLeftBy(results) then Some(now) else plan.status.drainStartedAt
  {
    FlagsMean(results);
  }

  /** Off the timeout path: each drain condition, the requeue in seconds, and what stays. */
  lemma DrainStatusMeans(plan: Plan, results: seq<DrainResult>, now: Time)
    requires !Expires(plan, results, now)
    ensures var (s, requeue) := AppliedDrain(plan, results, now);
            && (DrainSucceeded in s.conditions <==> NothingLeftBy(results))
            && (DrainBlocked in s.conditions <==> HeldUpBy(results))
            && (DrainInProgress in s.conditions <==> !NothingLeftBy(results) && (MovingBy(results) || !HeldUpBy(results)))
            && requeue == (if NothingLeftBy(results) then 0 else if MovingBy(results) then 5 else 15)
            && (forall c :: c !in {DrainSucceeded, DrainBlocked, DrainInProgress} ==>
                  (c in s.conditions <==> c in plan.status.conditions))
            && (s.allReady <==> s.nodes != [] && forall e :: e in s.nodes ==> e.ready)
            && s.summary == SummaryOf(s.nodes) && s.phase == Recomputed(s).phase
            && s.snapshotTaken == plan.status.snapshotTaken && s.resolvedNodes == plan.status.resolvedNodes
  {
    FlagsMean(results);
    ReadyMeans(AppliedDrain(plan, results, now).0.nodes);
    hide AllDone, AnyBlocking, AnyInFlight, AllNodesReady, FoldResults, NothingLeftBy, HeldUpBy, MovingBy, SummaryOf;
  }

  lemma ReadyMeans(entries: seq<NodeStatus>)
    ensures AllNodesReady(entries) <==> entries != [] && forall e :: e in entries ==> e.ready
  {
    assert forall i | 0 <= i < |entries| :: entries[i] in entries;
  }

  /** On it: the verdict, a drain that is neither in progress nor done, no requeue; phase,
      summary and the ready flag of the plan stay what they were. */
  lemma TimeoutStatusMeans(plan: Plan, results: seq<DrainResult>, now: Time)
    requires Expires(plan, results, now)
    ensures var (s, requeue) := AppliedDrain(plan, results, now);
            && requeue == 0 && DrainTimedOut in s.conditions
            && DrainInProgress !in s.conditions && DrainSucceeded !in s.conditions
            && (forall c :: c !in {DrainTimedOut, DrainInProgress, DrainSucceeded} ==>
                  (c in s.conditions <==> c in plan.status.conditions))
            && s.allReady == plan.status.allReady && s.phase == plan.status.phase && s.summary == plan.status.summary
            && s.snapshotTaken == plan.status.snapshotTaken && s.resolvedNodes == plan.status.resolvedNodes
  {
  }

  /** The issues of these pods are those listed from position k on. */
  ghost predicate IssuesFor(issues: seq<Issue>, k: nat, kind: IssueKind, pods: seq<PodId>) {
    k + |pods| <= |issues| && forall i :: 0 <= i < |pods| ==> issues[k + i] == Issue(kind, Some(pods[i]))
  }

  /** What a result makes of its node's entry: for a node that was not drained the reason alone;
      else the counts, the issues by kind, and the progress from the first non-empty count. */
  lemma EntryAfterMeans(e: NodeStatus, r: DrainResult, now: Time)
    requires e.initialPods >= 0
    ensures var (e', o) := (EntryAfter(e, r, now), r.outcome);
            var drained := r.err == NoError && o.evicted == 0 && o.terminating == 0 && o.stuckTerminating == 0;
            && (r.err.NotReadyError? ==>
                  var yielded := r.err.since.Some? && now - r.err.since.value >= 300;
                  && e' == e.(issues := e'.issues)
                  && e'.issues == [Issue(if yielded then NotReadyYielded else NotReadyWaiting, None)])
            && (!r.err.NotReadyError? ==>
                  && (e'.totalPods, e'.evictablePods) == (o.total, o.evictable)
                  && e'.blockedPods == o.total - o.evictable - o.terminating
                  && e'.evictedTotal == e.evictedTotal + o.evicted
                  && e'.initialPods == (if e.initialPods > 0 then e.initialPods else o.total)
                  && (drained && e.cordoned && !e.ready ==> e'.ready && e'.progress == 100)
                  && (!(drained && e.cordoned && !e.ready) && e'.initialPods == 0 ==> e'.progress == e.progress)
                  && (!(drained && e.cordoned && !e.ready) && e'.initialPods > 0 ==>
                        e'.progress == Progress(e'.initialPods, o.total)))
            && (drained ==> e'.issues == [])
            && (!drained && (r.err == NoError || r.err == OtherError) ==>
                  |e'.issues| == |o.stuckPods| && IssuesFor(e'.issues, 0, StuckTerminating, o.stuckPods))
            && (r.err.BlockedError? ==>
                  && |e'.issues| == |r.err.pods| + |o.stuckPods|
                  && IssuesFor(e'.issues, 0, if r.err.budget then BudgetBlocked else ConfigBlocked, r.err.pods)
                  && IssuesFor(e'.issues, |r.err.pods|, StuckTerminating, o.stuckPods))
  {
  }

  /** Progress is the part of the first count that is gone, in percent, rounded down. */
  lemma ProgressMeans(initial: nat, total: nat)
    requires initial > 0
    ensures var gone := if total < initial then initial - total else 0;
            Progress(initial, total) * initial <= gone * 100 < Progress(initial, total) * initial + initial
  {
    FloorMeans((initial - Min(total, initial)) * 100, initial);
  }

  ghost predicate DrainedBy(results: seq<DrainResult>, n: string) {
    exists i :: 0 <= i < |results| && results[i].name == n && FullyDrained(results[i])
  }

  /** Ready is set exactly for a cordoned entry whose result says the node is fully drained. */
  lemma ReadyOnlyWhenDrained(plan: Plan, results: seq<DrainResult>, now: Time, n: string)
    requires DistinctResults(results)
    ensures var before := Lookup(plan.status.nodes, n);
            var after := Lookup(AppliedDrain(plan, results, now).0.nodes, n);
            && (before.None? <==> after.None?)
            && (before.Some? ==>
                  && (after.value.ready <==> before.value.ready || (before.value.cordoned && DrainedBy(results, n)))
                  && (after.value.drifted, after.value.reason) == (before.value.drifted, before.value.reason)
                  && after.value.cordoned == before.value.cordoned
                  && after.value.notReadySince == before.value.notReadySince)
  {
    hide FullyDrained;
    LookupAfterFold(plan.status.nodes, results, now, n);
    var k := ResultIndex(results, n);
    if Lookup(plan.status.nodes, n).Some? && k >= 0 {
      ReadyAfter(Lookup(plan.status.nodes, n).value, results[k], now);
    }
  }

  lemma ResultIndex(results: seq<DrainResult>, n: string) returns (k: int)
    requires DistinctResults(results)
    ensures k < |results|
    ensures if k >= 0 then results[k].name == n && (DrainedBy(results, n) <==> FullyDrained(results[k]))
            else forall i :: 0 <= i < |results| ==> results[i].name != n
  {
    if i :| 0 <= i < |results| && results[i].name == n {
      k := i;
      assert forall j | 0 <= j < |results| && results[j].name == n :: j == k;
    } else {
      k := -1;
    }
  }

  lemma ReadyAfter(e: NodeStatus, r: DrainResult, now: Time)
    ensures var e' := EntryAfter(e, r, now);
            && (e'.ready <==> e.ready || (e.cordoned && FullyDrained(r)))
            && (e'.drifted, e'.reason, e'.cordoned, e'.notReadySince, e'.name)
               == (e.drifted, e.reason, e.cordoned, e.notReadySince, e.name)
  {
  }

  /* ----- Timeout ----- */

  /** The start never moves, the verdict is never withdrawn, and it is given only on a
      pass that is not all done and runs after the deadline counted from the stored start. */
  lemma TimeoutLatch(plan: Plan, results: seq<DrainResult>, now: Time)
    ensures var s := AppliedDrain(plan, results, now).0;
            && (plan.status.drainStartedAt.Some? ==> s.drainStartedAt == plan.status.drainStartedAt)
            && (DrainTimedOut in plan.status.conditions ==> DrainTimedOut in s.conditions)
            && (DrainTimedOut in s.conditions && DrainTimedOut !in plan.status.conditions
                <==> DrainTimedOut !in plan.status.conditions
                     && !AllDone(results) && Timeout(plan.spec).Some? && s.drainStartedAt.Some?
                     && now > s.drainStartedAt.value + Timeout(plan.spec).value * MINUTE)
  {
  }

  /* ----- Progress ----- */

  ghost predicate SoundOutcome(o: Outcome) {
    o.total >= o.evictable + o.terminating + o.stuckTerminating
  }

  ghost predicate SoundEntry(e: NodeStatus) {
    && 0 <= e.progress <= 100
    && 0 <= e.initialPods
    && 0 <= e.blockedPods <= e.totalPods
    && 0 <= e.evictedTotal
  }

  /** Progress is a percentage of the first non-empty count, which never changes again. */
  lemma ProgressFormula(initial: nat, total: nat, fewer: nat)
    requires initial > 0 && fewer <= total
    ensures 0 <= Progress(initial, total) <= 100
    ensures Progress(initial, total) == 100 <==> total == 0
    ensures Progress(initial, total) <= Progress(initial, fewer)
  {
    var a, b := initial - Min(total, initial), initial - Min(fewer, initial);
    QuotientBounds(a * 100, initial);
    QuotientBounds(b * 100, initial);
    QuotientMonotone(a * 100, b * 100, initial);
  }

  lemma QuotientMonotone(a: int, b: int, n: int)
    requires 0 <= a <= b && n > 0
    ensures a / n <= b / n
  {
    var p, q := a / n, b / n;
    assert p * n <= a && b < q * n + n;
    if p > q {
      TimesMonotone(q + 1, p, n);
      assert false;
    }
  }

  lemma EntryStaysSound(e: NodeStatus, r: DrainResult, now: Time)
    requires SoundEntry(e) && SoundOutcome(r.outcome)
    ensures var e' := EntryAfter(e, r, now);
            && SoundEntry(e')
            && (e.initialPods > 0 ==> e'.initialPods == e.initialPods)
            && (!r.err.NotReadyError? ==>
                  && e'.evictedTotal == e.evictedTotal + r.outcome.evicted
                  && e'.totalPods == r.outcome.total
                  && (!FullyDrained(r) && e'.initialPods > 0 ==> (e'.progress == 100 <==> r.outcome.total == 0)))
  {
    if r.outcome.total > 0 || e.initialPods > 0 {
      var initial := if e.initialPods == 0 then r.outcome.total else e.initialPods;
      if initial > 0 {
        ProgressFormula(initial, r.outcome.total, 0);
      }
    }
  }
}
