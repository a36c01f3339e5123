/**
 What NotReadySince records over whole runs: when the current unbroken streak of status
 updates that resolved a node and saw it NotReady began.
 */
module Streak {
  import opened Api
  import opened StatusUpdate
  import opened DrainFold
  import opened Protocol
  import opened Safety

  predicate Updates(step: Step, p: string) {
    step.PublishStatus? && step.plan == p
  }

  /** The update resolved node n and read a copy of it that was not Ready. */
  ghost predicate SawNotReady(step: Step, p: string, n: string) {
    && Updates(step, p)
    && exists i :: 0 <= i < |step.all| && step.all[i].name == n && !IsNodeReady(step.all[i])
  }

  /** The last status update of plan p, if there was one since p exists, saw n NotReady. */
  ghost predicate LastSawNotReady(r: Run, p: string, n: string) {
    && r.Then? && p in r.world.plans
    && (if Updates(r.step, p) then SawNotReady(r.step, p, n) else LastSawNotReady(r.before, p, n))
  }

  /** The last step of r begins a streak. */
  ghost predicate BeginsStreak(r: Run, p: string, n: string) {
    r.Then? && p in r.world.plans && SawNotReady(r.step, p, n) && !LastSawNotReady(r.before, p, n)
  }

  /** From `first` to r plan p exists and every one of its status updates saw n NotReady. */
  ghost predicate Unbroken(first: Run, r: Run, p: string, n: string) {
    first == r ||
    (r.Then? && p in r.world.plans && Unbroken(first, r.before, p, n)
     && (Updates(r.step, p) ==> SawNotReady(r.step, p, n)))
  }

  function Recorded(r: Run, p: string, n: string): Option<Time> {
    if p in r.world.plans then NotReadySince(r.world.plans[p].status.nodes, n) else None
  }

  /** The recursive form of the record: set by the first such update, cleared by any other. */
  ghost function StreakStart(r: Run, p: string, n: string): Option<Time> {
    if r.Begin? || p !in r.world.plans then None
    else if !Updates(r.step, p) then StreakStart(r.before, p, n)
    else if !SawNotReady(r.step, p, n) then None
    else if StreakStart(r.before, p, n).Some? then StreakStart(r.before, p, n)
    else Some(r.step.at)
  }

  lemma UpdateRecords(plan: Plan, all: seq<Node>, conflicting: nat, snapshot: Option<seq<string>>, at: Time, n: string)
    requires DistinctNames(plan.status.nodes) && DistinctNodes(all)
    ensures var before := NotReadySince(plan.status.nodes, n);
            NotReadySince(UpdatedStatus(plan, all, conflicting, snapshot, at).nodes, n)
            == if !(exists i :: 0 <= i < |all| && all[i].name == n && !IsNodeReady(all[i])) then None
               else if before.Some? then before else Some(at)
  {
    if i :| 0 <= i < |all| && all[i].name == n {
      EntryFor(plan, all, at, i);
      ExistingIsLookup(plan.status.nodes, n);
      assert forall k | 0 <= k < |all| && all[k].name == n :: k == i;
    } else {
      NoEntryFor(plan, all, at, n);
    }
  }

  lemma DrainKeepsRecord(r: Run, p: string, n: string)
    requires Reachable(r) && r.Then? && r.step.PublishDrain? && r.step.plan == p
    ensures Recorded(r, p, n) == Recorded(r.before, p, n)
  {
    hide Disturbs, Copied, SoundReport, DrainTarget, EvictedIds, AppliedDrain;
    ReadyOnlyWhenDrained(Seen(r.before.world, p, r.step.spec), ResultsOf(r.step.reports), r.step.at, n);
  }

  lemma RecordStep(r: Run, p: string, n: string)
    requires Reachable(r) && r.Then? && p in r.world.plans
    requires p in r.before.world.plans ==> Recorded(r.before, p, n) == StreakStart(r.before, p, n)
    requires !Active(r.before.world, p) ==> StreakStart(r.before, p, n) == None
    ensures Recorded(r, p, n) == StreakStart(r, p, n)
  {
    hide Disturbs, Copied, Allowed, Evicted, SnapshotRule, SoundReport, Accounts, DrainTarget, AppliedDrain;
    AlwaysInv(r.before);
    var w := r.before.world;
    if Updates(r.step, p) {
      assert PlanInv(w, p);
      UpdateRecords(Seen(w, p, r.step.spec), r.step.all, r.step.conflicting, r.step.snapshot, r.step.at, n);
    } else if r.step.PublishDrain? && r.step.plan == p {
      DrainKeepsRecord(r, p, n);
    } else {
      StatusMoves(r, p);
    }
  }

  /** Only a plan with a finalizer has updated its status. */
  lemma {:induction false} StreakNeedsFinalizer(r: Run, p: string, n: string)
    requires Reachable(r) && StreakStart(r, p, n).Some?
    ensures Active(r.world, p)
  {
    hide Disturbs, Copied, Allowed, Evicted, SnapshotRule, SoundReport;
    if !Updates(r.step, p) {
      StreakNeedsFinalizer(r.before, p, n);
      if !r.step.PublishDrain? {
        StatusMoves(r, p);
      }
    }
  }

  lemma {:induction false} RecordIsStreakStart(r: Run, p: string, n: string)
    requires Reachable(r)
    ensures Recorded(r, p, n) == StreakStart(r, p, n)
  {
    if p in r.world.plans {
      if r.Begin? {
      } else {
        RecordIsStreakStart(r.before, p, n);
        if StreakStart(r.before, p, n).Some? {
          StreakNeedsFinalizer(r.before, p, n);
        }
        RecordStep(r, p, n);
      }
    }
  }

  lemma {:induction false} StreakRunning(r: Run, p: string, n: string)
    ensures StreakStart(r, p, n).Some? <==> LastSawNotReady(r, p, n)
  {
    if r.Then? {
      StreakRunning(r.before, p, n);
    }
  }

  /** A recorded time is that of the update that began the streak still unbroken now. */
  lemma {:induction false} StreakBegan(r: Run, p: string, n: string) returns (first: Run)
    requires Reachable(r) && Recorded(r, p, n).Some?
    ensures Extends(first, r) && BeginsStreak(first, p, n) && Unbroken(first, r, p, n)
    ensures Recorded(r, p, n) == Some(first.step.at)
  {
    RecordIsStreakStart(r, p, n);
    RecordIsStreakStart(r.before, p, n);
    StreakRunning(r.before, p, n);
    if BeginsStreak(r, p, n) {
      first := r;
    } else {
      first := StreakBegan(r.before, p, n);
    }
  }

  /** An unbroken streak is recorded with the time of the update that began it. */
  lemma {:induction false} StreakIsRecorded(first: Run, r: Run, p: string, n: string)
    requires Reachable(r) && BeginsStreak(first, p, n) && Unbroken(first, r, p, n)
    ensures Recorded(r, p, n) == Some(first.step.at)
  {
    RecordIsStreakStart(r, p, n);
    if first == r {
      StreakRunning(r.before, p, n);
    } else {
      StreakIsRecorded(first, r.before, p, n);
      RecordIsStreakStart(r.before, p, n);
    }
  }

  /** A streak whose first update lies at least the threshold before `at`. */
  ghost predicate LongStreak(r: Run, p: string, n: string, at: Time) {
    exists first ::
      && Extends(first, r) && BeginsStreak(first, p, n) && Unbroken(first, r, p, n)
      && at - first.step.at >= NOT_READY_THRESHOLD
  }

  lemma LongRecordIff(r: Run, p: string, n: string, at: Time)
    requires Reachable(r)
    ensures LongNotReady(Recorded(r, p, n), at) <==> LongStreak(r, p, n, at)
  {
    if Recorded(r, p, n).Some? {
      var first := StreakBegan(r, p, n);
      ExtendsReachable(first, r);
      assert LongNotReady(Recorded(r, p, n), at) ==> LongStreak(r, p, n, at);
    }
    if LongStreak(r, p, n, at) {
      var first :|
        && Extends(first, r) && BeginsStreak(first, p, n) && Unbroken(first, r, p, n)
        && at - first.step.at >= NOT_READY_THRESHOLD;
      StreakIsRecorded(first, r, p, n);
    }
  }

  lemma ConditionMeansEntry(r: Run, p: string)
    requires Reachable(r) && r.Then? && Updates(r.step, p)
    ensures p in r.world.plans
    ensures var s := r.world.plans[p].status;
            && DistinctNames(s.nodes)
            && (NodeNotReady in s.conditions
                <==> exists i :: 0 <= i < |s.nodes| && LongNotReady(s.nodes[i].notReadySince, r.step.at))
  {
    hide Copied, SnapshotRule, Allowed, SoundReport, Disturbs;
    AlwaysInv(r);
    assert PlanInv(r.world, p);
  }

  /** The NodeNotReady condition after an update: some node has been seen NotReady by every
      update for at least the threshold. */
  lemma ConditionAfterLongStreak(r: Run, p: string)
    requires Reachable(r) && r.Then? && Updates(r.step, p)
    ensures NodeNotReady in r.world.plans[p].status.conditions
            <==> exists n :: LongStreak(r, p, n, r.step.at)
  {
    hide Does, LongStreak;
    ConditionMeansEntry(r, p);
    var entries := r.world.plans[p].status.nodes;
    if i :| 0 <= i < |entries| && LongNotReady(entries[i].notReadySince, r.step.at) {
      LookupFinds(entries, i);
      LongRecordIff(r, p, entries[i].name, r.step.at);
    }
    if n :| LongStreak(r, p, n, r.step.at) {
      LongRecordIff(r, p, n, r.step.at);
      var i := LookupIndex(entries, n);
    }
  }

  /** Drain yields on a node it does not touch exactly after such a streak. */
  lemma YieldAfterLongStreak(r: Run, p: string, spec: Spec, reports: seq<Report>, at: Time, i: nat)
    requires Reachable(r) && r.Then? && r.step == PublishDrain(p, spec, reports, at) && i < |reports|
    requires reports[i].result.err.NotReadyError?
    ensures Issue(NotReadyYielded, None) in IssuesOf(reports[i].result, at)
            <==> LongStreak(r.before, p, reports[i].result.name, at)
    ensures !IsNodeReady(reports[i].seen) && reports[i].result.outcome.evicted == 0
  {
    assert SoundReport(r.before, Seen(r.before.world, p, spec), reports[i]);
    LongRecordIff(r.before, p, reports[i].result.name, at);
  }

  /* ----- A node seen NotReady, drained all the same ----- */

  /** The answer to plan p's last patch of node n since its status update. */
  function LastAnswer(r: Run, p: string, n: string): Option<Node> {
    if r.Begin? || Renews(r.step, p) then None
    else if r.step.PatchNode? && r.step.plan == p && r.step.seen.name == n && n in r.world.nodes then Some(r.world.nodes[n])
    else LastAnswer(r.before, p, n)
  }

  lemma {:induction false} HandOrAnswer(r: Run, p: string, seen: Node)
    requires Reachable(r)
    ensures InHand(r, p, seen) <==>
      match LastAnswer(r, p, seen.name)
      case Some(answer) => seen == answer
      case None => Covered(r, p, seen)
  {
    if r.Then? {
      hide Disturbs, Copied, Allowed, SnapshotRule, SoundReport, Accounts, UpdatedStatus, AppliedDrain;
      HandOrAnswer(r.before, p, seen);
    }
  }

  /** The copy that the status update resolved is the one it saw. */
  lemma {:induction false} CoveredIsNotReady(r: Run, p: string, seen: Node)
    requires Reachable(r) && LastSawNotReady(r, p, seen.name) && Covered(r, p, seen)
    ensures !IsNodeReady(seen)
  {
    hide Disturbs, Copied, Allowed, SnapshotRule, SoundReport, Accounts, UpdatedStatus, AppliedDrain;
    if Updates(r.step, p) {
      var i :| 0 <= i < |r.step.all| && r.step.all[i].name == seen.name && !IsNodeReady(r.step.all[i]);
      var j :| 0 <= j < |r.step.all| && r.step.all[j] == seen;
      assert i == j;
    } else {
      CoveredIsNotReady(r.before, p, seen);
    }
  }

  lemma {:induction false} AnswerHasName(r: Run, p: string, n: string)
    requires Reachable(r) && LastAnswer(r, p, n).Some?
    ensures LastAnswer(r, p, n).value.name == n
  {
    hide Does;
    if r.step.PatchNode? && r.step.plan == p && r.step.seen.name == n && n in r.world.nodes {
      AlwaysInv(r);
      assert NodeInv(r.world, n);
    } else {
      AnswerHasName(r.before, p, n);
    }
  }

  /** Although the status update saw node n NotReady, its pass has a copy that passes the tests
      of the drain step exactly when it has patched n since, and the answer shows n Ready and
      cordoned. */
  lemma RefreshedCopyIff(r: Run, p: string, n: string)
    requires Reachable(r) && LastSawNotReady(r, p, n)
    ensures (exists seen: Node :: seen.name == n && InHand(r, p, seen) && seen.unschedulable && IsNodeReady(seen))
            <==> match LastAnswer(r, p, n)
                 case Some(answer) => answer.unschedulable && IsNodeReady(answer)
                 case None => false
  {
    hide Reachable, InHand, Covered, LastSawNotReady;
    forall seen: Node | seen.name == n && InHand(r, p, seen) && seen.unschedulable && IsNodeReady(seen)
      ensures LastAnswer(r, p, n) == Some(seen)
    {
      HandOrAnswer(r, p, seen);
      if LastAnswer(r, p, n).None? {
        CoveredIsNotReady(r, p, seen);
      }
    }
    if LastAnswer(r, p, n).Some? {
      AnswerHasName(r, p, n);
      HandOrAnswer(r, p, LastAnswer(r, p, n).value);
    }
  }

  /** No pass evicts from a node that its status update saw NotReady, unless it has patched the
      node since and the answer shows it Ready. */
  lemma NotReadyIsNotDrained(r: Run, p: string, n: string)
    requires Reachable(r) && r.Then? && Asks(r.step, p) && r.step.pod.node == n
    requires LastSawNotReady(r.before, p, n)
    ensures LastAnswer(r.before, p, n) == Some(r.step.seen) && IsNodeReady(r.step.seen)
  {
    hide Copied, InHand, Covered, LastSawNotReady, ListedThen, Evicted;
    HandOrAnswer(r.before, p, r.step.seen);
    if LastAnswer(r.before, p, n).None? {
      CoveredIsNotReady(r.before, p, r.step.seen);
    }
  }
}
