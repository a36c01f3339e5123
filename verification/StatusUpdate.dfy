/**
 The plan status: per-node entries rebuilt on every pass, conditions, summaries and phase.
 */
module StatusUpdate {
  import opened Api
  import opened Drift

  const NOT_READY_THRESHOLD: int := 300

  /* ----- Per-node entries ----- */

  /** Existing entries by name; a later entry wins, as in the source's loop. */
  function Existing(entries: seq<NodeStatus>): map<string, NodeStatus> {
    if entries == [] then map[]
    else
      var last := entries[|entries| - 1];
      Existing(entries[..|entries| - 1])[last.name := last]
  }

  lemma {:induction false} ExistingIsLookup(entries: seq<NodeStatus>, name: string)
    requires DistinctNames(entries)
    ensures match Lookup(entries, name)
            case Some(e) => name in Existing(entries) && Existing(entries)[name] == e
            case None => name !in Existing(entries)
  {
    if entries != [] {
      var n := |entries| - 1;
      ExistingIsLookup(entries[..n], name);
      var i := LookupIndex(entries, name);
      if 0 <= i < n {
        assert entries[..n][i] == entries[i];
        LookupFinds(entries[..n], i);
      } else if i == -1 {
        var k := LookupIndex(entries[..n], name);
      } else {
        var k := LookupIndex(entries[..n], name);
      }
    }
  }

  /** Starts from the previous entry and overwrites only what a status update owns. */
  function NextEntry(plan: Plan, node: Node, now: Time): NodeStatus {
    var existing := Existing(plan.status.nodes);
    var previous := if node.name in existing then existing[node.name] else BlankStatus(node.name);
    var verdict := DetectNodeDrift(node, plan);
    var state := if verdict != NoDrift then (true, verdict) else GetNodeDriftState(plan.status.nodes, node.name);
    previous.(name := node.name,
              cordoned := node.unschedulable,
              drifted := state.0 && state.1 != MaintenanceComplete,
              reason := if state.1 == MaintenanceComplete then NoDrift else state.1,
              notReadySince := if IsNodeReady(node) then None
                               else if previous.notReadySince.None? then Some(now)
                               else previous.notReadySince)
  }

  function NextEntries(plan: Plan, all: seq<Node>, now: Time): (r: seq<NodeStatus>)
    ensures |r| == |all|
    ensures forall i :: 0 <= i < |all| ==> r[i] == NextEntry(plan, all[i], now)
  {
    seq(|all|, i requires 0 <= i < |all| => NextEntry(plan, all[i], now))
  }

  ghost predicate DistinctNodes(all: seq<Node>) {
    forall i, j :: 0 <= i < j < |all| ==> all[i].name != all[j].name
  }

  lemma EntryFor(plan: Plan, all: seq<Node>, now: Time, i: nat)
    requires DistinctNodes(all) && i < |all|
    ensures DistinctNames(NextEntries(plan, all, now))
    ensures Lookup(NextEntries(plan, all, now), all[i].name) == Some(NextEntry(plan, all[i], now))
  {
    LookupFinds(NextEntries(plan, all, now), i);
  }

  lemma NoEntryFor(plan: Plan, all: seq<Node>, now: Time, name: string)
    requires forall i :: 0 <= i < |all| ==> all[i].name != name
    ensures Lookup(NextEntries(plan, all, now), name) == None
  {
    var k := LookupIndex(NextEntries(plan, all, now), name);
  }

  /* ----- Summaries and phase ----- */

  datatype Tally = Tally(ready: int, draining: int, blocked: int, progress: int, drifted: bool)

  function TallyOf(entries: seq<NodeStatus>): Tally {
    if entries == [] then Tally(0, 0, 0, 0, false)
    else
      var e := entries[|entries| - 1];
      var t := TallyOf(entries[..|entries| - 1]);
      Tally(t.ready + (if e.ready then 1 else 0),
            t.draining + (if !e.ready && e.totalPods > 0 && e.blockedPods < e.totalPods then 1 else 0),
            t.blocked + (if e.blockedPods > 0 && e.blockedPods == e.totalPods then 1 else 0),
            t.progress + e.progress,
            t.drifted || e.drifted)
  }

  function SummaryOf(entries: seq<NodeStatus>): Summary {
    var t := TallyOf(entries);
    Summary(t.ready, t.draining, t.blocked, |entries|,
            if entries == [] then 0 else t.progress / |entries|, t.drifted)
  }

  /** The source's priority order; the first that applies wins. */
  function ComputePhase(conditions: set<Condition>, allReady: bool): Phase {
    if DrainTimedOut in conditions then PhaseTimedOut
    else if Conflict in conditions then PhaseConflict
    else if allReady then PhaseReady
    else if DrainBlocked in conditions then PhaseBlocked
    else if DrainInProgress in conditions then PhaseDraining
    else if AllCordoned in conditions then PhaseCordoned
    else if Scheduled in conditions then PhaseScheduled
    else if NodesSelected in conditions then PhaseAdopted
    else PhasePending
  }

  function Recomputed(s: Status): Status {
    s.(summary := SummaryOf(s.nodes), phase := ComputePhase(s.conditions, s.allReady))
  }

  /** What each phase says; a timeout hides everything, a conflict all but that. */
  lemma PhaseMeans(s: Status)
    ensures var (phase, c) := (Recomputed(s).phase, s.conditions);
            var hidden := DrainTimedOut in c || Conflict in c;
            && (phase == PhaseTimedOut <==> DrainTimedOut in c)
            && (phase == PhaseConflict <==> Conflict in c && DrainTimedOut !in c)
            && (phase == PhaseReady <==> s.allReady && !hidden)
            && (phase == PhaseBlocked <==> DrainBlocked in c && !s.allReady && !hidden)
            && (phase == PhaseDraining <==> DrainInProgress in c && DrainBlocked !in c && !s.allReady && !hidden)
            && (phase in {PhaseCordoned, PhaseScheduled, PhaseAdopted, PhasePending} <==>
                  DrainInProgress !in c && DrainBlocked !in c && !s.allReady && !hidden)
            && (phase == PhaseCordoned ==> AllCordoned in c)
            && (phase == PhaseScheduled ==> Scheduled in c && AllCordoned !in c)
            && (phase == PhaseAdopted ==> NodesSelected in c && Scheduled !in c && AllCordoned !in c)
            && (phase == PhasePending ==> NodesSelected !in c && Scheduled !in c && AllCordoned !in c)
  {
  }

  function ProgressTotal(entries: seq<NodeStatus>): int {
    if entries == [] then 0 else entries[0].progress + ProgressTotal(entries[1..])
  }

  lemma {:induction false} ProgressTotalIsTally(entries: seq<NodeStatus>, last: NodeStatus)
    ensures ProgressTotal(entries + [last]) == ProgressTotal(entries) + last.progress
  {
    if entries != [] {
      assert (entries + [last])[1..] == entries[1..] + [last];
      ProgressTotalIsTally(entries[1..], last);
    }
  }

  ghost predicate InDrain(e: NodeStatus) {
    !e.ready && e.totalPods > 0 && e.blockedPods < e.totalPods
  }

  ghost predicate AllBlocked(e: NodeStatus) {
    e.totalPods == e.blockedPods > 0
  }

  /** The positions of the entries of one kind. */
  ghost function Places(entries: seq<NodeStatus>, kind: NodeStatus -> bool): set<nat> {
    set i: nat | i < |entries| && kind(entries[i])
  }

  lemma OneMorePlace(entries: seq<NodeStatus>, kind: NodeStatus -> bool)
    requires entries != []
    ensures var n := |entries| - 1;
            |Places(entries, kind)| == |Places(entries[..n], kind)| + if kind(entries[n]) then 1 else 0
  {
    var n := |entries| - 1;
    assert Places(entries, kind) == Places(entries[..n], kind) + if kind(entries[n]) then {n} else {};
  }

  lemma {:induction false} TallyMeans(entries: seq<NodeStatus>)
    ensures var t := TallyOf(entries);
            && t.ready == |Places(entries, (e: NodeStatus) => e.ready)|
            && t.draining == |Places(entries, (e: NodeStatus) => InDrain(e))|
            && t.blocked == |Places(entries, (e: NodeStatus) => AllBlocked(e))|
            && t.progress == ProgressTotal(entries)
            && (t.drifted <==> exists e :: e in entries && e.drifted)
  {
    if entries != [] {
      var n := |entries| - 1;
      TallyMeans(entries[..n]);
      OneMorePlace(entries, (e: NodeStatus) => e.ready);
      OneMorePlace(entries, (e: NodeStatus) => InDrain(e));
      OneMorePlace(entries, (e: NodeStatus) => AllBlocked(e));
      ProgressTotalIsTally(entries[..n], entries[n]);
      assert entries[..n] + [entries[n]] == entries;
    }
  }

  /** The summary counts the entries that are ready, still being drained, and blocked for all of
      their pods; the average is that of the entries, rounded down. */
  lemma SummaryMeans(entries: seq<NodeStatus>)
    ensures var s := SummaryOf(entries);
            && s.ready == |Places(entries, (e: NodeStatus) => e.ready)|
            && s.draining == |Places(entries, (e: NodeStatus) => InDrain(e))|
            && s.blocked == |Places(entries, (e: NodeStatus) => AllBlocked(e))|
            && s.total == |entries|
            && (s.drifted <==> exists e :: e in entries && e.drifted)
            && (entries == [] ==> s.progress == 0)
            && (entries != [] ==>
                  s.progress * |entries| <= ProgressTotal(entries) < s.progress * |entries| + |entries|)
  {
    TallyMeans(entries);
    if entries != [] {
      FloorMeans(TallyOf(entries).progress, |entries|);
    }
    hide TallyOf, Places, ProgressTotal;
  }

  lemma FloorMeans(sum: int, n: int)
    requires n > 0
    ensures (sum / n) * n <= sum < (sum / n) * n + n
  {
  }

  method RecomputePlanSummaries(s: Status) returns (r: Status)
    ensures r == Recomputed(s)
  {
    var ready, draining, blocked, totalProgress := 0, 0, 0, 0;
    var anyDrifted := false;
    for i := 0 to |s.nodes|
      invariant Tally(ready, draining, blocked, totalProgress, anyDrifted) == TallyOf(s.nodes[..i])
    {
      var ns := s.nodes[i];
      assert s.nodes[..i + 1][..i] == s.nodes[..i];
      totalProgress := totalProgress + ns.progress;
      if ns.ready {
        ready := ready + 1;
      } else if ns.totalPods > 0 && ns.blockedPods < ns.totalPods {
        draining := draining + 1;
      }
      if ns.blockedPods > 0 && ns.blockedPods == ns.totalPods {
        blocked := blocked + 1;
      }
      if ns.drifted {
        anyDrifted := true;
      }
    }
    assert s.nodes[..|s.nodes|] == s.nodes;
    var average := if |s.nodes| > 0 then totalProgress / |s.nodes| else 0;
    r := s.(summary := Summary(ready, draining, blocked, |s.nodes|, average, anyDrifted),
            phase := ComputePhase(s.conditions, s.allReady));
  }

  lemma {:induction false} ProgressSum(entries: seq<NodeStatus>)
    requires forall i :: 0 <= i < |entries| ==> 0 <= entries[i].progress <= 100
    ensures 0 <= TallyOf(entries).progress <= 100 * |entries|
    ensures TallyOf(entries).progress == 100 * |entries|
            <==> forall i :: 0 <= i < |entries| ==> entries[i].progress == 100
  {
    if entries != [] {
      var n := |entries| - 1;
      ProgressSum(entries[..n]);
      if forall i :: 0 <= i < n ==> entries[..n][i].progress == 100 {
        assert forall i | 0 <= i < n :: entries[i] == entries[..n][i];
      } else {
        var i :| 0 <= i < n && entries[..n][i].progress != 100;
        assert entries[i].progress != 100;
      }
    }
  }

  /** The plan's average is a percentage, and full only when every node is. */
  lemma AverageProgress(entries: seq<NodeStatus>)
    requires forall i :: 0 <= i < |entries| ==> 0 <= entries[i].progress <= 100
    ensures 0 <= SummaryOf(entries).progress <= 100
    ensures entries != [] ==>
      (SummaryOf(entries).progress == 100 <==> forall i :: 0 <= i < |entries| ==> entries[i].progress == 100)
  {
    ProgressSum(entries);
    if entries != [] {
      var sum, n := TallyOf(entries).progress, |entries|;
      QuotientBounds(sum, n);
    }
  }

  lemma TimesMonotone(x: int, y: int, n: int)
    requires x <= y && n >= 0
    ensures x * n <= y * n
  {
  }

  lemma QuotientBounds(sum: int, n: int)
    requires n > 0 && 0 <= sum <= 100 * n
    ensures 0 <= sum / n <= 100 && (sum / n == 100 <==> sum == 100 * n)
  {
    var q := sum / n;
    assert q * n <= sum < q * n + n;
    if q > 100 {
      TimesMonotone(101, q, n);
    } else if q < 100 {
      TimesMonotone(q + 1, 100, n);
      if q < 0 {
        TimesMonotone(q + 1, 0, n);
      }
    }
  }

  /* ----- The status update of a pass ----- */

  ghost predicate EveryUndriftedCordoned(entries: seq<NodeStatus>) {
    && (forall i :: 0 <= i < |entries| && !entries[i].drifted ==> entries[i].cordoned)
    && (exists i :: 0 <= i < |entries| && !entries[i].drifted)
  }

  ghost predicate AnyDrifted(entries: seq<NodeStatus>) {
    exists i :: 0 <= i < |entries| && entries[i].drifted
  }

  ghost predicate AnyLongNotReady(entries: seq<NodeStatus>, now: Time) {
    exists i :: 0 <= i < |entries| && LongNotReady(entries[i].notReadySince, now)
  }

  predicate LongNotReady(since: Option<Time>, now: Time) {
    since.Some? && now - since.value >= NOT_READY_THRESHOLD
  }

  ghost function UpdatedConditions(plan: Plan, entries: seq<NodeStatus>, conflicting: nat, now: Time): set<Condition> {
    var cordoned := CordonEnabled(plan.spec) && EveryUndriftedCordoned(entries);
    var scheduled := !cordoned && CordonEnabled(plan.spec) && plan.spec.cordon.value.startAt.Some?
                     && plan.spec.cordon.value.startAt.value > now;
    var c1 := SetCondition(plan.status.conditions, NodesSelected, |entries| > 0);
    var c2 := SetCondition(c1, AllCordoned, cordoned);
    var c3 := SetCondition(c2, Conflict, conflicting > 0);
    var c4 := SetCondition(c3, Scheduled, scheduled);
    var c5 := SetCondition(c4, DriftDetected, AnyDrifted(entries));
    SetCondition(c5, NodeNotReady, AnyLongNotReady(entries, now))
  }

  ghost function UpdatedStatus(
    plan: Plan, all: seq<Node>, conflicting: nat, snapshot: Option<seq<string>>, now: Time): Status
  {
    var entries := NextEntries(plan, all, now);
    var s := Recomputed(plan.status.(nodes := entries,
                                     conditions := UpdatedConditions(plan, entries, conflicting, now)));
    if snapshot.Some? then s.(resolvedNodes := snapshot.value, snapshotTaken := true) else s
  }

  method UpdateStatus(plan: Plan, all: seq<Node>, conflicting: nat, snapshot: Option<seq<string>>, now: Time)
    returns (status: Status)
    ensures status == UpdatedStatus(plan, all, conflicting, snapshot, now)
  {
    var existing: map<string, NodeStatus> := map[];
    for i := 0 to |plan.status.nodes|
      invariant existing == Existing(plan.status.nodes[..i])
    {
      assert plan.status.nodes[..i + 1][..i] == plan.status.nodes[..i];
      existing := existing[plan.status.nodes[i].name := plan.status.nodes[i]];
    }
    assert plan.status.nodes[..|plan.status.nodes|] == plan.status.nodes;

    var entries := BuildNodeStatuses(existing, all, plan, now);
    var conditions := UpdateConditions(plan, entries, conflicting, now);
    status := RecomputePlanSummaries(plan.status.(nodes := entries, conditions := conditions));
    if snapshot.Some? {
      status := status.(resolvedNodes := snapshot.value, snapshotTaken := true);
    }
  }

  method UpdateConditions(plan: Plan, entries: seq<NodeStatus>, conflicting: nat, now: Time)
    returns (conditions: set<Condition>)
    ensures conditions == UpdatedConditions(plan, entries, conflicting, now)
  {
    conditions := SetCondition(plan.status.conditions, NodesSelected, |entries| > 0);
    var allCordoned := CheckAllCordoned(plan, entries);
    conditions := SetCondition(conditions, AllCordoned, allCordoned);
    conditions := SetCondition(conditions, Conflict, conflicting > 0);
    var scheduled := !allCordoned && CordonEnabled(plan.spec) && plan.spec.cordon.value.startAt.Some?
                     && plan.spec.cordon.value.startAt.value > now;
    conditions := SetCondition(conditions, Scheduled, scheduled);
    var drifted, longNotReady := CountTroubled(entries, now);
    conditions := SetCondition(conditions, DriftDetected, drifted > 0);
    conditions := SetCondition(conditions, NodeNotReady, longNotReady > 0);
  }

  method CheckAllCordoned(plan: Plan, entries: seq<NodeStatus>) returns (allCordoned: bool)
    ensures allCordoned <==> CordonEnabled(plan.spec) && EveryUndriftedCordoned(entries)
  {
    allCordoned := CordonEnabled(plan.spec) && |entries| > 0;
    var nonDrifted := 0;
    for i := 0 to |entries|
      invariant nonDrifted >= 0
      invariant nonDrifted > 0 <==> exists k :: 0 <= k < i && !entries[k].drifted
      invariant allCordoned <==> CordonEnabled(plan.spec) && |entries| > 0
                                 && forall k :: 0 <= k < i && !entries[k].drifted ==> entries[k].cordoned
    {
      if !entries[i].drifted {
        nonDrifted := nonDrifted + 1;
        if !entries[i].cordoned {
          allCordoned := false;
        }
      }
    }
    if nonDrifted == 0 {
      allCordoned := false;
    }
  }

  method CountTroubled(entries: seq<NodeStatus>, now: Time) returns (drifted: nat, longNotReady: nat)
    ensures drifted > 0 <==> AnyDrifted(entries)
    ensures longNotReady > 0 <==> AnyLongNotReady(entries, now)
  {
    drifted, longNotReady := 0, 0;
    for i := 0 to |entries|
      invariant drifted > 0 <==> exists k :: 0 <= k < i && entries[k].drifted
      invariant longNotReady > 0 <==> exists k :: 0 <= k < i && LongNotReady(entries[k].notReadySince, now)
    {
      if entries[i].drifted {
        drifted := drifted + 1;
      }
      if LongNotReady(entries[i].notReadySince, now) {
        longNotReady := longNotReady + 1;
      }
    }
  }

  method BuildNodeStatuses(existing: map<string, NodeStatus>, all: seq<Node>, plan: Plan, now: Time)
    returns (entries: seq<NodeStatus>)
    requires existing == Existing(plan.status.nodes)
    ensures entries == NextEntries(plan, all, now)
  {
    entries := [];
    for i := 0 to |all|
      invariant |entries| == i
      invariant forall k :: 0 <= k < i ==> entries[k] == NextEntry(plan, all[k], now)
    {
      var node := all[i];
      var reason := DetectNodeDrift(node, plan);
      var drifted := reason != NoDrift;
      if !drifted {
        var state := GetNodeDriftState(plan.status.nodes, node.name);
        drifted, reason := state.0, state.1;
      }
      if reason == MaintenanceComplete {
        drifted, reason := false, NoDrift;
      }
      var ns := if node.name in existing then existing[node.name] else BlankStatus(node.name);
      ns := ns.(name := node.name, cordoned := node.unschedulable, drifted := drifted, reason := reason);
      if !IsNodeReady(node) {
        if ns.notReadySince.None? {
          ns := ns.(notReadySince := Some(now));
        }
      } else {
        ns := ns.(notReadySince := None);
      }
      entries := entries + [ns];
    }
  }

  /* ----- What an update says ----- */

  /** Each condition of an update on its own; those of the drain stay as they were. */
  lemma ConditionsMean(plan: Plan, all: seq<Node>, conflicting: nat, snapshot: Option<seq<string>>, now: Time)
    ensures var s := UpdatedStatus(plan, all, conflicting, snapshot, now);
            && (NodesSelected in s.conditions <==> s.nodes != [])
            && (AllCordoned in s.conditions <==>
                  && plan.spec.cordon.Some? && plan.spec.cordon.value.enabled
                  && (exists e :: e in s.nodes && !e.drifted) && (forall e :: e in s.nodes && !e.drifted ==> e.cordoned))
            && (Conflict in s.conditions <==> conflicting > 0)
            && (Scheduled in s.conditions <==>
                  && AllCordoned !in s.conditions && plan.spec.cordon.Some? && plan.spec.cordon.value.enabled
                  && plan.spec.cordon.value.startAt.Some? && now < plan.spec.cordon.value.startAt.value)
            && (DriftDetected in s.conditions <==> exists e :: e in s.nodes && e.drifted)
            && (NodeNotReady in s.conditions <==>
                  exists e :: e in s.nodes && e.notReadySince.Some? && now - e.notReadySince.value >= 300)
            && (forall c :: c in {DrainInProgress, DrainSucceeded, DrainBlocked, DrainTimedOut} ==>
                  (c in s.conditions <==> c in plan.status.conditions))
  {
    hide SetCondition, UpdatedConditions, EveryUndriftedCordoned, AnyDrifted, AnyLongNotReady, NextEntries, UpdatedStatus;
    var entries := NextEntries(plan, all, now);
    UpdatedIs(plan, all, conflicting, snapshot, now);
    EntriesIn(entries, now);
    ConditionUpdated(plan, entries, conflicting, now, NodesSelected);
    ConditionUpdated(plan, entries, conflicting, now, AllCordoned);
    ConditionUpdated(plan, entries, conflicting, now, Conflict);
    ConditionUpdated(plan, entries, conflicting, now, Scheduled);
    ConditionUpdated(plan, entries, conflicting, now, DriftDetected);
    ConditionUpdated(plan, entries, conflicting, now, NodeNotReady);
    forall c | c in {DrainInProgress, DrainSucceeded, DrainBlocked, DrainTimedOut}
      ensures c in UpdatedStatus(plan, all, conflicting, snapshot, now).conditions <==> c in plan.status.conditions
    {
      ConditionUpdated(plan, entries, conflicting, now, c);
    }
  }

  lemma UpdatedIs(plan: Plan, all: seq<Node>, conflicting: nat, snapshot: Option<seq<string>>, now: Time)
    ensures var s := UpdatedStatus(plan, all, conflicting, snapshot, now);
            && s.nodes == NextEntries(plan, all, now)
            && s.conditions == UpdatedConditions(plan, s.nodes, conflicting, now)
  {
  }

  /** The value of one condition after an update. */
  ghost predicate UpdatedTo(plan: Plan, entries: seq<NodeStatus>, conflicting: nat, now: Time, c: Condition, before: bool) {
    var cordoned := CordonEnabled(plan.spec) && EveryUndriftedCordoned(entries);
    match c
    case NodesSelected => |entries| > 0
    case AllCordoned => cordoned
    case Conflict => conflicting > 0
    case Scheduled =>
      !cordoned && CordonEnabled(plan.spec) && plan.spec.cordon.value.startAt.Some? && plan.spec.cordon.value.startAt.value > now
    case DriftDetected => AnyDrifted(entries)
    case NodeNotReady => AnyLongNotReady(entries, now)
    case _ => before
  }

  lemma ConditionUpdated(plan: Plan, entries: seq<NodeStatus>, conflicting: nat, now: Time, c: Condition)
    ensures c in UpdatedConditions(plan, entries, conflicting, now) <==>
      UpdatedTo(plan, entries, conflicting, now, c, c in plan.status.conditions)
  {
    hide SetCondition;
    forall cs: set<Condition>, d: Condition, v: bool
      ensures c in SetCondition(cs, d, v) <==> if c == d then v else c in cs
    {
      ConditionSet(cs, d, v, c);
    }
  }

  lemma ConditionSet(cs: set<Condition>, d: Condition, v: bool, c: Condition)
    ensures c in SetCondition(cs, d, v) <==> if c == d then v else c in cs
  {
  }

  lemma EntriesIn(entries: seq<NodeStatus>, now: Time)
    ensures EveryUndriftedCordoned(entries) <==>
      (exists e :: e in entries && !e.drifted) && (forall e :: e in entries && !e.drifted ==> e.cordoned)
    ensures AnyDrifted(entries) <==> exists e :: e in entries && e.drifted
    ensures AnyLongNotReady(entries, now) <==>
      exists e :: e in entries && e.notReadySince.Some? && now - e.notReadySince.value >= 300
  {
    assert forall e | e in entries :: exists i :: 0 <= i < |entries| && entries[i] == e;
    assert forall i | 0 <= i < |entries| :: entries[i] in entries;
  }

  /** The rest of an update: one entry per resolved node, the snapshot if one is taken, and the
      drain's start and outcome as they were. */
  lemma UpdateMeans(plan: Plan, all: seq<Node>, conflicting: nat, snapshot: Option<seq<string>>, now: Time)
    ensures var s := UpdatedStatus(plan, all, conflicting, snapshot, now);
            && |s.nodes| == |all| && (forall i :: 0 <= i < |all| ==> s.nodes[i].name == all[i].name)
            && s.allReady == plan.status.allReady && s.drainStartedAt == plan.status.drainStartedAt
            && (if snapshot.Some? then s.snapshotTaken && s.resolvedNodes == snapshot.value
                else s.snapshotTaken == plan.status.snapshotTaken && s.resolvedNodes == plan.status.resolvedNodes)
            && s.summary == SummaryOf(s.nodes) && s.phase == Recomputed(s).phase
  {
  }

  /** What an update makes of a node's entry, told from the node and the previous entry. */
  lemma EntryMeans(plan: Plan, node: Node, now: Time)
    requires DistinctNames(plan.status.nodes) && NoStoredCompletion(plan.status.nodes)
    ensures var e := NextEntry(plan, node, now);
            var before := match Lookup(plan.status.nodes, node.name) case Some(b) => b case None => BlankStatus(node.name);
            var owned := Owner(node) == plan.name;
            var uncordoned := owned && CordonEnabled(plan.spec) && OperatorCordoned(node) && !node.unschedulable;
            var foreign := owned && !CordonEnabled(plan.spec) && !OperatorCordoned(node) && node.unschedulable;
            && e.name == node.name && e.cordoned == node.unschedulable
            && (e.drifted, e.reason) == (if uncordoned then
                                           if before.ready then (false, NoDrift) else (true, ManualUncordon)
                                         else if foreign then (true, ExternalCordon)
                                         else (before.drifted, before.reason))
            && e.notReadySince == (if IsNodeReady(node) then None
                                   else if before.notReadySince.Some? then before.notReadySince
                                   else Some(now))
            && (e.progress, e.totalPods, e.initialPods, e.evictablePods)
               == (before.progress, before.totalPods, before.initialPods, before.evictablePods)
            && (e.blockedPods, e.evictedTotal, e.issues, e.ready)
               == (before.blockedPods, before.evictedTotal, before.issues, before.ready)
  {
    ExistingIsLookup(plan.status.nodes, node.name);
    RecordedReadyIsCompleted(plan.status.nodes, node.name);
    var i := LookupIndex(plan.status.nodes, node.name);
  }

  /* ----- What an update carries over ----- */

  /** A verdict of completed maintenance is never stored as a drift reason. */
  ghost predicate NoStoredCompletion(entries: seq<NodeStatus>) {
    forall i :: 0 <= i < |entries| ==> entries[i].reason != MaintenanceComplete
  }

  /** The flags that bar re-adoption survive every update. Ready alone always survives;
      drifted alone can give way to ready when an owned node completes maintenance. */
  lemma LatchCarried(plan: Plan, node: Node, now: Time)
    requires DistinctNames(plan.status.nodes) && NoStoredCompletion(plan.status.nodes)
    ensures var e := NextEntry(plan, node, now);
            && e.ready == NodeCompletedMaintenance(plan.status.nodes, node.name)
            && (Latched(plan.status.nodes, node.name) ==> e.drifted || e.ready)
            && (Owner(node) != plan.name ==> (e.drifted, e.reason) == GetNodeDriftState(plan.status.nodes, node.name))
            && e.reason != MaintenanceComplete
  {
    ExistingIsLookup(plan.status.nodes, node.name);
    RecordedReadyIsCompleted(plan.status.nodes, node.name);
    var i := LookupIndex(plan.status.nodes, node.name);
  }

  /** A node about to be released for drift is recorded by the update that precedes the release. */
  lemma ReleaseIsRecorded(plan: Plan, node: Node, now: Time)
    requires DistinctNames(plan.status.nodes) && NoStoredCompletion(plan.status.nodes)
    requires Releases(DetectNodeDrift(node, plan))
    ensures NextEntry(plan, node, now).drifted || NextEntry(plan, node, now).ready
  {
    ExistingIsLookup(plan.status.nodes, node.name);
    RecordedReadyIsCompleted(plan.status.nodes, node.name);
  }

  /** The status patch also refreshes the spec the pass works with. When that spec differs,
      a release is unrecorded exactly when cordon was switched on between the two reads,
      for an owned node that carries the operator's cordon but is schedulable and was not
      recorded before. */
  lemma UnrecordedReleaseIff(plan: Plan, node: Node, now: Time, edited: Spec, refreshed: Plan)
    requires DistinctNames(plan.status.nodes) && NoStoredCompletion(plan.status.nodes)
    requires refreshed.name == plan.name && refreshed.spec == edited
    requires Lookup(refreshed.status.nodes, node.name) == Some(NextEntry(plan, node, now))
    ensures Releases(DetectNodeDrift(node, refreshed)) && !Latched(refreshed.status.nodes, node.name)
            <==> && Owner(node) == plan.name && OperatorCordoned(node) && !node.unschedulable
                 && CordonEnabled(edited) && !CordonEnabled(plan.spec)
                 && !Latched(plan.status.nodes, node.name)
  {
    LatchCarried(plan, node, now);
    if Releases(DetectNodeDrift(node, plan)) {
      ReleaseIsRecorded(plan, node, now);
    } else {
      ExistingIsLookup(plan.status.nodes, node.name);
    }
  }
}
