/**
 One reconcile pass, step by step, against a cluster that keeps moving.

 Every method keeps InPass: the run stays legal, the plan in hand is the stored one up to edits
 of its spec, and each copy of a node differs from the server only by what users did since it
 was read. On a calm cluster each method's effect is given exactly.
 */
module Service {
  import opened Api
  import opened Drift
  import opened StatusUpdate
  import opened DrainFold
  import opened DrainFilters
  import opened NodeWrites
  import opened Protocol
  import opened Safety
  import opened Cordons
  import opened Evictions
  import opened Passes
  import opened Requests
  import opened Draining
  import opened Server

  datatype Resolution = Resolution(
    toAdopt: seq<string>, toRelease: seq<string>, stable: seq<string>, conflicting: seq<string>,
    all: seq<string>, snapshot: Option<seq<string>>)

  ghost predicate Splits(desired: map<string, Node>, managed: map<string, Node>, p: string, res: Resolution) {
    && Distinct(res.toAdopt) && Distinct(res.stable) && Distinct(res.conflicting) && Distinct(res.all)
    && Distinct(res.toRelease)
    && (forall n :: n in res.all <==> n in desired)
    && (forall n :: n in res.toAdopt <==> n in desired && Owner(desired[n]) == "")
    && (forall n :: n in res.stable <==> n in desired && Owner(desired[n]) != "" && Owner(desired[n]) == p)
    && (forall n :: n in res.conflicting <==> n in desired && Owner(desired[n]) != "" && Owner(desired[n]) != p)
    && (forall n :: n in res.toRelease <==> n in managed && n !in desired)
  }

  lemma DistinctAppend(names: seq<string>, n: string)
    requires Distinct(names) && n !in names
    ensures Distinct(names + [n])
  {
  }

  /** Sorts the desired nodes by owner; what is managed but no longer desired is released.
      Map iteration order is arbitrary. */
  method ComputeOwnership(desired: map<string, Node>, managed: map<string, Node>, p: string) returns (res: Resolution)
    ensures res.snapshot.None? && Splits(desired, managed, p, res)
  {
    var toAdopt, stable, conflicting, all := SortByOwner(desired, p);
    var toRelease := [];
    var todo := managed.Keys;
    while todo != {}
      invariant todo <= managed.Keys && Distinct(toRelease)
      invariant forall n :: n in toRelease <==> n in managed && n !in todo && n !in desired
    {
      var n :| n in todo;
      if n !in desired {
        DistinctAppend(toRelease, n);
        toRelease := toRelease + [n];
      }
      todo := todo - {n};
    }
    res := Resolution(toAdopt, toRelease, stable, conflicting, all, None);
  }

  method SortByOwner(desired: map<string, Node>, p: string)
    returns (toAdopt: seq<string>, stable: seq<string>, conflicting: seq<string>, all: seq<string>)
    ensures Distinct(toAdopt) && Distinct(stable) && Distinct(conflicting) && Distinct(all)
    ensures forall n :: n in all <==> n in desired
    ensures forall n :: n in toAdopt <==> n in desired && Owner(desired[n]) == ""
    ensures forall n :: n in stable <==> n in desired && Owner(desired[n]) != "" && Owner(desired[n]) == p
    ensures forall n :: n in conflicting <==> n in desired && Owner(desired[n]) != "" && Owner(desired[n]) != p
  {
    toAdopt, stable, conflicting, all := [], [], [], [];
    var todo := desired.Keys;
    while todo != {}
      invariant todo <= desired.Keys
      invariant Distinct(toAdopt) && Distinct(stable) && Distinct(conflicting) && Distinct(all)
      invariant forall n :: n in all <==> n in desired && n !in todo
      invariant forall n :: n in toAdopt <==> n in desired && n !in todo && Owner(desired[n]) == ""
      invariant forall n :: n in stable <==>
        n in desired && n !in todo && Owner(desired[n]) != "" && Owner(desired[n]) == p
      invariant forall n :: n in conflicting <==>
        n in desired && n !in todo && Owner(desired[n]) != "" && Owner(desired[n]) != p
    {
      var n :| n in todo;
      DistinctAppend(all, n);
      var owner := Owner(desired[n]);
      if owner == "" {
        DistinctAppend(toAdopt, n);
        toAdopt := toAdopt + [n];
      } else if owner == p {
        DistinctAppend(stable, n);
        stable := stable + [n];
      } else {
        DistinctAppend(conflicting, n);
        conflicting := conflicting + [n];
      }
      all := all + [n];
      todo := todo - {n};
    }
  }

  method FilterOwned(all: map<string, Node>, p: string) returns (managed: map<string, Node>)
    ensures managed == map n | n in all && Owner(all[n]) == p :: all[n]
  {
    managed := map[];
    var todo := all.Keys;
    while todo != {}
      invariant todo <= all.Keys
      invariant managed == map n | n in all && n !in todo && Owner(all[n]) == p :: all[n]
    {
      var n :| n in todo;
      if Owner(all[n]) == p {
        managed := managed[n := all[n]];
      }
      todo := todo - {n};
    }
  }

  datatype PassResult = Aborted | PlanNotFound | PlanDeleted | Completed

  /** Between two points of a run the totals of plan p grew by exactly its evictions in between. */
  ghost predicate TotalsAccount(r1: Run, r2: Run, p: string, before: Status, after: Status) {
    forall n :: Lookup(after.nodes, n).Some? ==>
      Lookup(after.nodes, n).value.evictedTotal
      == PriorTotal(before.nodes, n) + EvictionsBy(r2, p, n) - EvictionsBy(r1, p, n)
  }

  lemma AccountedUpdate(r1: Run, r2: Run, plan: Plan, copies: seq<Node>, conflicting: nat,
                        snapshot: Option<seq<string>>, at: Time)
    requires StatusInv(plan.status) && DistinctNodes(copies)
    requires forall n :: EvictionsBy(r2, plan.name, n) == EvictionsBy(r1, plan.name, n)
    ensures TotalsAccount(r1, r2, plan.name, plan.status, UpdatedStatus(plan, copies, conflicting, snapshot, at))
  {
    forall n | Lookup(UpdatedStatus(plan, copies, conflicting, snapshot, at).nodes, n).Some?
      ensures Lookup(UpdatedStatus(plan, copies, conflicting, snapshot, at).nodes, n).value.evictedTotal
              == PriorTotal(plan.status.nodes, n)
    {
      TotalsCarried(plan, copies, conflicting, snapshot, at, n);
    }
  }

  lemma AccountedDrain(a: Run, b: Run, c: Run, p: string, s: Status, s': Status, s'': Status)
    requires TotalsAccount(a, b, p, s, s') && TotalsFollow(b, c, p, s', s'')
    ensures TotalsAccount(a, c, p, s, s'')
  {
  }

  lemma AccountedIdle(a: Run, b: Run, c: Run, p: string, s: Status, s': Status)
    requires TotalsAccount(a, b, p, s, s') && SameEvictions(b, c, p)
    ensures TotalsAccount(a, c, p, s, s')
  {
  }

  lemma AccountedFrom(a0: Run, a: Run, b: Run, p: string, s: Status, s': Status)
    requires TotalsAccount(a, b, p, s, s') && forall n :: EvictionsBy(a, p, n) == EvictionsBy(a0, p, n)
    ensures TotalsAccount(a0, b, p, s, s')
  {
  }

  lemma UpdateCovers(r: Run, nodes: map<string, Node>, all: seq<string>)
    requires r.Then? && r.step.PublishStatus?
    requires forall n :: n in nodes ==> nodes[n].name == n
    requires forall n :: n in all ==> n in nodes
    requires r.step.all == CopiesOf(nodes, all)
    ensures forall n :: n in all ==> Covered(r, r.step.plan, nodes[n])
    ensures Tracked(r, r.step.plan, nodes)
  {
    forall n | n in all ensures nodes[n] in r.step.all {
      var i :| 0 <= i < |all| && all[i] == n;
      assert r.step.all[i] == nodes[n];
    }
  }

  lemma RefreshedIsHeld(r: Run, plan: Plan, nodes: map<string, Node>)
    requires Held(r, plan, nodes)
    ensures plan.name in r.world.plans && Held(r, r.world.plans[plan.name], nodes)
    ensures r.world.plans[plan.name].name == plan.name && r.world.plans[plan.name].status == plan.status
  {
  }

  lemma PublishFacts(start: Run, mid: Run, r: Run, p: string)
    requires Quietly(start, mid, p) && r.Then? && r.before == mid && r.step.PublishStatus? && r.step.plan == p
    ensures Extends(start, r) && Undrained(start, r, p) && NothingPending(r, p)
    ensures forall n :: EvictionsBy(r, p, n) == EvictionsBy(start, p, n)
  {
  }

  lemma FinalizerFacts(start: Run, r: Run, p: string)
    requires r.Then? && r.step.AddFinalizer? && r.before.Then? && r.before.step.Environment? && r.before.before == start
    ensures Extends(start, r) && Undrained(start, r, p) && Patches(r) == Patches(start)
    ensures forall n :: EvictionsBy(r, p, n) == EvictionsBy(start, p, n)
  {
    assert Extends(start, start);
  }

  lemma QuietMeansUndrained(r1: Run, r2: Run, p: string)
    requires Quietly(r1, r2, p)
    ensures Undrained(r1, r2, p)
  {
  }

  lemma UndrainedReflexive(r: Run, p: string)
    ensures Undrained(r, r, p)
  {
  }

  lemma QuietlyIsExtension(r1: Run, r2: Run, p: string)
    requires Quietly(r1, r2, p)
    ensures Extends(r1, r2) && forall n :: EvictionsBy(r2, p, n) == EvictionsBy(r1, p, n)
  {
  }

  lemma StillNothingPending(r1: Run, r2: Run, p: string)
    requires Quietly(r1, r2, p) && NothingPending(r1, p)
    ensures NothingPending(r2, p)
  {
  }

  lemma CopiesAreDistinct(r: Run, plan: Plan, nodes: map<string, Node>, names: seq<string>)
    requires Held(r, plan, nodes) && Distinct(names)
    requires forall n :: n in names ==> n in nodes
    ensures DistinctNodes(CopiesOf(nodes, names))
  {
    var copies := CopiesOf(nodes, names);
    forall i, j | 0 <= i < j < |copies| ensures copies[i].name != copies[j].name {
      assert names[i] in names && names[j] in names;
    }
  }

  lemma HeldStatus(r: Run, plan: Plan, nodes: map<string, Node>)
    requires Inv(r.world) && Held(r, plan, nodes)
    ensures StatusInv(plan.status)
  {
    assert PlanInv(r.world, plan.name);
  }

  ghost predicate Acts(res: Resolution, cordonNow: bool, plan: Plan, n1: map<string, Node>, n2: map<string, Node>,
                       n3: map<string, Node>, n4: map<string, Node>)
  {
    && Staged(DriftStage, plan, res.stable, n1, n2)
    && (if cordonNow then
          Staged(CordonStage, plan, res.stable, n2, n3) && Staged(ReleaseStage, plan, res.toRelease, n3, n4)
        else n4 == n2)
  }

  ghost predicate ActedOn(res: Resolution, cordonNow: bool, plan: Plan, before: map<string, Node>, after: map<string, Node>) {
    exists n2, n3 :: Acts(res, cordonNow, plan, before, n2, n3, after)
  }

  /** On a calm cluster the stages add up to the pass of the specification. */
  lemma CalmPass(w: World, plan: Plan, updated: Plan, res: Resolution, cordonDue: bool, n1: map<string, Node>,
                 n4: map<string, Node>)
    requires plan.name != "" && updated.name == plan.name && updated.spec == plan.spec
    requires Resolves(w, plan, w.nodes, res)
    requires Staged(AdoptionStage(CordonEnabled(plan.spec) && CordonActs(plan.spec, cordonDue)), plan, res.toAdopt, w.nodes, n1)
    requires ActedOn(res, CordonActs(plan.spec, cordonDue), updated, n1, n4)
    ensures PassEffect(w.nodes, n4, (set n | n in res.all), plan, cordonDue)
  {
    var n2, n3 :| Acts(res, CordonActs(plan.spec, cordonDue), updated, n1, n2, n3, n4);
    var desired := set n | n in res.all;
    forall n | n in w.nodes ensures n in res.toRelease <==> n !in desired && Owner(w.nodes[n]) == plan.name {
    }
    StagesMakeAPass(w.nodes, n1, n2, n3, n4, plan, updated, cordonDue, desired, res.toAdopt, res.stable, res.toRelease);
  }

  lemma QuietTotals(r1: Run, r2: Run, p: string, s: Status)
    requires Quietly(r1, r2, p)
    ensures TotalsFollow(r1, r2, p, s, s)
  {
  }

  lemma TotalsFollowOn(a: Run, b: Run, c: Run, p: string, s: Status, s': Status)
    requires TotalsFollow(a, b, p, s, s)
    ensures TotalsFollow(b, c, p, s, s') ==> TotalsFollow(a, c, p, s, s')
  {
    if TotalsFollow(b, c, p, s, s') {
      forall n ensures Lookup(s.nodes, n).Some? ==> EvictionsBy(b, p, n) == EvictionsBy(a, p, n) {
      }
    }
  }

  /** What a status update records about the nodes it resolved. */
  ghost predicate Written(was: Plan, nodes: map<string, Node>, res: Resolution, s: Status) {
    && (forall n :: n in res.all && n in nodes && (Latched(was.status.nodes, n) || Releases(DetectNodeDrift(nodes[n], was)))
          ==> Latched(s.nodes, n))
    && (forall n :: Lookup(s.nodes, n).Some? <==> n in res.all)
    && (Conflict in s.conditions <==> res.conflicting != [])
    && (if res.snapshot.Some? then s.snapshotTaken && s.resolvedNodes == res.snapshot.value
        else s.snapshotTaken == was.status.snapshotTaken && s.resolvedNodes == was.status.resolvedNodes)
  }

  lemma EntriesByUpdate(plan: Plan, nodes: map<string, Node>, names: seq<string>, at: Time, n: string)
    requires Distinct(names) && forall m :: m in names ==> m in nodes && nodes[m].name == m
    requires DistinctNodes(CopiesOf(nodes, names))
    ensures Lookup(NextEntries(plan, CopiesOf(nodes, names), at), n)
            == if n in names then Some(NextEntry(plan, nodes[n], at)) else None
  {
    hide NextEntry, NextEntries;
    var copies := CopiesOf(nodes, names);
    if n in names {
      var i :| 0 <= i < |names| && names[i] == n;
      EntryFor(plan, copies, at, i);
    } else {
      assert forall i | 0 <= i < |copies| :: names[i] in names && copies[i].name == names[i];
      NoEntryFor(plan, copies, at, n);
    }
  }

  lemma LatchedByUpdate(plan: Plan, node: Node, entries: seq<NodeStatus>, at: Time, n: string)
    requires StatusInv(plan.status) && node.name == n && Lookup(entries, n) == Some(NextEntry(plan, node, at))
    requires Latched(plan.status.nodes, n) || Releases(DetectNodeDrift(node, plan))
    ensures Latched(entries, n)
  {
    LatchCarried(plan, node, at);
    if Releases(DetectNodeDrift(node, plan)) {
      ReleaseIsRecorded(plan, node, at);
    }
  }

  lemma WrittenByUpdate(plan: Plan, nodes: map<string, Node>, res: Resolution, conflicting: nat, at: Time)
    requires StatusInv(plan.status) && Distinct(res.all) && conflicting == |res.conflicting|
    requires forall m :: m in res.all ==> m in nodes && nodes[m].name == m
    requires DistinctNodes(CopiesOf(nodes, res.all))
    ensures Written(plan, nodes, res, UpdatedStatus(plan, CopiesOf(nodes, res.all), conflicting, res.snapshot, at))
  {
    hide UpdatedStatus, UpdatedConditions, Recomputed, NextEntry, NextEntries, Latched, DetectNodeDrift, StatusInv, SummaryOf,
         CopiesOf, DistinctNodes;
    var copies := CopiesOf(nodes, res.all);
    var s := UpdatedStatus(plan, copies, conflicting, res.snapshot, at);
    UpdatedIs(plan, copies, conflicting, res.snapshot, at);
    UpdateMeans(plan, copies, conflicting, res.snapshot, at);
    ConditionUpdated(plan, s.nodes, conflicting, at, Conflict);
    forall n ensures Lookup(s.nodes, n).Some? <==> n in res.all {
      EntriesByUpdate(plan, nodes, res.all, at, n);
    }
    forall n | n in res.all && (Latched(plan.status.nodes, n) || Releases(DetectNodeDrift(nodes[n], plan)))
      ensures Latched(s.nodes, n)
    {
      EntriesByUpdate(plan, nodes, res.all, at, n);
      LatchedByUpdate(plan, nodes[n], s.nodes, at, n);
    }
  }

  /** Flags and snapshot survive the rest of the pass. */
  ghost predicate Carries(s: Status, s': Status) {
    && (forall n :: Latched(s.nodes, n) ==> Latched(s'.nodes, n))
    && (forall n :: Lookup(s'.nodes, n).Some? <==> Lookup(s.nodes, n).Some?)
    && (Conflict in s'.conditions <==> Conflict in s.conditions)
    && s'.snapshotTaken == s.snapshotTaken && s'.resolvedNodes == s.resolvedNodes
  }

  lemma DrainCarries(plan: Plan, results: seq<DrainResult>, at: Time)
    requires DistinctResults(results)
    ensures Carries(plan.status, AppliedDrain(plan, results, at).0)
  {
    hide AppliedDrain, Expires, Latched, NothingLeftBy, HeldUpBy, MovingBy, SummaryOf, Recomputed;
    AppliedNodes(plan, results, at);
    forall n
      ensures Latched(plan.status.nodes, n) ==> Latched(AppliedDrain(plan, results, at).0.nodes, n)
      ensures Lookup(AppliedDrain(plan, results, at).0.nodes, n).Some? <==> Lookup(plan.status.nodes, n).Some?
    {
      ReadyOnlyWhenDrained(plan, results, at, n);
      if Latched(plan.status.nodes, n) {
        BarredDrain(plan, results, at, n);
      }
    }
    if Expires(plan, results, at) {
      TimeoutStatusMeans(plan, results, at);
    } else {
      DrainStatusMeans(plan, results, at);
    }
  }

  lemma CarriesReflexive(s: Status)
    ensures Carries(s, s)
  {
  }

  /** Every node that the plan owned, still wants and left cordoned is in the drain report
      that ends the run. */
  ghost predicate Drains(r: Run, before: map<string, Node>, desired: set<string>, p: string) {
    forall n :: n in desired && n in before && Owner(before[n]) == p && n in r.world.nodes && r.world.nodes[n].unschedulable
      ==> ReportedOn(r, p, n)
  }

  lemma TimeoutUntouched(plan: Plan, all: seq<Node>, conflicting: nat, snapshot: Option<seq<string>>, at: Time)
    ensures DrainTimedOut in UpdatedStatus(plan, all, conflicting, snapshot, at).conditions
            <==> DrainTimedOut in plan.status.conditions
  {
    assert DrainTimedOut in UpdatedConditions(plan, NextEntries(plan, all, at), conflicting, at)
           <==> DrainTimedOut in plan.status.conditions;
  }

  /** What a completed pass on a calm cluster leaves in the status for the next one: all it
      released or found barred is barred, and a selector's selection is frozen. */
  ghost predicate Settled(nodes: map<string, Node>, plan: Plan, desired: set<string>, s: Status) {
    && (forall n :: n in desired && n in nodes
          && (Latched(plan.status.nodes, n) || (Owner(nodes[n]) == plan.name && Releases(DetectNodeDrift(nodes[n], plan))))
          ==> Latched(s.nodes, n))
    && (plan.spec.selector.Some? ==>
          s.snapshotTaken && forall n :: n in nodes ==> (n in s.resolvedNodes <==> n in desired))
    && (forall n :: Lookup(s.nodes, n).Some? <==> n in desired)
    && (Conflict in s.conditions <==>
          exists n :: n in desired && n in nodes && Owner(nodes[n]) != "" && Owner(nodes[n]) != plan.name)
  }

  lemma CalmStatus(w: World, plan: Plan, copies: map<string, Node>, res: Resolution, s1: Status, s2: Status)
    requires Resolves(w, plan, w.nodes, res) && Desired(w, plan, set n | n in res.all)
    requires forall n :: n in res.stable ==> n in copies && n in w.nodes && copies[n] == w.nodes[n]
    requires forall n :: n in res.all ==> n in copies
    requires Written(plan, copies, res, s1) && Carries(s1, s2)
    ensures Settled(w.nodes, plan, (set n | n in res.all), s2)
  {
    assert res.conflicting != [] ==> res.conflicting[0] in res.conflicting;
  }

  lemma StableCopiesUntouched(w: World, w1: World, plan: Plan, cordon: bool, res: Resolution, copies: map<string, Node>)
    requires plan.name != "" && Resolves(w, plan, w.nodes, res)
    requires Staged(AdoptionStage(cordon), plan, res.toAdopt, w.nodes, w1.nodes)
    requires forall n :: n in copies ==> n in w1.nodes && w1.nodes[n] == copies[n]
    requires forall n :: n in res.stable ==> n in copies
    ensures forall n :: n in res.stable ==> n in w.nodes && copies[n] == w.nodes[n]
  {
  }

  /** Nothing in this resolution gives the later steps of a pass a node to patch. */
  ghost predicate NothingToPatch(res: Resolution, nodes: map<string, Node>, plan: Plan, cordonNow: bool) {
    && (forall n :: n in res.stable && n in nodes ==> !Releases(DetectNodeDrift(nodes[n], plan)))
    && (cordonNow ==>
          && res.toRelease == []
          && (forall n :: n in res.stable && n in nodes ==> CordonIdle(nodes[n], plan)))
  }

  /** If a pass would leave every node as it is, none of its steps has a node to patch. */
  lemma RestMeansNoPatch(w: World, plan: Plan, updated: Plan, res: Resolution, copies: map<string, Node>, cordonDue: bool)
    requires Inv(w) && plan.name != "" && updated.name == plan.name && updated.spec == plan.spec
    requires Resolves(w, plan, w.nodes, res)
    requires PassEffect(w.nodes, w.nodes, (set n | n in res.all), plan, cordonDue)
    requires forall n :: n in res.stable ==> n in copies && copies[n] == w.nodes[n]
    ensures forall n :: n in res.toAdopt ==> Latched(plan.status.nodes, n)
    ensures NothingToPatch(res, copies, updated, CordonActs(plan.spec, cordonDue))
  {
    var desired := set n | n in res.all;
    assert forall n | n in w.nodes :: NodeInv(w, n);
    forall n | n in res.toAdopt ensures Latched(plan.status.nodes, n) {
      assert w.nodes[n] == PassNode(w.nodes[n], n in desired, plan, cordonDue);
    }
    forall n | n in res.stable
      ensures !Releases(DetectNodeDrift(copies[n], updated))
      ensures CordonActs(plan.spec, cordonDue) ==> CordonIdle(copies[n], updated)
    {
      StableAtRest(w.nodes[n], plan, updated, cordonDue);
    }
    assert res.toRelease != [] ==> res.toRelease[0] in res.toRelease;
  }

  lemma StableAtRest(node: Node, plan: Plan, updated: Plan, cordonDue: bool)
    requires plan.name != "" && Owner(node) == plan.name && updated.name == plan.name && updated.spec == plan.spec
    requires PassNode(node, true, plan, cordonDue) == node
    ensures !Releases(DetectNodeDrift(node, updated))
    ensures CordonActs(plan.spec, cordonDue) ==> CordonIdle(node, updated)
  {
    ReleasesIgnoresStatus(node, plan, updated);
    hide DetectNodeDrift;
  }

  lemma SamePassFor(w: World, w1: World, stored: Plan, held: Plan, desired: set<string>, cordonDue: bool,
                    after: map<string, Node>)
    requires w.nodes == w1.nodes && stored.name == held.name && stored.spec == held.spec && stored.status == held.status
    ensures Desired(w1, held, desired) ==> Desired(w, stored, desired)
    ensures PassEffect(w1.nodes, after, desired, held, cordonDue)
            ==> PassEffect(w.nodes, after, desired, stored, cordonDue)
    ensures forall s :: Settled(w1.nodes, held, desired, s) ==> Settled(w.nodes, stored, desired, s)
  {
    forall node: Node, d: bool ensures PassNode(node, d, held, cordonDue) == PassNode(node, d, stored, cordonDue) {
      ReleasesIgnoresStatus(node, held, stored);
    }
  }

  /** A resolution of plan over the copies in hand that leaves out no owned node. */
  ghost predicate Resolves(w: World, plan: Plan, nodes: map<string, Node>, res: Resolution) {
    && Distinct(res.toAdopt) && Distinct(res.stable) && Distinct(res.all) && Distinct(res.toRelease)
    && (forall n :: n in res.all ==> n in nodes && InSnapshot(plan, n))
    && (forall n :: n in res.toAdopt <==> n in res.all && Owner(nodes[n]) == "")
    && (forall n :: n in res.stable <==> n in res.all && Owner(nodes[n]) == plan.name)
    && (forall n :: n in res.conflicting <==> n in res.all && Owner(nodes[n]) != "" && Owner(nodes[n]) != plan.name)
    && (forall n :: n in res.toRelease ==> n in nodes && n !in res.all && Owner(nodes[n]) == plan.name)
    && (forall n :: n in w.nodes && Owner(w.nodes[n]) == plan.name ==> n in res.stable || n in res.toRelease)
    && (res.snapshot.Some? <==> plan.spec.selector.Some? && !plan.status.snapshotTaken)
    && (res.snapshot.Some? ==> forall n :: n in res.snapshot.value <==> n in res.all)
  }

  /** What the steps after adoption need of a resolution and the copies in hand. */
  ghost predicate WorkableFor(res: Resolution, nodes: map<string, Node>, p: string) {
    && Distinct(res.all) && Distinct(res.stable) && Distinct(res.toRelease)
    && (forall n :: n in res.all ==> n in nodes)
    && (forall n :: n in res.stable ==> n in res.all && Owner(nodes[n]) == p)
    && (forall n :: n in res.toRelease ==> n in nodes && Owner(nodes[n]) == p && n !in res.stable)
  }

  lemma Adoptable(w: World, plan: Plan, nodes: map<string, Node>, res: Resolution)
    requires Resolves(w, plan, nodes, res)
    ensures Distinct(res.toAdopt) && SnapshotFits(plan, res.all, res.snapshot)
    ensures forall n :: n in res.toAdopt ==> n in nodes && Owner(nodes[n]) == "" && InSnapshot(plan, n)
    ensures (forall n :: n in nodes ==> n in w.nodes && w.nodes[n] == nodes[n]) ==> Resolves(w, plan, w.nodes, res)
  {
  }

  lemma WorkableAfterAdoption(w: World, plan: Plan, before: map<string, Node>, after: map<string, Node>, res: Resolution)
    requires Resolves(w, plan, before, res) && Untouched(before, after, res.toAdopt) && plan.name != ""
    ensures WorkableFor(res, after, plan.name)
  {
  }

  /** At some moment between these two points of a run there was no node of this name. */
  ghost predicate Missed(r1: Run, r2: Run, n: string) {
    exists k :: Length(r1) <= k <= Length(r2) && n !in At(r2, k).nodes
  }

  lemma MissedNow(start: Run, before: Run, r: Run, p: string)
    requires Quietly(start, before, p) && Quietly(before, r, p)
    ensures forall n :: n !in r.world.nodes || Missed(start, before, n) ==> Missed(start, r, n)
  {
    AtExtended(start, before, Length(start));
    AtExtended(before, r, Length(before));
    AtEnd(r);
    forall n | n !in r.world.nodes || Missed(start, before, n) ensures Missed(start, r, n) {
      if n !in r.world.nodes {
        assert n !in At(r, Length(r)).nodes;
      } else {
        var k :| Length(start) <= k <= Length(before) && n !in At(before, k).nodes;
        AtExtended(before, r, k);
        assert n !in At(r, k).nodes;
      }
    }
  }

  lemma SplitResolves(r: Run, plan: Plan, desired: map<string, Node>, managed: map<string, Node>, res: Resolution,
                      snapshot: Option<seq<string>>)
    requires plan.name != ""
    requires Held(r, plan, desired) && Held(r, plan, managed)
    requires Splits(desired, managed, plan.name, res)
    requires forall n :: n in managed ==> Owner(managed[n]) == plan.name
    requires forall n :: n in r.world.nodes && Owner(r.world.nodes[n]) == plan.name ==> n in managed
    requires forall n :: n in desired ==> InSnapshot(plan, n)
    requires snapshot.Some? <==> plan.spec.selector.Some? && !plan.status.snapshotTaken
    requires snapshot.Some? ==> forall n :: n in snapshot.value <==> n in desired
    ensures Resolves(r.world, plan, managed + desired, res.(snapshot := snapshot))
    ensures Held(r, plan, managed + desired)
  {
    forall n | n in r.world.nodes && Owner(r.world.nodes[n]) == plan.name && n in desired ensures n in res.stable {
      CopyIsCurrent(r, desired[n]);
    }
  }

  lemma ListedResolves(r: Run, plan: Plan, nodes: map<string, Node>, managed: map<string, Node>, res: Resolution)
    requires Inv(r.world) && Held(r, plan, nodes)
    requires managed == map n | n in r.world.nodes && Owner(r.world.nodes[n]) == plan.name :: r.world.nodes[n]
    requires Splits(nodes, managed, plan.name, res.(snapshot := None))
    requires forall n :: n in nodes ==> InSnapshot(plan, n)
    requires res.snapshot == if plan.spec.selector.Some? && !plan.status.snapshotTaken then Some(res.all) else None
    ensures Resolves(r.world, plan, managed + nodes, res) && Held(r, plan, managed + nodes)
    ensures (set n | n in res.all) == nodes.Keys
    ensures (forall n :: n in nodes ==> n in r.world.nodes && r.world.nodes[n] == nodes[n]) ==>
      forall n :: n in managed + nodes ==> n in r.world.nodes && r.world.nodes[n] == (managed + nodes)[n]
  {
    hide Inv, Held, Resolves;
    PlanNameNotEmpty(r, plan, nodes);
    ListedIsHeld(r, plan, nodes, managed);
    SplitResolves(r, plan, nodes, managed, res.(snapshot := None), res.snapshot);
  }

  class MaintenanceService {
    const cluster: Cluster
    var plan: Plan
    var nodes: map<string, Node>
    ghost var recorded: bool

    constructor (cluster: Cluster, plan: Plan)
      ensures this.cluster == cluster && this.plan == plan && nodes == map[] && !recorded
    {
      this.cluster := cluster;
      this.plan := plan;
      this.nodes := map[];
      this.recorded := false;
    }

    /** After its status update the pass goes on with the copies that the update resolved. */
    ghost predicate InPass()
      reads this, cluster
    {
      && cluster.Valid()
      && Held(cluster.run, plan, nodes)
      && (recorded ==> Tracked(cluster.run, plan.name, nodes))
      && (cluster.calm ==>
            && cluster.w.plans[plan.name].spec == plan.spec
            && forall n :: n in nodes ==> n in cluster.w.nodes && cluster.w.nodes[n] == nodes[n])
    }

    /** The rest of the world moves. */
    method Pause()
      requires InPass()
      modifies cluster
      ensures InPass()
      ensures Quietly(old(cluster.run), cluster.run, plan.name) && Onward(old(cluster.run), cluster.run, plan.name)
      ensures MarksKept(old(cluster.w), cluster.w, {})
      ensures cluster.run.Then? && cluster.run.before == old(cluster.run) && cluster.run.step.Environment?
      ensures Interferes(nodes.Keys, old(cluster.w), cluster.w)
      ensures cluster.calm ==> cluster.w == old(cluster.w)
      ensures Patches(cluster.run) == Patches(old(cluster.run))
    {
      cluster.Interfere(nodes.Keys);
      InterferenceKeepsHeld(old(cluster.run), cluster.run, plan, nodes);
      QuietStep(old(cluster.run), cluster.run.step, cluster.w, plan.name);
      PauseIsOnward(old(cluster.run), cluster.run, plan.name);
    }

    /** A patch that reaches the server takes effect on whatever node n is by then. */
    method Land(n: string, why: Write, put: Node)
      requires InPass() && n in nodes && n in cluster.w.nodes
      requires Allowed(cluster.run, plan, why, nodes[n], put)
      modifies this`nodes, cluster
      ensures InPass()
      ensures cluster.w == Patched(old(cluster.w), old(nodes)[n], put)
      ensures cluster.run == Then(old(cluster.run), PatchNode(plan.name, plan.spec, why, old(nodes)[n], put), cluster.w)
      ensures n in cluster.w.nodes && nodes == old(nodes)[n := cluster.w.nodes[n]]
    {
      hide Inv, Reachable, Does, Allowed;
      var seen := nodes[n];
      assert seen.name == n;
      var next := Patched(cluster.w, seen, put);
      NameOfNode(cluster.w, n);
      PatchKeepsHeld(cluster.run, plan, nodes, why, put, n);
      PatchIsAStep(cluster.run, plan, nodes, why, put, n);
      if cluster.calm {
        PatchOnFresh(cluster.run, plan, why, seen, put);
      }
      cluster.Commit(PatchNode(plan.name, plan.spec, why, seen, put), next);
      nodes := nodes[n := next.nodes[n]];
    }

    /** A merge patch of node n, computed against the copy in hand; the answer replaces it. */
    method Patch(n: string, why: Write, put: Node) returns (ok: bool)
      requires InPass() && n in nodes
      requires Allowed(cluster.run, plan, why, nodes[n], put)
      modifies this`nodes, cluster
      ensures InPass()
      ensures n in nodes && nodes[n].name == n && nodes == old(nodes)[n := nodes[n]]
      ensures if ok then SameMarks(nodes[n], put) else nodes == old(nodes)
      ensures Quietly(old(cluster.run), cluster.run, plan.name)
      ensures MarksKept(old(cluster.w), cluster.w, {n})
      ensures ok && n in cluster.w.nodes ==> SameMarks(cluster.w.nodes[n], put)
      ensures ok && why == ReleasingDrifted ==> ReleasedThisPass(cluster.run, plan.name, n)
      ensures ok && why == Uncordoning ==> UncordonedLast(cluster.run, plan.name, n)
      ensures cluster.calm ==>
        ok && nodes[n] == put && cluster.w.plans == old(cluster.w.plans)
        && cluster.w.nodes == old(cluster.w.nodes)[n := put]
    {
      hide Patches, Inv, Reachable, Allowed, Copied, Does, Patched, MarksKept, Interferes, Quietly;
      ghost var before := cluster.run;
      Pause();
      ghost var mid := cluster.run;
      MarksKeptFirst(before.world, mid.world, mid.world, n);
      InterferenceKeepsPermission(before, mid, plan, why, nodes[n], put);
      if n !in cluster.w.nodes {
        return false;
      }
      if !cluster.calm {
        if * {
          return false;
        }
      }
      NameOfNode(cluster.w, n);
      PatchKeepsHeld(cluster.run, plan, nodes, why, put, n);
      PatchIsAStep(mid, plan, nodes, why, put, n);
      if cluster.calm {
        PatchOnFresh(cluster.run, plan, why, nodes[n], put);
      }
      Land(n, why, put);
      MarksKeptFirst(before.world, mid.world, cluster.w, n);
      QuietlyTransitive(before, mid, cluster.run, plan.name);
      ok := true;
    }

    /* ----- Resolving nodes ----- */

    /** Reads each named node; names that do not exist are skipped. */
    method GetNodes(names: seq<string>) returns (ok: bool, found: set<string>)
      requires InPass() && nodes == map[] && !recorded
      modifies this`nodes, cluster
      ensures InPass() && nodes.Keys == found
      ensures Quietly(old(cluster.run), cluster.run, plan.name)
      ensures MarksKept(old(cluster.w), cluster.w, {})
      ensures forall n :: n in found ==> n in names
      ensures ok ==> forall n :: n in names && n !in found ==> Missed(old(cluster.run), cluster.run, n)
      ensures cluster.calm ==> ok && cluster.w == old(cluster.w)
                               && found == set n | n in cluster.w.nodes && n in names
      ensures Patches(cluster.run) == Patches(old(cluster.run))
    {
      hide Patches, Inv, Reachable, Held, Quietly, Interferes, MarksKept, Missed;
      ghost var start, first := cluster.run, cluster.w;
      ok, found := true, {};
      QuietlyReflexive(cluster.run, plan.name);
      NothingMoved(first, {});
      for i := 0 to |names|
        invariant InPass() && nodes.Keys == found
        invariant Quietly(old(cluster.run), cluster.run, plan.name)
        invariant Patches(cluster.run) == Patches(old(cluster.run))
        invariant MarksKept(first, cluster.w, {})
        invariant forall n :: n in found ==> n in names[..i]
        invariant forall n :: n in names[..i] && n !in found ==> Missed(start, cluster.run, n)
        invariant cluster.calm ==> cluster.w == old(cluster.w)
                                   && found == set n | n in cluster.w.nodes && n in names[..i]
      {
        ghost var before := cluster.run;
        Pause();
        QuietlyTransitive(old(cluster.run), before, cluster.run, plan.name);
        MarksKeptTransitive(first, before.world, cluster.w, {});
        if !cluster.calm {
          if * {
            return false, found;
          }
        }
        var name := names[i];
        assert names[..i + 1] == names[..i] + [name];
        MissedNow(start, before, cluster.run, plan.name);
        if name in cluster.w.nodes {
          FreshCopy(cluster.run, plan, nodes, name);
          nodes := nodes[name := cluster.w.nodes[name]];
          found := found + {name};
        }
      }
      assert names[..|names|] == names;
    }

    /** Which nodes a selector matches is left open. */
    method SelectNodes() returns (ok: bool, found: set<string>)
      requires InPass() && nodes == map[] && !recorded
      modifies this`nodes, cluster
      ensures InPass() && nodes.Keys == found
      ensures Quietly(old(cluster.run), cluster.run, plan.name)
      ensures MarksKept(old(cluster.w), cluster.w, {})
      ensures cluster.calm ==> ok && cluster.w == old(cluster.w) && found <= cluster.w.nodes.Keys
      ensures Patches(cluster.run) == Patches(old(cluster.run))
    {
      hide Inv, Reachable, Held, Quietly, Interferes;
      Pause();
      ok, found := true, {};
      if !cluster.calm {
        if * {
          return false, found;
        }
      }
      found := CopySome();
    }

    method CopySome() returns (found: set<string>)
      requires InPass() && nodes == map[] && !recorded
      modifies this`nodes
      ensures InPass() && nodes.Keys == found <= cluster.w.nodes.Keys
    {
      hide Inv, Reachable, Held;
      found := {};
      var todo := cluster.w.nodes.Keys;
      while todo != {}
        invariant InPass() && nodes.Keys == found && todo <= cluster.w.nodes.Keys
        invariant found <= cluster.w.nodes.Keys
      {
        var n :| n in todo;
        if * {
          FreshCopy(cluster.run, plan, nodes, n);
          nodes := nodes[n := cluster.w.nodes[n]];
          found := found + {n};
        }
        todo := todo - {n};
      }
    }

    method ResolveOwnedNodes() returns (ok: bool, managed: map<string, Node>)
      requires InPass()
      modifies cluster
      ensures InPass()
      ensures Quietly(old(cluster.run), cluster.run, plan.name)
      ensures MarksKept(old(cluster.w), cluster.w, {})
      ensures ok ==> managed == map n | n in cluster.w.nodes && Owner(cluster.w.nodes[n]) == plan.name :: cluster.w.nodes[n]
      ensures cluster.calm ==> ok && cluster.w == old(cluster.w)
      ensures Patches(cluster.run) == Patches(old(cluster.run))
    {
      hide Inv, Reachable, Held, Quietly, Interferes;
      Pause();
      ok, managed := true, map[];
      if !cluster.calm {
        if * {
          return false, managed;
        }
      }
      managed := FilterOwned(cluster.w.nodes, plan.name);
    }

    /** The nodes the plan names: the frozen snapshot, the selection, or the explicit list. */
    method ResolveDesired() returns (ok: bool)
      requires InPass() && nodes == map[] && !recorded
      modifies this`nodes, cluster
      ensures InPass()
      ensures Quietly(old(cluster.run), cluster.run, plan.name)
      ensures forall n :: n in nodes ==> InSnapshot(plan, n)
      ensures cluster.calm ==> ok && cluster.w == old(cluster.w) && Desired(cluster.w, plan, nodes.Keys)
      ensures Patches(cluster.run) == Patches(old(cluster.run))
    {
      hide Patches, Inv, Reachable, Held, Quietly, Interferes, MarksKept, Tracked;
      var found := {};
      if plan.spec.selector.Some? {
        if plan.status.snapshotTaken {
          ok, found := GetNodes(plan.status.resolvedNodes);
        } else {
          ok, found := SelectNodes();
        }
      } else {
        ok, found := GetNodes(plan.spec.nodes);
      }
    }

    method ComputeOwnershipResolution() returns (ok: bool, res: Resolution)
      requires InPass() && nodes == map[] && !recorded
      modifies this`nodes, cluster
      ensures InPass()
      ensures Quietly(old(cluster.run), cluster.run, plan.name)
      ensures ok ==> Resolves(cluster.w, plan, nodes, res)
      ensures cluster.calm ==>
        ok && cluster.w == old(cluster.w) && Desired(cluster.w, plan, set n | n in res.all)
      ensures Patches(cluster.run) == Patches(old(cluster.run))
    {
      hide Patches, Inv, Reachable, Held, Quietly, Interferes, MarksKept, Tracked, InSnapshot, Resolves, Desired, Splits;
      ghost var start := cluster.run;
      ok := ResolveDesired();
      res := Resolution([], [], [], [], [], None);
      if !ok {
        return;
      }
      ghost var mid := cluster.run;
      var managed;
      ok, managed := ResolveOwnedNodes();
      QuietlyTransitive(start, mid, cluster.run, plan.name);
      if !ok {
        return;
      }
      res := ComputeOwnership(nodes, managed, plan.name);
      res := res.(snapshot := if plan.spec.selector.Some? && !plan.status.snapshotTaken then Some(res.all) else None);
      ListedResolves(cluster.run, plan, nodes, managed, res);
      nodes := managed + nodes;
    }

    /* ----- Adoption ----- */

    /** Adopts an unowned node, unless the status records it as drifted or completed. */
    method AdoptNode(n: string, cordon: bool) returns (ok: bool)
      requires InPass() && n in nodes && Owner(nodes[n]) == "" && InSnapshot(plan, n)
      requires cordon ==> CordonEnabled(plan.spec)
      modifies this`nodes, cluster
      ensures InPass() && n in nodes && nodes == old(nodes)[n := nodes[n]]
      ensures Quietly(old(cluster.run), cluster.run, plan.name)
      ensures cluster.calm ==> OneStaged(AdoptionStage(cordon), plan, n, old(cluster.w), cluster.w) && ok
      ensures Latched(plan.status.nodes, n) ==> Patches(cluster.run) == Patches(old(cluster.run))
    {
      hide Patches, Inv, Reachable, Quietly;
      assert nodes[n].name == n;
      if GetNodeDriftState(plan.status.nodes, n).0 {
        QuietlyReflexive(cluster.run, plan.name);
        return true;
      }
      if NodeCompletedMaintenance(plan.status.nodes, n) {
        QuietlyReflexive(cluster.run, plan.name);
        return true;
      }
      ok := Patch(n, Adopting(cordon), Adopted(nodes[n], plan.name, plan.spec.reason, cordon));
    }

    method ReconcileOwnership(toAdopt: seq<string>, cordonNow: bool) returns (ok: bool)
      requires InPass() && Distinct(toAdopt)
      requires forall n :: n in toAdopt ==> n in nodes && Owner(nodes[n]) == "" && InSnapshot(plan, n)
      modifies this`nodes, cluster
      ensures InPass() && Untouched(old(nodes), nodes, toAdopt)
      ensures Quietly(old(cluster.run), cluster.run, plan.name)
      ensures cluster.calm ==> ok && cluster.w.plans == old(cluster.w.plans)
      ensures cluster.calm ==> Staged(AdoptionStage(CordonEnabled(plan.spec) && cordonNow), plan, toAdopt,
                                      old(cluster.w.nodes), cluster.w.nodes)
      ensures (forall n :: n in toAdopt ==> Latched(plan.status.nodes, n)) ==> Patches(cluster.run) == Patches(old(cluster.run))
    {
      hide Patches, Inv, Reachable, Held, Quietly, Staged;
      var cordon := CordonEnabled(plan.spec) && cordonNow;
      ghost var start, first := cluster.run, cluster.w;
      QuietlyReflexive(start, plan.name);
      NothingStaged(AdoptionStage(cordon), plan, first.nodes);
      for i := 0 to |toAdopt|
        invariant InPass() && Untouched(old(nodes), nodes, toAdopt[..i])
        invariant (forall n :: n in toAdopt ==> Latched(plan.status.nodes, n)) ==>
          Patches(cluster.run) == Patches(old(cluster.run))
        invariant Quietly(start, cluster.run, plan.name)
        invariant cluster.calm ==> cluster.w.plans == first.plans
        invariant cluster.calm ==> Staged(AdoptionStage(cordon), plan, toAdopt[..i], first.nodes, cluster.w.nodes)
      {
        var n := toAdopt[i];
        ghost var before, mid := cluster.run, cluster.w;
        UntouchedNext(old(nodes), nodes, toAdopt, i);
        ok := AdoptNode(n, cordon);
        QuietlyTransitive(start, before, cluster.run, plan.name);
        if !ok {
          return;
        }
        if cluster.calm {
          StagedNext(AdoptionStage(cordon), plan, toAdopt, i, first, mid, cluster.w);
        }
      }
      assert toAdopt[..|toAdopt|] == toAdopt;
      ok := true;
    }

    /* ----- Status update and preview ----- */

    /** Writes the status before any release for drift. The answer refreshes the plan in hand. */
    method PublishPlanStatus(all: seq<string>, conflicting: nat, snapshot: Option<seq<string>>)
      returns (ok: bool, ghost at: Time)
      requires InPass() && Distinct(all)
      requires forall n :: n in all ==> n in nodes
      requires SnapshotFits(plan, all, snapshot)
      modifies this`plan, this`recorded, cluster
      ensures InPass() && recorded == (ok || old(recorded))
      ensures Extends(old(cluster.run), cluster.run)
      ensures forall n :: EvictionsBy(cluster.run, plan.name, n) == EvictionsBy(old(cluster.run), plan.name, n)
      ensures plan.name == old(plan.name) && (cluster.calm ==> plan.spec == old(plan.spec))
      ensures ok ==> plan.status == UpdatedStatus(old(plan), CopiesOf(nodes, all), conflicting, snapshot, at)
      ensures ok ==> NothingPending(cluster.run, plan.name)
      ensures ok ==> forall n :: n in all ==> Covered(cluster.run, plan.name, nodes[n])
      ensures !ok ==> plan == old(plan)
      ensures MarksKept(old(cluster.w), cluster.w, {})
      ensures Undrained(old(cluster.run), cluster.run, plan.name)
      ensures cluster.calm ==> ok && cluster.w.nodes == old(cluster.w.nodes)
      ensures Patches(cluster.run) == Patches(old(cluster.run))
    {
      hide Inv, Reachable, Does, UpdatedStatus, Quietly, Undrained, EvictionsBy, SameEvictions, NothingPending, Tracked;
      ghost var start := cluster.run;
      var copies := CopiesOf(nodes, all);
      var now := cluster.w.now;
      at := now;
      var status := UpdateStatus(plan, copies, conflicting, snapshot, now);
      Pause();
      ghost var mid := cluster.run;
      PauseFacts(start, mid, plan.name);
      QuietMeansUndrained(start, mid, plan.name);
      if !cluster.calm {
        if * {
          ok := false;
          return;
        }
      }
      PublishIsAStep(mid, plan, nodes, all, copies, conflicting, snapshot, at);
      var next := WithStatus(cluster.w, plan.name, status);
      cluster.Commit(PublishStatus(plan.name, plan.spec, copies, conflicting, snapshot, at), next);
      PublishFacts(start, mid, cluster.run, plan.name);
      HeldNames(mid, plan, nodes);
      UpdateCovers(cluster.run, nodes, all);
      recorded := true;
      plan := cluster.w.plans[plan.name];
      ok := true;
    }

    /** The dry run. Of its result only preview fields change, which are not modelled; but it can
        abort the pass, and the answer to its patch refreshes the plan in hand. */
    method ReconcilePreview(targets: seq<string>) returns (ok: bool)
      requires InPass()
      modifies this`plan, cluster
      ensures InPass()
      ensures plan.name == old(plan.name) && plan.status == old(plan.status)
      ensures cluster.calm ==> plan.spec == old(plan.spec)
      ensures DrainInProgress in plan.status.conditions || targets == [] ==>
        ok && plan == old(plan) && cluster.run == old(cluster.run)
      ensures Quietly(old(cluster.run), cluster.run, plan.name)
      ensures MarksKept(old(cluster.w), cluster.w, {})
      ensures cluster.calm ==> ok && cluster.w == old(cluster.w)
      ensures Patches(cluster.run) == Patches(old(cluster.run))
    {
      hide Patches, Inv, Reachable, Quietly, Interferes, MarksKept;
      NothingMoved(cluster.w, {});
      if DrainInProgress in plan.status.conditions || |targets| == 0 {
        QuietlyReflexive(cluster.run, plan.name);
        return true;
      }
      Pause();
      ok := true;
      if !cluster.calm {
        if * {
          ok := false;
          return;
        }
      }
      RefreshedIsHeld(cluster.run, plan, nodes);
      plan := cluster.w.plans[plan.name];
    }

    /* ----- Drift ----- */

    method ReleaseDrifted(n: string) returns (ok: bool)
      requires InPass() && recorded && n in nodes && Owner(nodes[n]) == plan.name
      requires Covered(cluster.run, plan.name, nodes[n])
      modifies this`nodes, cluster
      ensures InPass() && n in nodes && nodes == old(nodes)[n := nodes[n]]
      ensures ok ==> DrainTarget(cluster.run, plan.name, nodes[n])
      ensures ok && Owner(nodes[n]) == plan.name ==> !Releases(DetectNodeDrift(nodes[n], plan))
      ensures Quietly(old(cluster.run), cluster.run, plan.name)
      ensures cluster.calm ==> OneStaged(DriftStage, plan, n, old(cluster.w), cluster.w) && ok
      ensures !Releases(DetectNodeDrift(old(nodes)[n], plan)) ==>
        nodes == old(nodes) && Patches(cluster.run) == Patches(old(cluster.run))
    {
      hide Patches, Inv, Reachable, Covered, Resolved, InHand, Copied;
      NameOfCopy(cluster.run, plan, nodes, n);
      PlanNameNotEmpty(cluster.run, plan, nodes);
      CoveredIsResolved(cluster.run, plan.name, nodes[n]);
      match DetectNodeDrift(nodes[n], plan) {
        case MaintenanceComplete =>
          ok := Patch(n, ReleasingDrifted, ReleasedNode(nodes[n]));
        case ManualUncordon =>
          ok := Patch(n, ReleasingDrifted, ReleasedNode(nodes[n]));
        case ExternalCordon =>
          QuietlyReflexive(cluster.run, plan.name);
          ok := true;
        case NoDrift =>
          QuietlyReflexive(cluster.run, plan.name);
          ok := true;
      }
    }

    method ReconcileDrift(stable: seq<string>) returns (ok: bool)
      requires InPass() && recorded && Distinct(stable)
      requires forall n :: n in stable ==>
        n in nodes && Owner(nodes[n]) == plan.name && Covered(cluster.run, plan.name, nodes[n])
      modifies this`nodes, cluster
      ensures InPass() && Untouched(old(nodes), nodes, stable)
      ensures ok ==> forall n :: n in stable ==> n in nodes && DrainTarget(cluster.run, plan.name, nodes[n])
      ensures ok ==> forall n :: n in stable && Owner(nodes[n]) == plan.name
                                 ==> !Releases(DetectNodeDrift(nodes[n], plan))
      ensures Quietly(old(cluster.run), cluster.run, plan.name)
      ensures cluster.calm ==> ok && cluster.w.plans == old(cluster.w.plans)
      ensures cluster.calm ==> Staged(DriftStage, plan, stable, old(cluster.w.nodes), cluster.w.nodes)
      ensures (forall n :: n in stable ==> !Releases(DetectNodeDrift(old(nodes)[n], plan))) ==>
        nodes == old(nodes) && Patches(cluster.run) == Patches(old(cluster.run))
    {
      hide Patches, Inv, Reachable, Held, Staged, Quietly, Covered, DrainTarget, DetectNodeDrift, OneStaged;
      ghost var start, first := cluster.run, cluster.w;
      QuietlyReflexive(start, plan.name);
      NothingStaged(DriftStage, plan, first.nodes);
      for i := 0 to |stable|
        invariant InPass() && Untouched(old(nodes), nodes, stable[..i])
        invariant forall n :: n in stable[..i] ==> n in nodes && DrainTarget(cluster.run, plan.name, nodes[n])
        invariant forall n :: n in stable ==> Covered(cluster.run, plan.name, old(nodes)[n])
        invariant forall n :: n in stable[..i] && Owner(nodes[n]) == plan.name
                              ==> !Releases(DetectNodeDrift(nodes[n], plan))
        invariant (forall n :: n in stable ==> !Releases(DetectNodeDrift(old(nodes)[n], plan))) ==>
          nodes == old(nodes) && Patches(cluster.run) == Patches(old(cluster.run))
        invariant Quietly(start, cluster.run, plan.name)
        invariant cluster.calm ==> cluster.w.plans == first.plans
        invariant cluster.calm ==> Staged(DriftStage, plan, stable[..i], first.nodes, cluster.w.nodes)
      {
        var n := stable[i];
        ghost var before, mid := cluster.run, cluster.w;
        ghost var copies := nodes;
        UntouchedNext(old(nodes), nodes, stable, i);
        HeldNames(before, plan, nodes);
        ok := ReleaseDrifted(n);
        KeepTargets(before, copies, stable[..i]);
        QuietlyCovers(before, cluster.run, plan.name);
        QuietlyTransitive(start, before, cluster.run, plan.name);
        if !ok {
          return;
        }
        if cluster.calm {
          StagedNext(DriftStage, plan, stable, i, first, mid, cluster.w);
        }
      }
      assert stable[..|stable|] == stable;
      ok := true;
    }

    /* ----- Cordon ----- */

    method CordonNode(n: string) returns (ok: bool)
      requires InPass() && n in nodes && Owner(nodes[n]) == plan.name && CordonEnabled(plan.spec)
      requires !Releases(DetectNodeDrift(nodes[n], plan))
      modifies this`nodes, cluster
      ensures InPass() && n in nodes && nodes == old(nodes)[n := nodes[n]]
      ensures Owner(nodes[n]) == plan.name
      ensures Quietly(old(cluster.run), cluster.run, plan.name)
      ensures cluster.calm ==> OneStaged(CordonStage, plan, n, old(cluster.w), cluster.w) && ok
      ensures AlreadyCordoned(old(nodes)[n]) ==> Patches(cluster.run) == Patches(old(cluster.run))
    {
      hide Patches, Inv, Reachable, Quietly;
      NameOfCopy(cluster.run, plan, nodes, n);
      if AlreadyCordoned(nodes[n]) {
        QuietlyReflexive(cluster.run, plan.name);
        assert CordonedNode(nodes[n]).annotations == nodes[n].annotations;
        return true;
      }
      ok := Patch(n, Cordoning, CordonedNode(nodes[n]));
    }

    lemma UncordonedAlready(n: string)
      requires InPass() && n in nodes && Owner(nodes[n]) == plan.name && AlreadyUncordoned(nodes[n])
      ensures Uncordoned(cluster.run, plan.name, nodes[n]) && SchedulableSinceCordon(cluster.run, n)
      ensures Quietly(cluster.run, cluster.run, plan.name) && MarksKept(cluster.w, cluster.w, {n})
      ensures n in cluster.w.nodes ==> Owner(cluster.w.nodes[n]) == plan.name
      ensures cluster.calm ==> n in cluster.w.nodes && UncordonedNode(cluster.w.nodes[n]) == cluster.w.nodes[n]
    {
      NameOfCopy(cluster.run, plan, nodes, n);
      QuietlyReflexive(cluster.run, plan.name);
      CopyIsCurrent(cluster.run, nodes[n]);
      UncordonedWasSchedulable(cluster.run, plan.name, nodes[n]);
      if cluster.calm {
        MarksAreSane(cluster.w, n);
        assert UncordonedNode(nodes[n]).annotations == nodes[n].annotations;
      }
      hide Inv, Reachable, Quietly;
    }

    method UncordonNode(n: string) returns (ok: bool)
      requires InPass() && n in nodes && Owner(nodes[n]) == plan.name
      modifies this`nodes, cluster
      ensures InPass() && n in nodes && nodes == old(nodes)[n := nodes[n]]
      ensures Owner(nodes[n]) == plan.name
      ensures ok ==> Uncordoned(cluster.run, plan.name, nodes[n]) && SchedulableSinceCordon(cluster.run, n)
      ensures Quietly(old(cluster.run), cluster.run, plan.name)
      ensures MarksKept(old(cluster.w), cluster.w, {n})
      ensures n in cluster.w.nodes ==> Owner(cluster.w.nodes[n]) == plan.name
      ensures cluster.calm ==>
        && ok && n in old(cluster.w.nodes) && cluster.w.plans == old(cluster.w.plans)
        && cluster.w.nodes == old(cluster.w.nodes)[n := UncordonedNode(old(cluster.w.nodes)[n])]
      ensures AlreadyUncordoned(old(nodes)[n]) ==> Patches(cluster.run) == Patches(old(cluster.run))
    {
      hide Patches, Inv, Reachable;
      NameOfCopy(cluster.run, plan, nodes, n);
      if AlreadyUncordoned(nodes[n]) {
        UncordonedAlready(n);
        return true;
      }
      hide Quietly, Copied;
      ok := Patch(n, Uncordoning, UncordonedNode(nodes[n]));
      NameOfCopy(cluster.run, plan, nodes, n);
      CopyIsCurrent(cluster.run, nodes[n]);
      if ok {
        UncordonedWasSchedulable(cluster.run, plan.name, nodes[n]);
      }
    }

    /** A node cordoned by somebody else is left alone when the plan does not cordon. */
    method CordonOrUncordon(n: string) returns (ok: bool)
      requires InPass() && n in nodes
      requires Owner(nodes[n]) == plan.name ==> !Releases(DetectNodeDrift(nodes[n], plan))
      modifies this`nodes, cluster
      ensures InPass() && n in nodes && nodes == old(nodes)[n := nodes[n]]
      ensures Owner(nodes[n]) == old(Owner(nodes[n]))
      ensures Owner(nodes[n]) != plan.name ==> nodes == old(nodes)
      ensures Quietly(old(cluster.run), cluster.run, plan.name)
      ensures cluster.calm ==> OneStaged(CordonStage, plan, n, old(cluster.w), cluster.w) && ok
      ensures CordonIdle(old(nodes)[n], plan) ==> Patches(cluster.run) == Patches(old(cluster.run))
    {
      hide Patches, Inv, Reachable, Quietly;
      if Owner(nodes[n]) != plan.name {
        QuietlyReflexive(cluster.run, plan.name);
        return true;
      }
      if CordonEnabled(plan.spec) {
        ok := CordonNode(n);
      } else if nodes[n].unschedulable && !OperatorCordoned(nodes[n]) {
        QuietlyReflexive(cluster.run, plan.name);
        ok := true;
      } else {
        ok := UncordonNode(n);
      }
    }

    method ReleaseNode(n: string) returns (ok: bool)
      requires InPass() && n in nodes && Owner(nodes[n]) == plan.name
      requires Uncordoned(cluster.run, plan.name, nodes[n])
      modifies this`nodes, cluster
      ensures InPass() && n in nodes && nodes == old(nodes)[n := nodes[n]]
      ensures ok ==> Owner(nodes[n]) == ""
      ensures ok && n in cluster.w.nodes ==> Owner(cluster.w.nodes[n]) == ""
      ensures Quietly(old(cluster.run), cluster.run, plan.name)
      ensures MarksKept(old(cluster.w), cluster.w, {n})
      ensures cluster.calm ==>
        && ok && n in old(cluster.w.nodes) && cluster.w.plans == old(cluster.w.plans)
        && cluster.w.nodes == old(cluster.w.nodes)[n := ReleasedNode(old(cluster.w.nodes)[n])]
    {
      hide Inv, Reachable, Quietly;
      NameOfCopy(cluster.run, plan, nodes, n);
      ok := Patch(n, Releasing, ReleasedNode(nodes[n]));
    }

    /** Uncordon first, release second. */
    method UncordonAndRelease(n: string) returns (ok: bool)
      requires InPass() && n in nodes && Owner(nodes[n]) == plan.name
      modifies this`nodes, cluster
      ensures InPass() && n in nodes && nodes == old(nodes)[n := nodes[n]]
      ensures ok && n in cluster.w.nodes ==> Owner(cluster.w.nodes[n]) == ""
      ensures Quietly(old(cluster.run), cluster.run, plan.name)
      ensures MarksKept(old(cluster.w), cluster.w, {n})
      ensures cluster.calm ==> OneStaged(ReleaseStage, plan, n, old(cluster.w), cluster.w) && ok
    {
      hide Patches, Inv, Reachable, Held, Quietly, Uncordoned, SchedulableSinceCordon, MarksKept, OneStaged, UncordonedNode,
           ReleasedNode;
      ghost var start := cluster.run;
      ok := UncordonNode(n);
      if !ok {
        return;
      }
      ghost var mid := cluster.run;
      ok := ReleaseNode(n);
      QuietlyTransitive(start, mid, cluster.run, plan.name);
      MarksKeptNext(start.world, mid.world, cluster.w, {n}, n);
      if cluster.calm {
        ReleaseInTwo(start.world, mid.world, cluster.w, plan, n);
      }
    }

    method ReleaseRemoved(toRelease: seq<string>) returns (ok: bool)
      requires InPass() && Distinct(toRelease)
      requires forall n :: n in toRelease ==> n in nodes && Owner(nodes[n]) == plan.name
      modifies this`nodes, cluster
      ensures InPass() && Untouched(old(nodes), nodes, toRelease)
      ensures ok ==> Ownerless(cluster.w, toRelease)
      ensures Quietly(old(cluster.run), cluster.run, plan.name)
      ensures MarksKept(old(cluster.w), cluster.w, set n | n in toRelease)
      ensures cluster.calm ==> ok && cluster.w.plans == old(cluster.w.plans)
      ensures cluster.calm ==> Staged(ReleaseStage, plan, toRelease, old(cluster.w.nodes), cluster.w.nodes)
      ensures toRelease == [] ==> Patches(cluster.run) == Patches(old(cluster.run))
    {
      hide Patches, Inv, Reachable, Held, Quietly, Staged, OneStaged, MarksKept, Ownerless;
      ghost var start, first := cluster.run, cluster.w;
      ghost var touched := set n | n in toRelease;
      QuietlyReflexive(start, plan.name);
      NothingStaged(ReleaseStage, plan, first.nodes);
      NothingMoved(first, touched);
      for i := 0 to |toRelease|
        invariant InPass() && Untouched(old(nodes), nodes, toRelease[..i])
        invariant Ownerless(cluster.w, toRelease[..i])
        invariant i == 0 ==> Patches(cluster.run) == Patches(old(cluster.run))
        invariant Quietly(start, cluster.run, plan.name)
        invariant MarksKept(first, cluster.w, touched)
        invariant cluster.calm ==> cluster.w.plans == first.plans
        invariant cluster.calm ==> Staged(ReleaseStage, plan, toRelease[..i], first.nodes, cluster.w.nodes)
      {
        var n := toRelease[i];
        ghost var before, mid := cluster.run, cluster.w;
        UntouchedNext(old(nodes), nodes, toRelease, i);
        assert n in touched;
        ok := UncordonAndRelease(n);
        MarksKeptNext(first, mid, cluster.w, touched, n);
        QuietlyTransitive(start, before, cluster.run, plan.name);
        if !ok {
          return;
        }
        OwnerlessNext(mid, cluster.w, toRelease, i);
        if cluster.calm {
          StagedNext(ReleaseStage, plan, toRelease, i, first, mid, cluster.w);
        }
      }
      assert toRelease[..|toRelease|] == toRelease;
      ok := true;
    }

    method CordonStable(stable: seq<string>) returns (ok: bool)
      requires InPass() && recorded && Distinct(stable)
      requires forall n :: n in stable ==> n in nodes
      requires forall n :: n in stable && Owner(nodes[n]) == plan.name ==> !Releases(DetectNodeDrift(nodes[n], plan))
      requires forall n :: n in stable ==> DrainTarget(cluster.run, plan.name, nodes[n])
      modifies this`nodes, cluster
      ensures InPass() && Untouched(old(nodes), nodes, stable)
      ensures forall n :: n in stable ==> n in nodes && DrainTarget(cluster.run, plan.name, nodes[n])
      ensures Quietly(old(cluster.run), cluster.run, plan.name)
      ensures cluster.calm ==> ok && cluster.w.plans == old(cluster.w.plans)
      ensures cluster.calm ==> Staged(CordonStage, plan, stable, old(cluster.w.nodes), cluster.w.nodes)
      ensures (forall n :: n in stable ==> CordonIdle(old(nodes)[n], plan)) ==> Patches(cluster.run) == Patches(old(cluster.run))
    {
      hide Patches, Inv, Reachable, Held, Staged, Quietly, DrainTarget, DetectNodeDrift, OneStaged, CordonIdle;
      ghost var start, first := cluster.run, cluster.w;
      QuietlyReflexive(start, plan.name);
      NothingStaged(CordonStage, plan, first.nodes);
      for i := 0 to |stable|
        invariant InPass() && Untouched(old(nodes), nodes, stable[..i])
        invariant forall n :: n in stable ==> n in nodes && DrainTarget(cluster.run, plan.name, nodes[n])
        invariant (forall n :: n in stable ==> CordonIdle(old(nodes)[n], plan)) ==>
          Patches(cluster.run) == Patches(old(cluster.run))
        invariant Quietly(start, cluster.run, plan.name)
        invariant cluster.calm ==> cluster.w.plans == first.plans
        invariant cluster.calm ==> Staged(CordonStage, plan, stable[..i], first.nodes, cluster.w.nodes)
      {
        var n := stable[i];
        ghost var before, mid := cluster.run, cluster.w;
        ghost var copies := nodes;
        UntouchedNext(old(nodes), nodes, stable, i);
        HeldNames(before, plan, nodes);
        ok := CordonOrUncordon(n);
        KeepTargets(before, copies, stable);
        QuietlyTransitive(start, before, cluster.run, plan.name);
        if !ok {
          return;
        }
        if cluster.calm {
          StagedNext(CordonStage, plan, stable, i, first, mid, cluster.w);
        }
      }
      assert stable[..|stable|] == stable;
      ok := true;
    }

    /* ----- Finalizer and deletion ----- */

    /** The plan in hand was just read; the patch fails if it vanished meanwhile. */
    method EnsureFinalizer() returns (ok: bool)
      requires cluster.Valid() && nodes == map[] && !recorded
      requires plan.name in cluster.w.plans && cluster.w.plans[plan.name] == plan && !plan.deleting
      modifies this`plan, cluster
      ensures cluster.Valid() && Extends(old(cluster.run), cluster.run)
      ensures ok ==> InPass()
      ensures plan.name == old(plan.name) && plan.status == old(plan.status)
      ensures cluster.calm ==> plan.spec == old(plan.spec)
      ensures forall n :: EvictionsBy(cluster.run, plan.name, n) == EvictionsBy(old(cluster.run), plan.name, n)
      ensures cluster.calm ==> ok && cluster.w.nodes == old(cluster.w.nodes)
      ensures Undrained(old(cluster.run), cluster.run, plan.name)
      ensures old(plan.finalizer) ==> ok && cluster.run == old(cluster.run) && plan == old(plan)
      ensures ok ==> plan.name in cluster.w.plans && cluster.w.plans[plan.name] == plan
      ensures Patches(cluster.run) == Patches(old(cluster.run))
    {
      hide Inv, Reachable;
      ghost var start := cluster.run;
      ExtendsReflexive(start);
      UndrainedReflexive(start, plan.name);
      if plan.finalizer {
        return true;
      }
      cluster.Interfere({});
      assert Undrained(start, cluster.run, plan.name) && Extends(start, cluster.run);
      if plan.name !in cluster.w.plans {
        return false;
      }
      if !cluster.calm {
        if * {
          return false;
        }
      }
      hide Inv, Reachable, Does, Held, Interferes, Undrained, EvictionsBy, Patches;
      FinalizerIsAStep(cluster.run, plan);
      var next := WithFinalizer(cluster.w, plan.name);
      cluster.Commit(AddFinalizer(plan.name), next);
      FinalizerFacts(start, cluster.run, plan.name);
      plan := cluster.w.plans[plan.name];
      ok := true;
    }

    /** Uncordons and releases every owned node. */
    method CleanUp() returns (ok: bool)
      requires InPass() && nodes == map[] && !recorded
      modifies this`nodes, cluster
      ensures InPass()
      ensures ok ==> NoneOwnedBy(cluster.w, plan.name)
      ensures Quietly(old(cluster.run), cluster.run, plan.name)
      ensures cluster.calm ==> ok && CleanedUp(old(cluster.w.nodes), cluster.w.nodes, plan.name)
    {
      hide Inv, Reachable, Held, Quietly, MarksKept, Tracked, Uncordoned;
      ghost var start, first := cluster.run, cluster.w.nodes;
      var managed;
      ok, managed := ResolveOwnedNodes();
      if !ok {
        return;
      }
      PlanNameNotEmpty(cluster.run, plan, nodes);
      ListedIsHeld(cluster.run, plan, nodes, managed);
      nodes := managed;
      var todo := managed.Keys;
      while todo != {}
        invariant InPass() && todo <= nodes.Keys
        invariant forall n :: n in todo ==> Owner(nodes[n]) == plan.name
        invariant OwnedWithin(cluster.w, plan.name, todo)
        invariant Quietly(start, cluster.run, plan.name)
        invariant cluster.calm ==> CleanedSoFar(first, cluster.w.nodes, plan.name, todo)
      {
        var n :| n in todo;
        ghost var before := cluster.run;
        ok := UncordonAndRelease(n);
        QuietlyTransitive(start, before, cluster.run, plan.name);
        if !ok {
          return;
        }
        if cluster.calm {
          CleanedNext(first, before.world, cluster.w, plan, todo, n);
        }
        OwnedWithinNext(before.world, cluster.w, plan.name, todo, n);
        todo := todo - {n};
      }
      ok := true;
    }

    /** The finalizer goes last. */
    method HandleDeletion() returns (ok: bool)
      requires InPass() && nodes == map[] && !recorded && plan.deleting
      modifies this`nodes, cluster
      ensures cluster.Valid() && Extends(old(cluster.run), cluster.run)
      ensures ok ==> plan.name !in cluster.w.plans && NoneOwnedBy(cluster.w, plan.name)
      ensures Undrained(old(cluster.run), cluster.run, plan.name)
      ensures cluster.calm ==> ok && CleanedUp(old(cluster.w.nodes), cluster.w.nodes, plan.name)
    {
      hide Inv, Reachable;
      ghost var start := cluster.run;
      ok := CleanUp();
      QuietMeansUndrained(start, cluster.run, plan.name);
      if !ok {
        return;
      }
      ghost var cleaned := cluster.run;
      Pause();
      ghost var mid := cluster.run;
      QuietlyTransitive(start, cleaned, mid, plan.name);
      QuietMeansUndrained(start, mid, plan.name);
      if !cluster.calm {
        if * {
          return false;
        }
      }
      cluster.Commit(RemoveFinalizer(plan.name), cluster.w.(plans := cluster.w.plans - {plan.name}));
      ExtendsByTwo(start, cluster.run);
      ok := true;
    }

    /* ----- Drain ----- */

    /** A copy that passed the drain loop's tests. */
    ghost predicate Drainable(n: string)
      reads this, cluster
    {
      && n in nodes
      && nodes[n].unschedulable && IsNodeReady(nodes[n])
      && DrainTarget(cluster.run, plan.name, nodes[n])
      && !TimedOut(plan)
    }

    /** The pod may be asked to go: listed as this, evictable by the options, and not evicted yet. */
    ghost predicate MayAsk(pod: Pod, n: string, cfg: DrainConfig, listedAt: nat)
      reads this, cluster
    {
      && pod.id.node == n && GetDrainConfig(plan.spec) == Some(cfg) && MayEvict(pod, cfg)
      && ListedAs(cluster.run, listedAt, pod) && pod.id !in EvictedIds(cluster.run)
    }

    /** The pod goes at once, or is left with a deletion timestamp. */
    method Accept(n: string, pod: Pod, cfg: DrainConfig, ghost listedAt: nat, ghost deletion: bool)
      requires InPass() && Drainable(n) && MayAsk(pod, n, cfg, listedAt)
      requires if deletion then MayDelete(cluster.run, plan.spec, pod.id, listedAt) else pod.id in cluster.w.pods
      modifies cluster
      ensures InPass() && Drainable(n)
      ensures Onward(old(cluster.run), cluster.run, plan.name)
      ensures cluster.calm ==> cluster.w.nodes == old(cluster.w.nodes)
      ensures cluster.run.Then? && cluster.run.before == old(cluster.run)
      ensures cluster.run.step == EvictPod(plan.name, plan.spec, nodes[n], pod.id, listedAt, deletion)
      ensures CountsOnly(old(cluster.run), cluster.run, plan.name, n, 1)
      ensures LastEviction(cluster.run, plan.name) == Some(cluster.w.now)
      ensures cluster.w.usedIds == old(cluster.w.usedIds)
      ensures Patches(cluster.run) == Patches(old(cluster.run))
    {
      hide Inv, Reachable, Does, Held, Evicted, Onward, DrainTarget, Requestable, MayDelete;
      ghost var before := cluster.run;
      var next := Terminate(cluster.w, pod.id);
      RequestIsAllowed(before, plan, nodes, n, pod, listedAt, cfg);
      EvictionIsAStep(before, plan, nodes, n, pod.id, listedAt, deletion, next);
      EvictedKeepsUsed(before.world, pod.id, next);
      cluster.Commit(EvictPod(plan.name, plan.spec, nodes[n], pod.id, listedAt, deletion), next);
      DrainTargetPersists(before, cluster.run, plan.name, nodes[n]);
    }

    lemma EvictedKeepsUsed(w: World, id: PodId, next: World)
      requires Evicted(w, id, next)
      ensures next.usedIds == w.usedIds
    {
    }

    /** Any other answer changes nothing. */
    method Decline(n: string, pod: Pod, cfg: DrainConfig, ghost listedAt: nat, ghost answer: Answer)
      requires InPass() && Drainable(n) && MayAsk(pod, n, cfg, listedAt)
      requires answer != Accepted && (answer == NotFound ==> pod.id !in cluster.w.pods)
      modifies cluster
      ensures InPass() && Drainable(n) && cluster.w == old(cluster.w)
      ensures Onward(old(cluster.run), cluster.run, plan.name)
      ensures cluster.run.Then? && cluster.run.before == old(cluster.run)
      ensures cluster.run.step == Reply(plan.name, plan.spec, nodes[n], pod.id, listedAt, answer)
      ensures CountsOnly(old(cluster.run), cluster.run, plan.name, n, 0)
      ensures EvictionsSince(old(cluster.run), cluster.run, plan.name, false)
      ensures Patches(cluster.run) == Patches(old(cluster.run))
    {
      hide Inv, Reachable, Does, Held, Onward, DrainTarget, Requestable;
      ghost var before := cluster.run;
      RequestIsAllowed(before, plan, nodes, n, pod, listedAt, cfg);
      ReplyIsAStep(before, plan, nodes, n, pod.id, listedAt, answer);
      cluster.Commit(Reply(plan.name, plan.spec, nodes[n], pod.id, listedAt, answer), cluster.w);
      DrainTargetPersists(before, cluster.run, plan.name, nodes[n]);
    }

    /** The world moves on before a request for a listed pod is answered. */
    method WaitForRequest(n: string, pod: Pod, cfg: DrainConfig, ghost listedAt: nat)
      requires InPass() && Drainable(n) && MayAsk(pod, n, cfg, listedAt)
      modifies cluster
      ensures InPass() && Drainable(n) && MayAsk(pod, n, cfg, listedAt)
      ensures Quietly(old(cluster.run), cluster.run, plan.name) && Onward(old(cluster.run), cluster.run, plan.name)
      ensures NoAnswers(old(cluster.run), cluster.run) && Length(cluster.run) == Length(old(cluster.run)) + 1
      ensures cluster.calm ==> cluster.w.nodes == old(cluster.w.nodes)
      ensures EvictedIds(cluster.run) == EvictedIds(old(cluster.run))
      ensures DeletedIds(cluster.run) == DeletedIds(old(cluster.run))
      ensures old(cluster.w.usedIds) <= cluster.w.usedIds
      ensures Patches(cluster.run) == Patches(old(cluster.run))
    {
      hide Patches, Inv, Reachable, Held, DrainTarget, MayEvict;
      ghost var before := cluster.run;
      Pause();
      DrainTargetPersists(before, cluster.run, plan.name, nodes[n]);
      StillListed(before, cluster.run, listedAt, pod);
      PauseAnswersNothing(before, cluster.run);
    }

    /** A request on the record, with its answer. */
    ghost predicate Recorded(start: Run, r: Run, id: PodId, deletion: bool, answer: Answer) {
      && r.Then? && OnlyAbout(start, r, id) && Length(start) < Length(r)
      && (if answer == Accepted then r.step.EvictPod? && r.step.pod == id && r.step.deletion == deletion
          else r.step.Reply? && r.step.pod == id && r.step.answer == answer)
      && (forall k: nat, a: Answer :: k <= Length(start) ==>
            (Answered(r, k, id, a) <==> Answered(start, k, id, a) || (a != Accepted && a == answer)))
      && EvictedIds(r) == EvictedIds(start) + (if answer == Accepted then {id} else {})
      && DeletedIds(r) == DeletedIds(start) + (if answer == Accepted && deletion then {id} else {})
    }

    lemma RequestRecorded(start: Run, paused: Run, r: Run, id: PodId, deletion: bool, answer: Answer)
      requires NoAnswers(start, paused) && Length(paused) == Length(start) + 1
      requires EvictedIds(paused) == EvictedIds(start) && DeletedIds(paused) == DeletedIds(start)
      requires r.Then? && r.before == paused
      requires if answer == Accepted then r.step.EvictPod? && r.step.pod == id && r.step.deletion == deletion
               else r.step.Reply? && r.step.pod == id && r.step.answer == answer
      ensures Recorded(start, r, id, deletion, answer)
    {
      AnswerOnRecord(paused, r, id);
      OnlyAboutOn(start, paused, r, id);
    }

    /** An eviction request: the server decides. On a calm cluster no call fails. */
    method RequestEviction(n: string, pod: Pod, cfg: DrainConfig, ghost listedAt: nat) returns (answer: Answer)
      requires InPass() && Drainable(n) && MayAsk(pod, n, cfg, listedAt)
      modifies cluster
      ensures InPass() && Drainable(n)
      ensures Onward(old(cluster.run), cluster.run, plan.name)
      ensures Recorded(old(cluster.run), cluster.run, pod.id, false, answer)
      ensures answer == NotFound ==> pod.id !in cluster.w.pods
      ensures cluster.calm ==> answer != OtherAnswer && cluster.w.nodes == old(cluster.w.nodes)
      ensures CountsOnly(old(cluster.run), cluster.run, plan.name, n, if answer == Accepted then 1 else 0)
      ensures EvictionsSince(old(cluster.run), cluster.run, plan.name, answer == Accepted)
      ensures old(cluster.w.usedIds) <= cluster.w.usedIds
      ensures Patches(cluster.run) == Patches(old(cluster.run))
    {
      hide Patches, Inv, Reachable, Held, DrainTarget, Onward, Quietly, CountsOnly, SameEvictions, Recorded, MayEvict, ListedAs;
      ghost var start := cluster.run;
      WaitForRequest(n, pod, cfg, listedAt);
      ghost var paused := cluster.run;
      NothingYet(start, paused, plan.name, n);
      answer := AnswerTo(pod.id);
      if answer == Accepted {
        Accept(n, pod, cfg, listedAt, false);
        CountsAdd(start, paused, cluster.run, plan.name, n, 0, 1);
      } else {
        Decline(n, pod, cfg, listedAt, answer);
        CountsAdd(start, paused, cluster.run, plan.name, n, 0, 0);
        EvictionsCompose(start, paused, cluster.run, plan.name, false, false);
      }
      RequestRecorded(start, paused, cluster.run, pod.id, false, answer);
      OnwardTransitive(start, paused, cluster.run, plan.name);
    }

    /** What the server makes of an eviction request: whether a budget allows it is left open. */
    method AnswerTo(id: PodId) returns (answer: Answer)
      ensures answer == NotFound <==> id !in cluster.w.pods && answer != OtherAnswer
      ensures cluster.calm ==> answer != OtherAnswer
    {
      if !cluster.calm {
        if * {
          return OtherAnswer;
        }
      }
      if id !in cluster.w.pods {
        return NotFound;
      }
      answer := TooManyRequests;
      if * {
        answer := Accepted;
      }
    }

    /** An outright deletion: a pod that is gone by then counts as deleted. */
    method RequestDeletion(n: string, pod: Pod, cfg: DrainConfig, ghost listedAt: nat) returns (answer: Answer)
      requires InPass() && Drainable(n) && MayAsk(pod, n, cfg, listedAt)
      requires !cfg.respectBudgets && Answered(cluster.run, listedAt, pod.id, TooManyRequests)
      modifies cluster
      ensures InPass() && Drainable(n) && answer in {Accepted, OtherAnswer}
      ensures Onward(old(cluster.run), cluster.run, plan.name)
      ensures Recorded(old(cluster.run), cluster.run, pod.id, true, answer)
      ensures cluster.calm ==> answer == Accepted && cluster.w.nodes == old(cluster.w.nodes)
      ensures CountsOnly(old(cluster.run), cluster.run, plan.name, n, if answer == Accepted then 1 else 0)
      ensures EvictionsSince(old(cluster.run), cluster.run, plan.name, answer == Accepted)
      ensures old(cluster.w.usedIds) <= cluster.w.usedIds
      ensures Patches(cluster.run) == Patches(old(cluster.run))
    {
      hide Patches, Inv, Reachable, Held, DrainTarget, Onward, Quietly, CountsOnly, SameEvictions, Recorded, MayEvict, ListedAs;
      ghost var start := cluster.run;
      ListedBefore(start, listedAt, pod);
      WaitForRequest(n, pod, cfg, listedAt);
      ghost var paused := cluster.run;
      NothingYet(start, paused, plan.name, n);
      answer := Accepted;
      if !cluster.calm {
        if * {
          answer := OtherAnswer;
        }
      }
      if answer == Accepted {
        Accept(n, pod, cfg, listedAt, true);
        CountsAdd(start, paused, cluster.run, plan.name, n, 0, 1);
      } else {
        Decline(n, pod, cfg, listedAt, answer);
        CountsAdd(start, paused, cluster.run, plan.name, n, 0, 0);
        EvictionsCompose(start, paused, cluster.run, plan.name, false, false);
      }
      RequestRecorded(start, paused, cluster.run, pod.id, true, answer);
      OnwardTransitive(start, paused, cluster.run, plan.name);
    }

    /** One pod: evict it, and delete it outright when a budget refuses and budgets are ignored.
        Every outcome is that of the answers on record. */
    method EvictPodOrDelete(n: string, pod: Pod, cfg: DrainConfig, ghost listedAt: nat)
      returns (counted: bool, refused: bool, failed: bool)
      requires InPass() && Drainable(n) && MayAsk(pod, n, cfg, listedAt) && Unanswered(cluster.run, listedAt, pod.id)
      modifies cluster
      ensures InPass() && Drainable(n)
      ensures Onward(old(cluster.run), cluster.run, plan.name)
      ensures cluster.calm ==> !failed && cluster.w.nodes == old(cluster.w.nodes)
      ensures OnlyAbout(old(cluster.run), cluster.run, pod.id)
      ensures refused <==> cfg.respectBudgets && Answered(cluster.run, listedAt, pod.id, TooManyRequests)
      ensures failed <==> Answered(cluster.run, listedAt, pod.id, OtherAnswer)
      ensures failed ==> cluster.run.Then? && cluster.run.step.Reply? && cluster.run.step.answer == OtherAnswer
      ensures !counted && !refused && !failed <==> Answered(cluster.run, listedAt, pod.id, NotFound)
      ensures EvictedIds(cluster.run) == EvictedIds(old(cluster.run)) + if counted then {pod.id} else {}
      ensures DeletedIds(cluster.run) == DeletedIds(old(cluster.run))
        + if counted && Answered(cluster.run, listedAt, pod.id, TooManyRequests) then {pod.id} else {}
      ensures cfg.respectBudgets ==> DeletedIds(cluster.run) == DeletedIds(old(cluster.run))
      ensures CountsOnly(old(cluster.run), cluster.run, plan.name, n, if counted then 1 else 0)
      ensures EvictionsSince(old(cluster.run), cluster.run, plan.name, counted)
      ensures old(cluster.w.usedIds) <= cluster.w.usedIds
      ensures !counted && !refused && !failed ==> pod.id !in cluster.w.pods
      ensures !(refused && failed) && !(counted && (refused || failed))
      ensures Patches(cluster.run) == Patches(old(cluster.run))
    {
      hide Patches, Inv, Reachable, Held, DrainTarget, Onward, CountsOnly, MayEvict, Answered, OnlyAbout, EvictedIds, DeletedIds;
      ghost var start := cluster.run;
      ListedBefore(start, listedAt, pod);
      counted, refused, failed := false, false, false;
      var answer := RequestEviction(n, pod, cfg, listedAt);
      ghost var asked := cluster.run;
      match answer {
        case Accepted =>
          counted := true;
        case NotFound =>
        case OtherAnswer =>
          failed := true;
        case TooManyRequests =>
          if cfg.respectBudgets {
            refused := true;
            return;
          }
          OnwardExtends(start, asked, plan.name);
          StillListed(start, asked, listedAt, pod);
          var deleted := RequestDeletion(n, pod, cfg, listedAt);
          OnwardTransitive(start, asked, cluster.run, plan.name);
          OnlyAboutOn(start, asked, cluster.run, pod.id);
          CountsAdd(start, asked, cluster.run, plan.name, n, 0, if deleted == Accepted then 1 else 0);
          EvictionsCompose(start, asked, cluster.run, plan.name, false, deleted == Accepted);
          if deleted == Accepted {
            counted := true;
          } else {
            failed := true;
          }
      }
    }

    lemma ListedBefore(r: Run, k: nat, pod: Pod)
      requires ListedAs(r, k, pod)
      ensures k <= Length(r)
    {
    }

    /** Fires an eviction for each listed pod in turn; an unexpected error ends the loop. */
    method EvictAll(n: string, pods: seq<Pod>, cfg: DrainConfig, ghost listedAt: nat)
      returns (evicted: nat, refused: seq<PodId>, failed: bool)
      requires InPass() && Drainable(n) && GetDrainConfig(plan.spec) == Some(cfg) && listedAt <= Length(cluster.run)
      requires forall i :: 0 <= i < |pods| ==>
        pods[i].id.node == n && pods[i].id in cluster.w.usedIds && MayEvict(pods[i], cfg)
      requires DistinctIds(pods) && Waiting(cluster.run, listedAt, pods)
      modifies cluster
      ensures InPass() && Drainable(n)
      ensures Onward(old(cluster.run), cluster.run, plan.name)
      ensures cluster.calm ==> !failed && cluster.w.nodes == old(cluster.w.nodes)
      ensures CountsOnly(old(cluster.run), cluster.run, plan.name, n, evicted)
      ensures EvictionsSince(old(cluster.run), cluster.run, plan.name, evicted > 0)
      ensures !failed && evicted == 0 && refused == [] ==> forall i :: 0 <= i < |pods| ==> pods[i].id !in cluster.w.pods
      ensures refused == RefusedOf(cluster.run, listedAt, pods, cfg.respectBudgets)
      ensures failed <==> AnyFailed(cluster.run, listedAt, pods)
      ensures failed ==> cluster.run.Then? && cluster.run.step.Reply? && cluster.run.step.answer == OtherAnswer
      ensures !failed ==> Handled(cluster.run, listedAt, pods, cfg.respectBudgets)
      ensures cfg.respectBudgets ==> DeletedIds(cluster.run) == DeletedIds(old(cluster.run))
      ensures Patches(cluster.run) == Patches(old(cluster.run))
    {
      hide Patches, Inv, Reachable, Held, Onward, EvictionsSince, CountsOnly, Handled, Waiting, DrainTarget, EvictedIds,
           AnyFailed, RefusedOf, MayEvict, ListedAs, OnlyAbout, Unanswered, Answered, DeletedIds;
      ghost var start := cluster.run;
      evicted, refused, failed := 0, [], false;
      OnwardReflexive(start, plan.name);
      NoEvictionsYet(start, plan.name);
      NothingCounted(start, plan.name, n);
      NothingHandled(start, listedAt, cfg.respectBudgets);
      assert pods[0..] == pods;
      for i := 0 to |pods|
        invariant InPass() && Drainable(n) && listedAt <= Length(cluster.run)
        invariant cluster.calm ==> cluster.w.nodes == start.world.nodes
        invariant Patches(cluster.run) == Patches(old(cluster.run))
        invariant cfg.respectBudgets ==> DeletedIds(cluster.run) == DeletedIds(start)
        invariant Onward(start, cluster.run, plan.name)
        invariant Handled(cluster.run, listedAt, pods[..i], cfg.respectBudgets)
        invariant refused == RefusedOf(cluster.run, listedAt, pods[..i], cfg.respectBudgets)
        invariant !AnyFailed(cluster.run, listedAt, pods[..i])
        invariant Waiting(cluster.run, listedAt, pods[i..])
        invariant CountsOnly(start, cluster.run, plan.name, n, evicted)
        invariant EvictionsSince(start, cluster.run, plan.name, evicted > 0)
        invariant forall j :: 0 <= j < |pods| ==> pods[j].id in cluster.w.usedIds
        invariant evicted == 0 && refused == [] ==> forall j :: 0 <= j < i ==> pods[j].id !in cluster.w.pods
      {
        ghost var before := cluster.run;
        WaitingFirst(before, listedAt, pods, i);
        var counted, budget;
        counted, budget, failed := EvictPodOrDelete(n, pods[i], cfg, listedAt);
        OnwardExtends(before, cluster.run, plan.name);
        AtExtended(before, cluster.run, Length(before));
        WaitingOn(before, cluster.run, listedAt, pods, i);
        RefusedNext(before, cluster.run, listedAt, pods, i, cfg.respectBudgets);
        FailedNext(before, cluster.run, listedAt, pods, i);
        RequestAddsUp(start, before, cluster.run, plan.name, pods[i].id, evicted, counted);
        if failed {
          OnlySoFar(cluster.run, listedAt, pods, i + 1, cfg.respectBudgets);
          return;
        }
        AllHandledNext(before, cluster.run, listedAt, pods, i, cfg.respectBudgets);
        if counted {
          evicted := evicted + 1;
        } else if budget {
          refused := refused + [pods[i].id];
        } else {
          StillGone(before, cluster.run, plan.name, pods, i);
        }
      }
      assert pods[..|pods|] == pods;
    }

    method ListPods(n: string) returns (ok: bool, pods: seq<Pod>, now: Time)
      requires InPass() && Drainable(n)
      modifies cluster
      ensures InPass() && Drainable(n)
      ensures Quietly(old(cluster.run), cluster.run, plan.name) && Onward(old(cluster.run), cluster.run, plan.name)
      ensures cluster.calm ==> cluster.w.nodes == old(cluster.w.nodes)
      ensures DeletedIds(cluster.run) == DeletedIds(old(cluster.run))
      ensures ok ==> Lists(cluster.w.pods, n, pods)
      ensures cluster.calm ==> ok
      ensures forall i :: 0 <= i < |pods| ==> pods[i].id.node == n && pods[i].id in cluster.w.usedIds
      ensures Patches(cluster.run) == Patches(old(cluster.run))
    {
      Pause();
      hide Held, Reachable;
      pods, now, ok := [], cluster.w.now, true;
      if !cluster.calm {
        if * {
          ok := false;
          return;
        }
      }
      pods := ListNode(cluster.w.pods, n);
    }

    /** Lists the pods, classifies them and evicts; a listing that fails leaves an empty outcome. */
    method DrainNode(n: string, cfg: DrainConfig)
      returns (result: DrainResult, ghost listedAt: nat, ghost account: Option<Account>)
      requires InPass() && Drainable(n) && GetDrainConfig(plan.spec) == Some(cfg)
      modifies cluster
      ensures InPass() && Drainable(n)
      ensures Onward(old(cluster.run), cluster.run, plan.name)
      ensures cluster.calm ==> cluster.w.nodes == old(cluster.w.nodes)
      ensures result.name == n && SoundReport(cluster.run, plan, Report(result, nodes[n], listedAt))
      ensures if account.Some? then Explains(account.value, cluster.run, listedAt, n, cfg, result)
              else result == DrainResult(n, NO_OUTCOME, OtherError) && !cluster.calm
      ensures cluster.calm ==> result.err != OtherError
      ensures cfg.respectBudgets ==> DeletedIds(cluster.run) == DeletedIds(old(cluster.run))
      ensures CountsOnly(old(cluster.run), cluster.run, plan.name, n, result.outcome.evicted)
      ensures EvictionsSince(old(cluster.run), cluster.run, plan.name, result.outcome.evicted > 0)
      ensures Patches(cluster.run) == Patches(old(cluster.run))
    {
      hide Patches, Inv, Held, CountsOnly, Reachable, Lists, SoundReport, EvictionsSince, Explains, Onward, Quietly,
           DrainTarget, DeletedIds;
      NameOfCopy(cluster.run, plan, nodes, n);
      ghost var start := cluster.run;
      var ok, pods, now := ListPods(n);
      ghost var listed := cluster.run;
      listedAt := Length(listed);
      NothingYet(start, listed, plan.name, n);
      if !ok {
        result, account := DrainResult(n, NO_OUTCOME, OtherError), None;
        FailedReport(listed, plan, nodes[n], listedAt);
        return;
      }
      ghost var done;
      result, done := DrainListed(n, cfg, pods, now);
      account := Some(done);
      ListingKept(listed, cluster.run, plan.name);
      OnwardTransitive(start, listed, cluster.run, plan.name);
      CountsAdd(start, listed, cluster.run, plan.name, n, 0, result.outcome.evicted);
      EvictionsCompose(start, listed, cluster.run, plan.name, false, result.outcome.evicted > 0);
    }

    method DrainListed(n: string, cfg: DrainConfig, pods: seq<Pod>, now: Time)
      returns (result: DrainResult, ghost account: Account)
      requires InPass() && Drainable(n) && GetDrainConfig(plan.spec) == Some(cfg)
      requires Lists(cluster.w.pods, n, pods)
      requires forall i :: 0 <= i < |pods| ==> pods[i].id.node == n && pods[i].id in cluster.w.usedIds
      modifies cluster
      ensures InPass() && Drainable(n)
      ensures Onward(old(cluster.run), cluster.run, plan.name)
      ensures cluster.calm ==> cluster.w.nodes == old(cluster.w.nodes)
      ensures result.name == n && SoundReport(cluster.run, plan, Report(result, nodes[n], Length(old(cluster.run))))
      ensures Explains(account, cluster.run, Length(old(cluster.run)), n, cfg, result) && account.now == now
      ensures cluster.calm ==> result.err != OtherError
      ensures cfg.respectBudgets ==> DeletedIds(cluster.run) == DeletedIds(old(cluster.run))
      ensures CountsOnly(old(cluster.run), cluster.run, plan.name, n, result.outcome.evicted)
      ensures EvictionsSince(old(cluster.run), cluster.run, plan.name, result.outcome.evicted > 0)
      ensures Patches(cluster.run) == Patches(old(cluster.run))
    {
      hide Patches, Inv, Held, CountsOnly, Reachable, EvictionsSince, OfClass, Lists, SoundReport, Handled, Waiting,
           DrainTarget, MayEvict, HeldBack, Onward, AnyFailed, RefusedOf, DeletedIds;
      NameOfCopy(cluster.run, plan, nodes, n);
      ghost var listed := cluster.run;
      var f := ClassifyPods(pods, cfg, now);
      ListedOnce(cluster.w.pods, n, pods);
      BucketFacts(pods, cfg, now, f);
      EvictableAreWaiting(listed, n, pods, f.evictable, cfg);
      var evicted, refused, failed := EvictAll(n, f.evictable, cfg, Length(listed));
      result := ResultOf(n, f, evicted, refused, failed);
      account := Account(pods, now, f, evicted, refused, failed);
      OnwardExtends(listed, cluster.run, plan.name);
      ListingKept(listed, cluster.run, plan.name);
      ListedReport(listed, cluster.run, plan, nodes[n], account, cfg);
    }

    ghost predicate Reported(results: seq<DrainResult>, reports: seq<Report>)
      reads this, cluster
    {
      && ResultsOf(reports) == results
      && forall i :: 0 <= i < |reports| ==> SoundReport(cluster.run, plan, reports[i])
    }

    /** Drains the nodes. The source does so concurrently; module WorkerPool shows that, when no
        two nodes share a disruption budget, its pool returns what this loop returns, and
        SharedBudgets when it does so otherwise. */
    method DrainNodes(names: seq<string>, cfg: DrainConfig) returns (results: seq<DrainResult>, ghost reports: seq<Report>)
      requires InPass() && GetDrainConfig(plan.spec) == Some(cfg)
      requires forall n :: n in names ==> Drainable(n)
      modifies cluster
      ensures InPass()
      ensures Onward(old(cluster.run), cluster.run, plan.name)
      ensures cluster.calm ==> cluster.w.nodes == old(cluster.w.nodes)
      ensures |results| == |names| && forall i :: 0 <= i < |names| ==> results[i].name == names[i]
      ensures Reported(results, reports)
      ensures forall i :: 0 <= i < |results| ==> !results[i].err.NotReadyError?
      ensures CountsAs(old(cluster.run), cluster.run, plan.name, results)
      ensures EvictionsSince(old(cluster.run), cluster.run, plan.name, SomeEvicted(results))
      ensures Patches(cluster.run) == Patches(old(cluster.run))
    {
      hide Patches, Inv, Held, Onward, CountsAs, CountsOnly, EvictionsSince, DrainTarget, SoundReport, Reachable;
      ghost var start := cluster.run;
      results, reports := [], [];
      OnwardReflexive(start, plan.name);
      NoEvictionsYet(start, plan.name);
      CountsAsEmpty(cluster.run, plan.name);
      for i := 0 to |names|
        invariant InPass()
        invariant forall n :: n in names ==> Drainable(n)
        invariant cluster.calm ==> cluster.w.nodes == start.world.nodes
        invariant Patches(cluster.run) == Patches(old(cluster.run))
        invariant Onward(start, cluster.run, plan.name)
        invariant |results| == i && forall k :: 0 <= k < i ==> results[k].name == names[k]
        invariant Reported(results, reports)
        invariant forall k :: 0 <= k < |results| ==> !results[k].err.NotReadyError?
        invariant CountsAs(start, cluster.run, plan.name, results)
        invariant EvictionsSince(start, cluster.run, plan.name, SomeEvicted(results))
      {
        ghost var before := cluster.run;
        var result;
        ghost var at, account;
        result, at, account := DrainNode(names[i], cfg);
        KeepDrainable(before, names);
        KeepReports(before, reports);
        OnwardTransitive(start, before, cluster.run, plan.name);
        EvictionsCompose(start, before, cluster.run, plan.name, SomeEvicted(results), result.outcome.evicted > 0);
        SomeEvictedNext(results, result);
        CountsAsNext(start, before, cluster.run, plan.name, results, result);
        NotReadyMeansUnready(Report(result, nodes[names[i]], at));
        results := results + [result];
        reports := reports + [Report(result, nodes[names[i]], at)];
      }
    }

    lemma NotReadyMeansUnready(report: Report)
      requires SoundReport(cluster.run, plan, report) && IsNodeReady(report.seen)
      ensures !report.result.err.NotReadyError?
    {
    }

    lemma KeepReports(before: Run, reports: seq<Report>)
      requires InPass() && Onward(before, cluster.run, plan.name)
      requires forall i :: 0 <= i < |reports| ==> SoundReport(before, plan, reports[i])
      ensures forall i :: 0 <= i < |reports| ==> SoundReport(cluster.run, plan, reports[i])
    {
      forall i | 0 <= i < |reports| ensures SoundReport(cluster.run, plan, reports[i]) {
        ReportPersists(before, cluster.run, plan, reports[i]);
      }
    }

    lemma KeepDrainable(before: Run, names: seq<string>)
      requires Onward(before, cluster.run, plan.name)
      requires forall n :: n in names ==>
        n in nodes && nodes[n].unschedulable && IsNodeReady(nodes[n]) && DrainTarget(before, plan.name, nodes[n])
        && !TimedOut(plan)
      ensures forall n :: n in names ==> Drainable(n)
    {
      forall n | n in names ensures Drainable(n) {
        DrainTargetPersists(before, cluster.run, plan.name, nodes[n]);
      }
    }

    /** Unschedulable copies only; those not Ready get a result without being drained. */
    method SplitByHealth(stable: seq<string>)
      returns (toDrain: seq<string>, results: seq<DrainResult>, ghost reports: seq<Report>)
      requires InPass() && Distinct(stable) && !TimedOut(plan)
      requires forall n :: n in stable ==> n in nodes && DrainTarget(cluster.run, plan.name, nodes[n])
      ensures forall n :: n in toDrain ==> n in stable && Drainable(n)
      ensures Distinct(toDrain) && DistinctResults(results) && OnlyNotReady(results)
      ensures forall i :: 0 <= i < |results| ==> results[i].name in stable && results[i].name !in toDrain
      ensures Reported(results, reports)
      ensures Covers(stable, nodes, toDrain, results)
    {
      hide Inv, Held, Reachable, DrainTarget, Lookup, NotReadySince, SoundReport, Covers;
      HeldNames(cluster.run, plan, nodes);
      toDrain, results, reports := [], [], [];
      NoneToCover(nodes);
      for i := 0 to |stable|
        invariant forall n :: n in toDrain ==> n in stable[..i] && Drainable(n)
        invariant Distinct(toDrain) && DistinctResults(results) && OnlyNotReady(results)
        invariant forall k :: 0 <= k < |results| ==> results[k].name in stable[..i] && results[k].name !in toDrain
        invariant Reported(results, reports)
        invariant Covers(stable[..i], nodes, toDrain, results)
      {
        var n := stable[i];
        assert stable[..i + 1] == stable[..i] + [n];
        assert n !in stable[..i] && n in stable;
        var result := DrainResult(n, NO_OUTCOME, NotReadyError(NotReadySince(plan.status.nodes, n)));
        CoversMore(stable[..i], n, nodes, toDrain, results, result);
        if nodes[n].unschedulable {
          if IsNodeReady(nodes[n]) {
            toDrain := toDrain + [n];
          } else {
            SkippedReport(cluster.run, plan, nodes[n]);
            results := results + [result];
            reports := reports + [Report(result, nodes[n], 0)];
          }
        }
      }
      assert stable[..|stable|] == stable;
    }

    /** Folds the results into the status and writes it. */
    method PublishDrainStatus(skipped: seq<DrainResult>, drained: seq<DrainResult>, ghost reports: seq<Report>, ghost start: Run)
      returns (ok: bool, ghost at: Time)
      requires InPass() && !TimedOut(plan)
      requires DistinctResults(skipped + drained) && Reported(skipped + drained, reports)
      requires OnlyNotReady(skipped) && forall i :: 0 <= i < |drained| ==> !drained[i].err.NotReadyError?
      requires Onward(start, cluster.run, plan.name) && NothingPending(start, plan.name)
      requires EvictionsSince(start, cluster.run, plan.name, SomeEvicted(drained))
      requires CountsAs(start, cluster.run, plan.name, drained)
      modifies this`plan, cluster
      ensures InPass() && Extends(start, cluster.run)
      ensures plan.name == old(plan.name) && (cluster.calm ==> plan.spec == old(plan.spec))
      ensures ok ==> plan.status == AppliedDrain(old(plan), skipped + drained, at).0
      ensures ok ==> cluster.run.Then? && cluster.run.step == PublishDrain(plan.name, old(plan.spec), reports, at)
      ensures ok ==> TotalsFollow(start, cluster.run, plan.name, old(plan.status), plan.status)
      ensures ok ==> Carries(old(plan.status), plan.status)
      ensures cluster.calm ==> ok && cluster.w.nodes == old(cluster.w.nodes)
      ensures Patches(cluster.run) == Patches(old(cluster.run))
    {
      hide Inv, Reachable, Held, AppliedDrain, CountsAs, TotalsFollow, SoundReport, Does, Carries, Accounts, AllFolded, Tracked,
           Interferes, MarksKept, DistinctResults, OnlyNotReady;
      ghost var before := cluster.run;
      at := cluster.w.now;
      var status, requeue := ApplyDrainResults(plan, skipped + drained, cluster.w.now);
      Pause();
      ghost var mid := cluster.run;
      PauseFacts(before, mid, plan.name);
      OnwardTransitive(start, before, mid, plan.name);
      CountsAsMoves(start, before, mid, plan.name, drained);
      if !cluster.calm {
        if * {
          ok := false;
          return;
        }
      }
      KeepReports(before, reports);
      CountsAccount(start, mid, plan.name, skipped, drained);
      StoredPlan(cluster.run, plan, nodes);
      DrainIsAStep(mid, plan, nodes, reports, at);
      DrainCarries(plan, skipped + drained, at);
      TotalsFollowDrain(start, mid, plan, skipped, drained, at);
      var next := WithStatus(cluster.w, plan.name, status);
      cluster.Commit(PublishDrain(plan.name, plan.spec, reports, at), next);
      ExtendsByTwo(start, cluster.run);
      TotalsIgnoreStatus(start, mid, cluster.run, plan.name, plan.status, status);
      plan := cluster.w.plans[plan.name];
      ok := true;
    }

    method ReconcileDrain(stable: seq<string>) returns (ok: bool)
      requires InPass() && Distinct(stable)
      requires forall n :: n in stable ==> n in nodes && DrainTarget(cluster.run, plan.name, nodes[n])
      requires NothingPending(cluster.run, plan.name)
      modifies this`plan, cluster
      ensures InPass() && Extends(old(cluster.run), cluster.run)
      ensures plan.name == old(plan.name) && (cluster.calm ==> plan.spec == old(plan.spec))
      ensures ok ==> Carries(old(plan.status), plan.status)
      ensures ok ==> TotalsFollow(old(cluster.run), cluster.run, plan.name, old(plan.status), plan.status)
      ensures ok ==> AllFolded(cluster.run, plan.name)
      ensures !DrainEnabled(old(plan.spec)) || TimedOut(old(plan)) ==> Undrained(old(cluster.run), cluster.run, plan.name)
      ensures ok && DrainEnabled(old(plan.spec)) && !TimedOut(old(plan)) ==>
        forall n :: n in stable && nodes[n].unschedulable ==> ReportedOn(cluster.run, plan.name, n)
      ensures cluster.calm ==> ok && cluster.w.nodes == old(cluster.w.nodes)
      ensures Patches(cluster.run) == Patches(old(cluster.run))
    {
      hide Patches, Inv, Held, Reachable, DrainTarget, Carries, ReportedOn, Covers;
      ghost var start := cluster.run;
      ExtendsReflexive(start);
      NoTotalsMoved(start, plan.name, plan.status);
      CarriesReflexive(plan.status);
      var cfg := GetDrainConfig(plan.spec);
      if cfg.None? {
        return true;
      }
      if TimedOut(plan) {
        return true;
      }
      ghost var skippedReports;
      var toDrain, skipped;
      toDrain, skipped, skippedReports := SplitByHealth(stable);
      if |toDrain| == 0 && |skipped| == 0 {
        NothingCovered(stable, nodes);
        return true;
      }
      ghost var drainedReports;
      var drained;
      drained, drainedReports := DrainNodes(toDrain, cfg.value);
      KeepReports(start, skippedReports);
      JoinResults(skipped, drained, stable, toDrain);
      ghost var at;
      ok, at := PublishDrainStatus(skipped, drained, skippedReports + drainedReports, start);
      if ok {
        CoveredIsReported(cluster.run, plan.name, stable, nodes, toDrain, skipped, drained,
                          skippedReports + drainedReports);
      }
    }

    /* ----- The pass ----- */

    /** What the later steps of a pass need of a resolution. */
    ghost predicate Workable(res: Resolution)
      reads this
    {
      WorkableFor(res, nodes, plan.name)
    }

    /** Resolves the plan's nodes and adopts the new ones. */
    method Claim(cordonNow: bool) returns (ok: bool, res: Resolution)
      requires InPass() && nodes == map[] && !recorded
      modifies this`nodes, cluster
      ensures InPass() && plan.name != ""
      ensures Quietly(old(cluster.run), cluster.run, plan.name)
      ensures ok ==> Workable(res) && SnapshotFits(plan, res.all, res.snapshot)
      ensures cluster.calm ==> ok && Desired(old(cluster.w), plan, set n | n in res.all)
      ensures cluster.calm ==> Resolves(old(cluster.w), plan, old(cluster.w.nodes), res)
      ensures cluster.calm ==> Staged(AdoptionStage(CordonEnabled(plan.spec) && cordonNow),
                                      plan, res.toAdopt, old(cluster.w.nodes), cluster.w.nodes)
      ensures ok && (forall n :: n in res.toAdopt ==> Latched(plan.status.nodes, n)) ==>
        Patches(cluster.run) == Patches(old(cluster.run))
    {
      hide Patches, Inv, Reachable, Held, Staged, Desired, Quietly, Resolves, SnapshotFits, WorkableFor, Untouched, Latched;
      ghost var start := cluster.run;
      PlanNameNotEmpty(cluster.run, plan, nodes);
      ok, res := ComputeOwnershipResolution();
      if !ok {
        return;
      }
      ghost var resolved, copies := cluster.run, nodes;
      Adoptable(cluster.w, plan, nodes, res);
      ok := ReconcileOwnership(res.toAdopt, cordonNow);
      WorkableAfterAdoption(resolved.world, plan, copies, nodes, res);
      QuietlyTransitive(start, resolved, cluster.run, plan.name);
    }

    /** Writes the status, so that every release for drift later in the pass is a recorded one. */
    method Record(res: Resolution) returns (ok: bool)
      requires InPass() && Workable(res) && SnapshotFits(plan, res.all, res.snapshot)
      modifies this`plan, this`recorded, cluster
      ensures InPass() && Extends(old(cluster.run), cluster.run) && (ok ==> recorded)
      ensures plan.name == old(plan.name) && (cluster.calm ==> plan.spec == old(plan.spec))
      ensures ok ==> NothingPending(cluster.run, plan.name)
      ensures ok ==> forall n :: n in res.all ==> n in nodes && Covered(cluster.run, plan.name, nodes[n])
      ensures ok ==> TotalsAccount(old(cluster.run), cluster.run, plan.name, old(plan.status), plan.status)
      ensures ok ==> Written(old(plan), nodes, res, plan.status)
      ensures Undrained(old(cluster.run), cluster.run, plan.name)
      ensures ok ==> (TimedOut(plan) <==> TimedOut(old(plan)))
      ensures cluster.calm ==> ok && cluster.w.nodes == old(cluster.w.nodes)
      ensures Patches(cluster.run) == Patches(old(cluster.run))
    {
      hide Patches, Inv, Reachable, Held, UpdatedStatus, TotalsAccount, SnapshotFits, StatusInv, Written, Covered, EvictionsBy,
           Undrained;
      ghost var start, was := cluster.run, plan;
      HeldStatus(cluster.run, plan, nodes);
      CopiesAreDistinct(cluster.run, plan, nodes, res.all);
      HeldNames(cluster.run, plan, nodes);
      ghost var at;
      ok, at := PublishPlanStatus(res.all, |res.conflicting|, res.snapshot);
      if !ok {
        return;
      }
      AccountedUpdate(start, cluster.run, was, CopiesOf(nodes, res.all), |res.conflicting|, res.snapshot, at);
      WrittenByUpdate(was, nodes, res, |res.conflicting|, at);
      TimeoutUntouched(was, CopiesOf(nodes, res.all), |res.conflicting|, res.snapshot, at);
      ghost var published := cluster.run;
      ok := ReconcilePreview(res.stable + res.toAdopt);
      QuietMeansUndrained(published, cluster.run, plan.name);
      UndrainedOn(start, published, cluster.run, plan.name);
      AccountedIdle(start, published, cluster.run, plan.name, was.status, plan.status);
      ExtendsTransitive(start, published, cluster.run);
    }

    /** Drift, then cordon. */
    method DriftAndCordon(res: Resolution, cordonNow: bool) returns (ok: bool)
      requires InPass() && recorded && Workable(res)
      requires forall n :: n in res.all ==> n in nodes && Covered(cluster.run, plan.name, nodes[n])
      modifies this`nodes, cluster
      ensures InPass() && nodes.Keys == old(nodes).Keys
      ensures Quietly(old(cluster.run), cluster.run, plan.name)
      ensures ok ==> forall n :: n in res.stable ==> n in nodes && DrainTarget(cluster.run, plan.name, nodes[n])
      ensures cluster.calm ==> ok && ActedOn(res, cordonNow, plan, old(cluster.w.nodes), cluster.w.nodes)
      ensures NothingToPatch(res, old(nodes), plan, cordonNow) ==> Patches(cluster.run) == Patches(old(cluster.run))
    {
      hide Patches, Inv, Reachable, Held, DrainTarget, Covered, Quietly, Tracked, Staged, MarksKept, DetectNodeDrift;
      ghost var start, n1 := cluster.run, cluster.w.nodes;
      ok := ReconcileDrift(res.stable);
      ghost var drifted, n2 := cluster.run, cluster.w.nodes;
      if !ok {
        return;
      }
      ghost var n3 := n2;
      if cordonNow {
        ok := CordonStable(res.stable);
        QuietlyTransitive(start, drifted, cluster.run, plan.name);
        if !ok {
          return;
        }
        n3 := cluster.w.nodes;
        ghost var cordoned, copies := cluster.run, nodes;
        HeldNames(cordoned, plan, nodes);
        ok := ReleaseRemoved(res.toRelease);
        QuietlyTransitive(start, cordoned, cluster.run, plan.name);
        if !ok {
          return;
        }
        KeepTargets(cordoned, copies, res.stable);
      }
      if cluster.calm {
        assert Acts(res, cordonNow, plan, n1, n2, n3, cluster.w.nodes);
      }
    }

    /** Drift, then cordon, then drain. */
    method Act(res: Resolution, cordonNow: bool, drainNow: bool) returns (ok: bool)
      requires InPass() && recorded && Workable(res)
      requires forall n :: n in res.all ==> n in nodes && Covered(cluster.run, plan.name, nodes[n])
      requires NothingPending(cluster.run, plan.name)
      modifies this`plan, this`nodes, cluster
      ensures InPass() && Extends(old(cluster.run), cluster.run)
      ensures plan.name == old(plan.name) && nodes.Keys == old(nodes).Keys
      ensures cluster.calm ==> plan.spec == old(plan.spec)
      ensures ok ==> Carries(old(plan.status), plan.status)
      ensures ok ==> TotalsFollow(old(cluster.run), cluster.run, plan.name, old(plan.status), plan.status)
      ensures ok ==> AllFolded(cluster.run, plan.name)
      ensures !drainNow || !DrainEnabled(old(plan.spec)) ==> Undrained(old(cluster.run), cluster.run, plan.name)
      ensures ok && drainNow && DrainEnabled(old(plan.spec)) && !TimedOut(old(plan)) ==>
        forall n :: n in res.stable && n in nodes && nodes[n].unschedulable ==> ReportedOn(cluster.run, plan.name, n)
      ensures cluster.calm ==> ok && ActedOn(res, cordonNow, old(plan), old(cluster.w.nodes), cluster.w.nodes)
      ensures NothingToPatch(res, old(nodes), old(plan), cordonNow) ==> Patches(cluster.run) == Patches(old(cluster.run))
    {
      hide Patches, Inv, Reachable, Held, DrainTarget, TotalsFollow, Carries, ReportedOn, Covered, AllFolded, Quietly, Tracked,
           ActedOn, SameEvictions, NothingToPatch, Undrained;
      CarriesReflexive(plan.status);
      ghost var start := cluster.run;
      ok := DriftAndCordon(res, cordonNow);
      ghost var mid := cluster.run;
      QuietlyIsExtension(start, mid, plan.name);
      QuietMeansUndrained(start, mid, plan.name);
      if !ok {
        return;
      }
      QuietTotals(start, mid, plan.name, plan.status);
      StillNothingPending(start, mid, plan.name);
      if drainNow {
        ok := ReconcileDrain(res.stable);
        ExtendsTransitive(start, mid, cluster.run);
        UndrainedOn(start, mid, cluster.run, plan.name);
        TotalsFollowOn(start, mid, cluster.run, plan.name, old(plan.status), plan.status);
      }
    }

    lemma KeepTargets(before: Run, copies: map<string, Node>, names: seq<string>)
      requires InPass() && recorded && Quietly(before, cluster.run, plan.name)
      requires forall n :: n in names ==>
        n in copies && copies[n].name == n && n in nodes && Owner(nodes[n]) == Owner(copies[n])
        && DrainTarget(before, plan.name, copies[n])
      ensures forall n :: n in names ==> n in nodes && DrainTarget(cluster.run, plan.name, nodes[n])
    {
      hide Inv, Reachable, InHand, Resolved;
      HeldNames(cluster.run, plan, nodes);
      forall n | n in names ensures DrainTarget(cluster.run, plan.name, nodes[n]) {
        assert Resolved(before, plan.name, n);
      }
    }

    lemma CalmDrain(w0: World, plan0: Plan, res: Resolution)
      requires InPass() && cluster.calm && plan0.name == plan.name
      requires Resolves(w0, plan0, w0.nodes, res)
      requires forall n :: n in res.all ==> n in nodes
      requires forall n :: n in res.stable && n in nodes && nodes[n].unschedulable ==> ReportedOn(cluster.run, plan.name, n)
      ensures Drains(cluster.run, w0.nodes, (set n | n in res.all), plan.name)
    {
      hide Inv, Reachable, Held, ReportedOn;
    }

    method RunPass(cordonDue: bool, drainDue: bool) returns (ok: bool, ghost desired: set<string>)
      requires InPass() && nodes == map[] && !recorded
      modifies this, cluster
      ensures InPass() && Extends(old(cluster.run), cluster.run)
      ensures plan.name == old(plan.name) && (cluster.calm ==> plan.spec == old(plan.spec))
      ensures ok ==> TotalsAccount(old(cluster.run), cluster.run, plan.name, old(plan.status), plan.status)
      ensures ok ==> AllFolded(cluster.run, plan.name)
      ensures !drainDue || !DrainEnabled(old(plan.spec)) ==> Undrained(old(cluster.run), cluster.run, plan.name)
      ensures cluster.calm ==>
        && ok && Desired(old(cluster.w), old(plan), desired)
        && PassEffect(old(cluster.w.nodes), cluster.w.nodes, desired, old(plan), cordonDue)
        && Settled(old(cluster.w.nodes), old(plan), desired, plan.status)
      ensures cluster.calm && drainDue && DrainEnabled(plan.spec) && !TimedOut(old(plan)) ==>
        Drains(cluster.run, old(cluster.w.nodes), desired, plan.name)
      ensures cluster.calm && cluster.w.nodes == old(cluster.w.nodes) ==> Patches(cluster.run) == Patches(old(cluster.run))
    {
      hide Patches, Inv, Reachable, Held, Staged, TotalsAccount, TotalsFollow, Desired, Resolves, ActedOn, PassEffect, Settled,
           Written, Carries, Drains, ReportedOn, EvictionsBy, SameEvictions, AllFolded, NothingPending, Covered, Undrained;
      ghost var start, w0, plan0 := cluster.run, cluster.w, plan;
      // The schedule is computed from the spec as it was before the status patch refreshed it.
      var cordonNow := CordonActs(plan.spec, cordonDue);
      var drainNow := DrainEnabled(plan.spec) && drainDue;
      var res;
      ok, res := Claim(cordonNow);
      desired := set n | n in res.all;
      ghost var n1, claimed := cluster.w.nodes, cluster.run;
      QuietlyIsExtension(start, claimed, plan.name);
      QuietMeansUndrained(start, claimed, plan.name);
      if !ok {
        return;
      }
      if cluster.calm {
        StableCopiesUntouched(w0, cluster.w, plan, CordonEnabled(plan.spec) && cordonNow, res, nodes);
      }
      ghost var copies := nodes;
      ok := Record(res);
      ghost var recorded, plan1 := cluster.run, plan;
      ExtendsTransitive(start, claimed, recorded);
      UndrainedOn(start, claimed, recorded, plan.name);
      if !ok {
        return;
      }
      AccountedFrom(start, claimed, recorded, plan.name, plan0.status, plan1.status);
      ok := Act(res, cordonNow, drainNow);
      ExtendsTransitive(start, recorded, cluster.run);
      UndrainedOn(start, recorded, cluster.run, plan.name);
      if ok {
        AccountedDrain(start, recorded, cluster.run, plan.name, plan0.status, plan1.status, plan.status);
      }
      if cluster.calm {
        CalmPass(w0, plan0, plan1, res, cordonDue, n1, cluster.w.nodes);
        CalmStatus(w0, plan0, copies, res, plan1.status, plan.status);
        if cluster.w.nodes == w0.nodes {
          RestMeansNoPatch(w0, plan0, plan1, res, copies, cordonDue);
        }
        if drainDue && DrainEnabled(plan.spec) && !TimedOut(plan0) {
          CalmDrain(w0, plan0, res);
        }
      }
    }

    /** One reconcile of the named plan: read it, then clean up a deleted plan or run a pass. */
    method Reconcile(name: string, cordonDue: bool, drainDue: bool)
      returns (result: PassResult, ghost desired: set<string>, ghost read: Run, ghost ready: Run)
      requires cluster.Valid() && nodes == map[] && !recorded
      modifies this, cluster
      ensures cluster.Valid() && Extends(old(cluster.run), read) && Extends(read, cluster.run)
      ensures cluster.calm ==> read.world == old(cluster.w)
      ensures Extends(read, ready) && (name in read.world.plans && read.world.plans[name].finalizer ==> ready == read)
      ensures !drainDue || name !in ready.world.plans || !DrainEnabled(ready.world.plans[name].spec) ==>
        Undrained(read, cluster.run, name)
      ensures result == PlanNotFound <==> name !in read.world.plans
      ensures result == Completed ==> !read.world.plans[name].deleting
      ensures result == PlanDeleted ==>
        read.world.plans[name].deleting && name !in cluster.w.plans && NoneOwnedBy(cluster.w, name)
      ensures result == Completed ==>
        && name in cluster.w.plans
        && TotalsAccount(read, cluster.run, name, read.world.plans[name].status, cluster.w.plans[name].status)
        && AllFolded(cluster.run, name)
      ensures cluster.calm ==> result != Aborted
      ensures cluster.calm && result == PlanDeleted ==> CleanedUp(old(cluster.w.nodes), cluster.w.nodes, name)
      ensures cluster.calm && result == Completed ==>
        && Desired(old(cluster.w), old(cluster.w.plans)[name], desired)
        && PassEffect(old(cluster.w.nodes), cluster.w.nodes, desired, old(cluster.w.plans)[name], cordonDue)
        && cluster.w.plans[name].spec == old(cluster.w.plans)[name].spec
        && Settled(old(cluster.w.nodes), old(cluster.w.plans)[name], desired, cluster.w.plans[name].status)
      ensures cluster.calm && result == Completed && drainDue && DrainEnabled(old(cluster.w.plans)[name].spec)
              && !TimedOut(old(cluster.w.plans)[name]) ==>
        Drains(cluster.run, old(cluster.w.nodes), desired, name)
      ensures cluster.calm && result == Completed && cluster.w.nodes == old(cluster.w.nodes) ==>
        Patches(cluster.run) == Patches(old(cluster.run))
    {
      hide Reachable, TotalsAccount, Desired, PassEffect, Settled, Drains, AllFolded, Undrained, CleanedUp;
      ghost var start := cluster.run;
      desired := {};
      cluster.Interfere({});
      read, ready := cluster.run, cluster.run;
      ExtendsReflexive(start);
      UndrainedReflexive(read, name);
      ExtendsReflexive(read);
      ExtendsByTwo(start, read);
      if name !in cluster.w.plans {
        return PlanNotFound, desired, read, ready;
      }
      if !cluster.calm {
        if * {
          return Aborted, desired, read, ready;
        }
      }
      assert PlanInv(cluster.w, name);
      plan := cluster.w.plans[name];
      var ok;
      if plan.deleting {
        ok := HandleDeletion();
        return if ok then PlanDeleted else Aborted, desired, read, ready;
      }
      hide Inv;
      ok := EnsureFinalizer();
      ghost var plan1 := plan;
      if !ok {
        return Aborted, desired, read, ready;
      }
      ready := cluster.run;
      ok, desired := RunPass(cordonDue, drainDue);
      ExtendsTransitive(read, ready, cluster.run);
      UndrainedOn(read, ready, cluster.run, name);
      if !ok {
        return Aborted, desired, read, ready;
      }
      AccountedFrom(read, ready, cluster.run, name, plan1.status, plan.status);
      if cluster.calm {
        SamePassFor(start.world, ready.world, start.world.plans[name], plan1, desired, cordonDue, cluster.w.nodes);
      }
      return Completed, desired, read, ready;
    }
  }
}
