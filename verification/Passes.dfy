/**
 What one step of a pass means for the run, and what a whole undisturbed pass makes of a node.
 */
module Passes {
  import opened Api
  import opened DrainFilters
  import opened Drift
  import opened StatusUpdate
  import opened DrainFold
  import opened NodeWrites
  import opened Protocol
  import opened Safety
  import opened Evictions

  /** How many node patches a run holds. */
  function Patches(r: Run): nat {
    if r.Begin? then 0 else Patches(r.before) + if r.step.PatchNode? then 1 else 0
  }

  ghost predicate Distinct(names: seq<string>) {
    forall i, j :: 0 <= i < j < |names| ==> names[i] != names[j]
  }

  /** The plan in hand is the stored one, up to edits of its spec since it was read. */
  ghost predicate SamePlan(stored: Plan, held: Plan) {
    && stored.name == held.name && stored.status == held.status
    && (held.deleting ==> stored.deleting)
  }

  /** Plan and node copies of a pass in progress. */
  ghost predicate Held(r: Run, plan: Plan, nodes: map<string, Node>) {
    && Active(r.world, plan.name) && SamePlan(r.world.plans[plan.name], plan) && SpecRead(r, plan.name, plan.spec)
    && (forall n :: n in nodes ==> nodes[n].name == n && Copied(r, nodes[n]))
  }

  /** After its status update a pass works with the resolved copies and the answers to its patches. */
  ghost predicate Tracked(r: Run, p: string, nodes: map<string, Node>) {
    forall n :: n in nodes && Resolved(r, p, n) ==> InHand(r, p, nodes[n])
  }

  /** Steps that leave the nodes as they are leave all copies as they are. */
  lemma CopiesStay(r: Run, step: Step, w': World, nodes: map<string, Node>)
    requires w'.nodes == r.world.nodes && !step.PatchNode?
    requires forall n :: n in nodes ==> Copied(r, nodes[n])
    ensures forall n :: n in nodes ==> Copied(Then(r, step, w'), nodes[n])
  {
    forall n | n in nodes ensures Copied(Then(r, step, w'), nodes[n]) {
      assert LeftAlone(Then(r, step, w'), nodes[n].name);
    }
  }

  lemma InterferenceKeepsHeld(r: Run, paused: Run, plan: Plan, nodes: map<string, Node>)
    requires paused.Then? && paused.before == r && paused.step.Environment?
    requires Interferes(nodes.Keys, r.world, paused.world) && Held(r, plan, nodes)
    ensures Held(paused, plan, nodes)
    ensures Tracked(r, plan.name, nodes) ==> Tracked(paused, plan.name, nodes)
  {
    forall n | n in nodes ensures Copied(paused, nodes[n]) {
      assert Copied(r, nodes[n]) && LeftAlone(paused, n);
    }
  }

  lemma InterferenceKeepsPermission(r: Run, paused: Run, plan: Plan, why: Write, seen: Node, put: Node)
    requires paused.Then? && paused.before == r && paused.step.Environment?
    requires Allowed(r, plan, why, seen, put)
    ensures Allowed(paused, plan, why, seen, put)
  {
  }

  function WithFinalizer(w: World, p: string): World
    requires p in w.plans
  {
    w.(plans := w.plans[p := w.plans[p].(finalizer := true)])
  }

  /** A plan that was read without finalizer and is still there can be given one. */
  lemma FinalizerIsAStep(r: Run, plan: Plan)
    requires r.Then? && r.step.Environment? && plan.name in r.before.world.plans
    requires r.before.world.plans[plan.name] == plan && !plan.deleting && !plan.finalizer
    requires Inv(r.before.world) && plan.name in r.world.plans
    requires Disturbs(r.before.world, r.world)
    ensures var next := WithFinalizer(r.world, plan.name);
            && Does(r, AddFinalizer(plan.name), next)
            && Held(Then(r, AddFinalizer(plan.name), next), next.plans[plan.name], map[])
            && SamePlan(next.plans[plan.name], plan)
            && next.nodes == r.world.nodes
  {
    assert PlanInv(r.before.world, plan.name);
  }

  /** What a plan permits depends on its name, status and the spec in hand alone. */
  lemma SamePermission(r: Run, held: Plan, why: Write, seen: Node, put: Node)
    requires held.name in r.world.plans && SamePlan(r.world.plans[held.name], held) && Allowed(r, held, why, seen, put)
    ensures Allowed(r, Seen(r.world, held.name, held.spec), why, seen, put)
  {
    ReleasesIgnoresStatus(seen, held, Seen(r.world, held.name, held.spec));
  }

  /** The operator's marks stay as they are, except on touched nodes and new ones, which have none. */
  ghost predicate MarksKept(w: World, w': World, touched: set<string>) {
    forall n :: n in w'.nodes ==>
      n in touched || Unmarked(w'.nodes[n]) || (n in w.nodes && SameMarks(w.nodes[n], w'.nodes[n]))
  }

  /** How many drain statuses plan p has written. */
  function DrainStatuses(r: Run, p: string): nat {
    if r.Begin? then 0 else DrainStatuses(r.before, p) + if r.step.PublishDrain? && r.step.plan == p then 1 else 0
  }

  /** How many requests plan p has made for pods to go. */
  function RequestsBy(r: Run, p: string): nat {
    if r.Begin? then 0 else RequestsBy(r.before, p) + if Asks(r.step, p) then 1 else 0
  }

  /** In between plan p has asked for no pod to go and written no drain status. */
  ghost predicate Undrained(r1: Run, r2: Run, p: string) {
    && EvictedIds(r2) == EvictedIds(r1)
    && RequestsBy(r2, p) == RequestsBy(r1, p) && DrainStatuses(r2, p) == DrainStatuses(r1, p)
  }

  lemma UndrainedOn(a: Run, b: Run, c: Run, p: string)
    requires Undrained(a, b, p)
    ensures Undrained(b, c, p) ==> Undrained(a, c, p)
  {
  }

  /** No eviction in between. */
  ghost predicate SameEvictions(r1: Run, r2: Run, p: string) {
    && Undrained(r1, r2, p) && LastEviction(r2, p) == LastEviction(r1, p)
    && (forall n :: EvictionsBy(r2, p, n) == EvictionsBy(r1, p, n) && Unfolded(r2, p, n) == Unfolded(r1, p, n))
  }

  /** What the last status update of p resolved and what was released since stays on record. */
  ghost predicate RecordKept(r1: Run, r2: Run, p: string) {
    && (forall n :: ReleasedThisPass(r1, p, n) ==> ReleasedThisPass(r2, p, n))
    && (forall n :: Resolved(r1, p, n) ==> Resolved(r2, p, n))
    && (forall seen :: Covered(r1, p, seen) ==> Covered(r2, p, seen))
  }

  /** r2 continues r1 without a status update or an eviction of plan p. */
  ghost predicate Quietly(r1: Run, r2: Run, p: string) {
    && Extends(r1, r2)
    && SameEvictions(r1, r2, p)
    && r1.world.now <= r2.world.now
    && RecordKept(r1, r2, p)
  }

  lemma {:induction false} ExtendsTransitive(a: Run, b: Run, c: Run)
    requires Extends(a, b) && Extends(b, c)
    ensures Extends(a, c)
  {
    if b != c {
      ExtendsTransitive(a, b, c.before);
    }
  }

  /** r2 continues r1 without a status update or a node patch of plan p. */
  ghost predicate Onward(r1: Run, r2: Run, p: string) {
    && Extends(r1, r2)
    && r1.world.now <= r2.world.now
    && RecordKept(r1, r2, p)
    && (forall seen :: InHand(r1, p, seen) ==> InHand(r2, p, seen))
  }

  lemma OnwardTransitive(a: Run, b: Run, c: Run, p: string)
    requires Onward(a, b, p) && Onward(b, c, p)
    ensures Onward(a, c, p)
  {
    ExtendsTransitive(a, b, c);
  }

  lemma PauseIsOnward(r: Run, paused: Run, p: string)
    requires paused.Then? && paused.before == r && paused.step.Environment? && Quietly(r, paused, p)
    ensures Onward(r, paused, p)
  {
  }

  lemma QuietlyCovers(a: Run, b: Run, p: string)
    requires Quietly(a, b, p)
    ensures forall seen :: Covered(a, p, seen) ==> Covered(b, p, seen)
  {
  }

  lemma OnwardExtends(a: Run, b: Run, p: string)
    requires Onward(a, b, p)
    ensures Extends(a, b)
  {
  }

  lemma PauseFacts(r: Run, paused: Run, p: string)
    requires Quietly(r, paused, p)
    ensures Extends(r, paused) && SameEvictions(r, paused, p) && r.world.now <= paused.world.now
  {
  }

  lemma ExtendsByTwo(r1: Run, r2: Run)
    requires r2.Then? && Extends(r1, r2.before)
    ensures Extends(r1, r2)
  {
  }

  lemma QuietlyTransitive(a: Run, b: Run, c: Run, p: string)
    requires Quietly(a, b, p) && Quietly(b, c, p)
    ensures Quietly(a, c, p)
  {
    ExtendsTransitive(a, b, c);
  }

  function CopiesOf(nodes: map<string, Node>, names: seq<string>): (r: seq<Node>)
    requires forall n :: n in names ==> n in nodes
    ensures |r| == |names| && forall i :: 0 <= i < |names| ==> r[i] == nodes[names[i]]
  {
    seq(|names|, i requires 0 <= i < |names| => nodes[names[i]])
  }

  /** The status update of a pass, as a step of the run. */
  lemma PublishIsAStep(r: Run, plan: Plan, nodes: map<string, Node>, names: seq<string>, copies: seq<Node>,
                       conflicting: nat, snapshot: Option<seq<string>>, at: Time)
    requires Held(r, plan, nodes) && at <= r.world.now
    requires Distinct(names) && |copies| == |names|
    requires forall i :: 0 <= i < |names| ==> names[i] in nodes && copies[i] == nodes[names[i]]
    requires SnapshotFits(plan, names, snapshot)
    ensures var status := UpdatedStatus(plan, copies, conflicting, snapshot, at);
            var next := WithStatus(r.world, plan.name, status);
            var step := PublishStatus(plan.name, plan.spec, copies, conflicting, snapshot, at);
            && Does(r, step, next) && Held(Then(r, step, next), next.plans[plan.name], nodes)
  {
    hide Copied, UpdatedStatus;
    var next := WithStatus(r.world, plan.name, UpdatedStatus(plan, copies, conflicting, snapshot, at));
    CopiesStay(r, PublishStatus(plan.name, plan.spec, copies, conflicting, snapshot, at), next, nodes);
    var stored := Seen(r.world, plan.name, plan.spec);
    forall i, j | 0 <= i < j < |copies| ensures copies[i].name != copies[j].name {
      assert copies[i].name == names[i] && copies[j].name == names[j];
    }
    forall i | 0 <= i < |copies| ensures Copied(r, copies[i]) && InSnapshot(stored, copies[i].name) {
      assert copies[i].name == names[i] && names[i] in names;
    }
    if snapshot.Some? {
      forall n ensures n in snapshot.value <==> exists i :: 0 <= i < |copies| && copies[i].name == n {
        if n in snapshot.value {
          var i :| 0 <= i < |names| && names[i] == n;
          assert copies[i].name == n;
        }
        if i :| 0 <= i < |copies| && copies[i].name == n {
          assert names[i] == n;
        }
      }
    }
    UpdateUsesSpecAndStatus(stored, plan, copies, conflicting, snapshot, at);
  }

  ghost predicate SnapshotFits(plan: Plan, names: seq<string>, snapshot: Option<seq<string>>) {
    && (forall n :: n in names ==> InSnapshot(plan, n))
    && (snapshot.Some? <==> plan.spec.selector.Some? && !plan.status.snapshotTaken)
    && (snapshot.Some? ==> forall n :: n in snapshot.value <==> n in names)
  }

  lemma UpdateUsesSpecAndStatus(a: Plan, b: Plan, all: seq<Node>, conflicting: nat, snapshot: Option<seq<string>>, at: Time)
    requires a.name == b.name && a.spec == b.spec && a.status == b.status
    ensures UpdatedStatus(a, all, conflicting, snapshot, at) == UpdatedStatus(b, all, conflicting, snapshot, at)
  {
    forall i | 0 <= i < |all| ensures NextEntry(a, all[i], at) == NextEntry(b, all[i], at) {
    }
    assert NextEntries(a, all, at) == NextEntries(b, all, at);
  }

  lemma {:induction false} NotEvictedAfter(r: Run, k: nat, id: PodId)
    requires id !in EvictedIds(r)
    ensures !EvictedAfter(r, k, id)
  {
    if r.Then? {
      NotEvictedAfter(r.before, k, id);
    }
  }

  /** The listing after k steps of the run showed this very pod, not on its way out. */
  ghost predicate ListedAs(r: Run, k: nat, pod: Pod) {
    ListedThen(r, k, pod.id) && At(r, k).pods[pod.id] == pod
  }

  lemma RequestIsAllowed(r: Run, plan: Plan, nodes: map<string, Node>, n: string, pod: Pod, listedAt: nat, cfg: DrainConfig)
    requires Held(r, plan, nodes) && n in nodes
    requires nodes[n].unschedulable && IsNodeReady(nodes[n]) && DrainTarget(r, plan.name, nodes[n]) && !TimedOut(plan)
    requires pod.id.node == n && ListedAs(r, listedAt, pod) && pod.id !in EvictedIds(r)
    requires GetDrainConfig(plan.spec) == Some(cfg) && MayEvict(pod, cfg)
    ensures Requestable(r, plan.name, plan.spec, nodes[n], pod.id, listedAt)
  {
    NotEvictedAfter(r, listedAt, pod.id);
  }

  /** An accepted request, as a step of the run. */
  lemma EvictionIsAStep(r: Run, plan: Plan, nodes: map<string, Node>, n: string, id: PodId, listedAt: nat, deletion: bool,
                        next: World)
    requires Held(r, plan, nodes) && n in nodes && Requestable(r, plan.name, plan.spec, nodes[n], id, listedAt)
    requires if deletion then MayDelete(r, plan.spec, id, listedAt) else id in r.world.pods
    requires Evicted(r.world, id, next)
    ensures var step := EvictPod(plan.name, plan.spec, nodes[n], id, listedAt, deletion);
            && Does(r, step, next) && Held(Then(r, step, next), plan, nodes)
            && (Tracked(r, plan.name, nodes) ==> Tracked(Then(r, step, next), plan.name, nodes))
            && Onward(r, Then(r, step, next), plan.name)
            && LastEviction(Then(r, step, next), plan.name) == Some(r.world.now)
            && next.now == r.world.now && next.nodes == r.world.nodes && next.plans == r.world.plans
  {
    hide Requestable, Copied, MayDelete;
    assert Extends(r, r);
    CopiesStay(r, EvictPod(plan.name, plan.spec, nodes[n], id, listedAt, deletion), next, nodes);
  }

  /** An answer that changes nothing, as a step of the run. */
  lemma ReplyIsAStep(r: Run, plan: Plan, nodes: map<string, Node>, n: string, id: PodId, listedAt: nat, answer: Answer)
    requires Held(r, plan, nodes) && n in nodes && Requestable(r, plan.name, plan.spec, nodes[n], id, listedAt)
    requires answer != Accepted && (answer == NotFound ==> id !in r.world.pods)
    ensures var step := Reply(plan.name, plan.spec, nodes[n], id, listedAt, answer);
            && Does(r, step, r.world) && Held(Then(r, step, r.world), plan, nodes)
            && (Tracked(r, plan.name, nodes) ==> Tracked(Then(r, step, r.world), plan.name, nodes))
            && Onward(r, Then(r, step, r.world), plan.name)
  {
    hide Requestable, Copied;
    assert Extends(r, r);
    CopiesStay(r, Reply(plan.name, plan.spec, nodes[n], id, listedAt, answer), r.world, nodes);
  }

  /** The drain status, as a step of the run. */
  lemma DrainIsAStep(r: Run, plan: Plan, nodes: map<string, Node>, reports: seq<Report>, at: Time)
    requires Held(r, plan, nodes) && !TimedOut(plan) && at <= r.world.now
    requires Accounts(r, plan.name, ResultsOf(reports))
    requires LastEviction(r, plan.name).Some? ==> LastEviction(r, plan.name).value <= at
    requires forall i :: 0 <= i < |reports| ==> SoundReport(r, plan, reports[i])
    ensures var next := WithStatus(r.world, plan.name, AppliedDrain(plan, ResultsOf(reports), at).0);
            var step := PublishDrain(plan.name, plan.spec, reports, at);
            && Does(r, step, next) && Held(Then(r, step, next), next.plans[plan.name], nodes)
            && (Tracked(r, plan.name, nodes) ==> Tracked(Then(r, step, next), plan.name, nodes))
  {
    var next := WithStatus(r.world, plan.name, AppliedDrain(plan, ResultsOf(reports), at).0);
    CopiesStay(r, PublishDrain(plan.name, plan.spec, reports, at), next, nodes);
    var stored := Seen(r.world, plan.name, plan.spec);
    forall i | 0 <= i < |reports| ensures SoundReport(r, stored, reports[i]) {
      assert SoundReport(r, plan, reports[i]);
    }
    assert StartedAt(stored.status, ResultsOf(reports), at) == StartedAt(plan.status, ResultsOf(reports), at);
    assert AppliedDrain(stored, ResultsOf(reports), at) == AppliedDrain(plan, ResultsOf(reports), at);
  }

  lemma QuietlyReflexive(r: Run, p: string)
    ensures Quietly(r, r, p)
  {
  }

  lemma QuietStep(r: Run, step: Step, w': World, p: string)
    requires Does(r, step, w')
    requires step.Environment? || step.PatchNode?
    ensures Quietly(r, Then(r, step, w'), p)
  {
    assert Extends(r, r);
  }

  /** Where a patch lands: the marks arrive, and no other node changes. */
  lemma PatchLands(w: World, seen: Node, put: Node)
    requires seen.name in w.nodes && w.nodes[seen.name].name == seen.name && View(w, seen)
    ensures var w', n := Patched(w, seen, put), seen.name;
            && w'.plans == w.plans
            && n in w'.nodes && w'.nodes == w.nodes[n := w'.nodes[n]]
            && w'.nodes[n].name == n
            && SameMarks(w'.nodes[n], put)
            && MarksKept(w, w', {n})
  {
    PatchCarriesMarks(seen, put, w.nodes[seen.name]);
  }

  /** The answer replaces the copy that was patched; the others stay as they are. */
  lemma PatchKeepsCopies(r: Run, plan: Plan, nodes: map<string, Node>, why: Write, put: Node, n: string, w': World)
    requires Held(r, plan, nodes) && n in nodes && n in w'.nodes && w'.nodes[n].name == n
    requires w'.nodes == r.world.nodes[n := w'.nodes[n]] && w'.plans == r.world.plans
    ensures var after := Then(r, PatchNode(plan.name, plan.spec, why, nodes[n], put), w');
            && Held(after, plan, nodes[n := w'.nodes[n]])
            && (Tracked(r, plan.name, nodes) ==> Tracked(after, plan.name, nodes[n := w'.nodes[n]]))
  {
    var after := Then(r, PatchNode(plan.name, plan.spec, why, nodes[n], put), w');
    forall m | m in nodes && m != n ensures Copied(after, nodes[m]) {
      assert Copied(r, nodes[m]) && nodes[m].name == m && LeftAlone(after, m);
    }
    assert Copied(after, w'.nodes[n]);
  }

  lemma PatchKeepsHeld(r: Run, plan: Plan, nodes: map<string, Node>, why: Write, put: Node, n: string)
    requires Held(r, plan, nodes) && n in nodes && n in r.world.nodes && r.world.nodes[n].name == n
    ensures var w := r.world;
            var w' := Patched(w, nodes[n], put);
            var after := Then(r, PatchNode(plan.name, plan.spec, why, nodes[n], put), w');
            && w'.plans == w.plans
            && n in w'.nodes && w'.nodes == w.nodes[n := w'.nodes[n]]
            && w'.nodes[n].name == n
            && SameMarks(w'.nodes[n], put)
            && Held(after, plan, nodes[n := w'.nodes[n]])
            && (Tracked(r, plan.name, nodes) ==> Tracked(after, plan.name, nodes[n := w'.nodes[n]]))
            && MarksKept(w, w', {n})
            && UncordonedLast(after, plan.name, n) == (why == Uncordoning)
  {
    hide Held, Tracked, Copied, MarksKept, SameMarks, View;
    NameOfCopy(r, plan, nodes, n);
    CopyIsCurrent(r, nodes[n]);
    PatchLands(r.world, nodes[n], put);
    PatchKeepsCopies(r, plan, nodes, why, put, n, Patched(r.world, nodes[n], put));
  }

  lemma MarksAreSane(w: World, n: string)
    requires Inv(w) && n in w.nodes
    ensures Cordoned in w.nodes[n].annotations ==> w.nodes[n].annotations[Cordoned] == "true"
  {
    assert NodeInv(w, n);
  }

  lemma StoredPlan(r: Run, plan: Plan, nodes: map<string, Node>)
    requires Held(r, plan, nodes)
    ensures plan.name in r.world.plans && SamePlan(r.world.plans[plan.name], plan)
  {
  }

  lemma HeldNames(r: Run, plan: Plan, nodes: map<string, Node>)
    requires Held(r, plan, nodes)
    ensures forall n :: n in nodes ==> nodes[n].name == n
  {
  }

  lemma NameOfCopy(r: Run, plan: Plan, nodes: map<string, Node>, n: string)
    requires Held(r, plan, nodes) && n in nodes
    ensures nodes[n].name == n && Copied(r, nodes[n])
  {
  }

  lemma NameOfNode(w: World, n: string)
    requires Inv(w) && n in w.nodes
    ensures w.nodes[n].name == n
  {
    assert NodeInv(w, n);
  }

  lemma PatchIsAStep(r: Run, plan: Plan, nodes: map<string, Node>, why: Write, put: Node, n: string)
    requires Held(r, plan, nodes) && n in nodes && n in r.world.nodes
    requires Allowed(r, plan, why, nodes[n], put)
    ensures var step := PatchNode(plan.name, plan.spec, why, nodes[n], put);
            var next := Patched(r.world, nodes[n], put);
            Does(r, step, next) && Quietly(r, Then(r, step, next), plan.name)
  {
    SamePermission(r, plan, why, nodes[n], put);
    QuietStep(r, PatchNode(plan.name, plan.spec, why, nodes[n], put), Patched(r.world, nodes[n], put), plan.name);
  }

  lemma PatchOnFresh(r: Run, plan: Plan, why: Write, seen: Node, put: Node)
    requires seen.name in r.world.nodes && r.world.nodes[seen.name] == seen && Allowed(r, plan, why, seen, put)
    ensures Patched(r.world, seen, put).nodes == r.world.nodes[seen.name := put]
  {
    MergeOntoBase(seen, put);
  }

  lemma MarksKeptTransitive(a: World, b: World, c: World, t: set<string>)
    requires MarksKept(a, b, t) && MarksKept(b, c, t)
    ensures MarksKept(a, c, t)
  {
  }

  lemma MarksKeptFirst(a: World, b: World, c: World, n: string)
    requires MarksKept(a, b, {})
    ensures MarksKept(a, b, {n}) && (MarksKept(b, c, {n}) ==> MarksKept(a, c, {n}))
  {
  }

  lemma MarksKeptNext(a: World, b: World, c: World, touched: set<string>, n: string)
    requires MarksKept(a, b, touched) && MarksKept(b, c, {n}) && n in touched
    ensures MarksKept(a, c, touched)
  {
  }

  /** None of these nodes, as far as they still exist, has an owner. */
  ghost predicate Ownerless(w: World, names: seq<string>) {
    forall n :: n in names && n in w.nodes ==> Owner(w.nodes[n]) == ""
  }

  lemma NothingMoved(w: World, touched: set<string>)
    ensures MarksKept(w, w, touched) && Ownerless(w, [])
  {
  }

  lemma ReleaseInTwo(w: World, mid: World, w': World, plan: Plan, n: string)
    requires n in w.nodes && mid.nodes == w.nodes[n := UncordonedNode(w.nodes[n])] && mid.plans == w.plans
    requires w'.nodes == mid.nodes[n := ReleasedNode(mid.nodes[n])] && w'.plans == mid.plans
    ensures OneStaged(ReleaseStage, plan, n, w, w')
  {
    assert w'.nodes == w.nodes[n := ReleasedNode(UncordonedNode(w.nodes[n]))];
  }

  /** Every node that named plan p is uncordoned and released, but for those still to do. */
  ghost predicate CleanedSoFar(before: map<string, Node>, after: map<string, Node>, p: string, todo: set<string>) {
    && after.Keys == before.Keys
    && forall n :: n in before ==>
         after[n] == if Owner(before[n]) == p && n !in todo then ReleasedNode(UncordonedNode(before[n])) else before[n]
  }

  ghost predicate CleanedUp(before: map<string, Node>, after: map<string, Node>, p: string) {
    CleanedSoFar(before, after, p, {})
  }

  lemma CleanedNext(first: map<string, Node>, mid: World, last: World, plan: Plan, todo: set<string>, n: string)
    requires n in todo && (forall m :: m in todo ==> m in first && Owner(first[m]) == plan.name)
    requires CleanedSoFar(first, mid.nodes, plan.name, todo) && OneStaged(ReleaseStage, plan, n, mid, last)
    ensures CleanedSoFar(first, last.nodes, plan.name, todo - {n})
  {
  }

  /** All nodes that name plan p are among these. */
  ghost predicate OwnedWithin(w: World, p: string, names: set<string>) {
    forall n :: n in w.nodes && Owner(w.nodes[n]) == p ==> n in names
  }

  lemma OwnedWithinNext(w: World, w': World, p: string, names: set<string>, n: string)
    requires p != "" && OwnedWithin(w, p, names) && MarksKept(w, w', {n})
    requires n in w'.nodes ==> Owner(w'.nodes[n]) == ""
    ensures OwnedWithin(w', p, names - {n})
  {
  }

  lemma OwnerlessNext(w: World, w': World, names: seq<string>, i: nat)
    requires i < |names| && Ownerless(w, names[..i]) && MarksKept(w, w', {names[i]})
    requires names[i] in w'.nodes ==> Owner(w'.nodes[names[i]]) == ""
    ensures Ownerless(w', names[..i + 1])
  {
    assert names[..i + 1] == names[..i] + [names[i]];
  }

  lemma FreshCopy(r: Run, plan: Plan, nodes: map<string, Node>, n: string)
    requires Inv(r.world) && Held(r, plan, nodes) && n in r.world.nodes
    ensures Held(r, plan, nodes[n := r.world.nodes[n]])
  {
    assert NodeInv(r.world, n);
  }

  lemma PlanNameNotEmpty(r: Run, plan: Plan, nodes: map<string, Node>)
    requires Inv(r.world) && Held(r, plan, nodes)
    ensures plan.name != ""
  {
    assert PlanInv(r.world, plan.name);
  }

  lemma ListedIsHeld(r: Run, plan: Plan, nodes: map<string, Node>, listed: map<string, Node>)
    requires Inv(r.world) && Held(r, plan, nodes)
    requires forall n :: n in listed ==> n in r.world.nodes && listed[n] == r.world.nodes[n]
    ensures Held(r, plan, listed)
  {
    assert forall n | n in listed :: NodeInv(r.world, n);
  }

  /** The nodes a plan names, as far as its spec and status determine them. */
  ghost predicate Desired(w: World, plan: Plan, desired: set<string>) {
    && desired <= w.nodes.Keys
    && (if plan.spec.selector.Some? then
          plan.status.snapshotTaken ==> desired == (set n | n in w.nodes && n in plan.status.resolvedNodes)
        else desired == (set n | n in w.nodes && n in plan.spec.nodes))
  }

  /** Node by node effect of one stage on the named nodes; the others are as they were. */
  datatype Stage = AdoptionStage(cordon: bool) | DriftStage | CordonStage | ReleaseStage

  function After(stage: Stage, plan: Plan, node: Node): Node {
    match stage
    case AdoptionStage(cordon) => AfterAdoption(node, plan, cordon)
    case DriftStage => AfterDrift(node, plan)
    case CordonStage => AfterCordon(node, plan)
    case ReleaseStage => ReleasedNode(UncordonedNode(node))
  }

  ghost predicate Staged(stage: Stage, plan: Plan, names: seq<string>, before: map<string, Node>, after: map<string, Node>) {
    && after.Keys == before.Keys
    && forall n :: n in before ==> after[n] == if n in names then After(stage, plan, before[n]) else before[n]
  }

  ghost predicate OneStaged(stage: Stage, plan: Plan, n: string, w: World, w': World) {
    && n in w.nodes
    && w'.nodes == w.nodes[n := After(stage, plan, w.nodes[n])]
    && w'.plans == w.plans
  }

  lemma NothingStaged(stage: Stage, plan: Plan, nodes: map<string, Node>)
    ensures Staged(stage, plan, [], nodes, nodes)
  {
  }

  lemma StagedNext(stage: Stage, plan: Plan, names: seq<string>, i: nat, first: World, mid: World, last: World)
    requires i < |names| && Distinct(names)
    requires Staged(stage, plan, names[..i], first.nodes, mid.nodes)
    requires OneStaged(stage, plan, names[i], mid, last)
    ensures Staged(stage, plan, names[..i + 1], first.nodes, last.nodes) && last.plans == mid.plans
  {
    assert names[..i + 1] == names[..i] + [names[i]];
  }

  /** Cordoning acts when it is due, and undoing a disabled cordon always does. */
  predicate CordonActs(spec: Spec, cordonDue: bool) {
    !CordonEnabled(spec) || cordonDue
  }

  /** What one undisturbed pass makes of a node. */
  function PassNode(node: Node, desired: bool, plan: Plan, cordonDue: bool): Node {
    var acts := CordonActs(plan.spec, cordonDue);
    if desired then
      if Owner(node) == "" then AfterAdoption(node, plan, CordonEnabled(plan.spec) && acts)
      else if Owner(node) == plan.name then
        var kept := AfterDrift(node, plan);
        if acts then AfterCordon(kept, plan) else kept
      else node
    else if Owner(node) == plan.name && acts then ReleasedNode(UncordonedNode(node))
    else node
  }

  ghost predicate PassEffect(before: map<string, Node>, after: map<string, Node>, desired: set<string>, plan: Plan,
                             cordonDue: bool)
  {
    && after.Keys == before.Keys
    && forall n :: n in before ==> after[n] == PassNode(before[n], n in desired, plan, cordonDue)
  }

  lemma StagesOnNode(a: Node, b: Node, c: Node, d: Node, e: Node, plan: Plan, updated: Plan, cordonDue: bool, desired: bool)
    requires plan.name != "" && updated.name == plan.name && updated.spec == plan.spec
    requires var acts := CordonActs(plan.spec, cordonDue);
             var stable := desired && Owner(a) == plan.name;
             && b == (if desired && Owner(a) == "" then AfterAdoption(a, plan, CordonEnabled(plan.spec) && acts) else a)
             && c == (if stable then AfterDrift(b, updated) else b)
             && d == (if acts && stable then AfterCordon(c, updated) else c)
             && e == (if acts && !desired && Owner(a) == plan.name then ReleasedNode(UncordonedNode(d)) else d)
    ensures e == PassNode(a, desired, plan, cordonDue)
  {
    ReleasesIgnoresStatus(a, plan, updated);
    hide DetectNodeDrift;
  }

  /** The stages of a pass, put together node by node. */
  lemma StagesMakeAPass(n0: map<string, Node>, n1: map<string, Node>, n2: map<string, Node>, n3: map<string, Node>,
                        n4: map<string, Node>,
                        plan: Plan, updated: Plan, cordonDue: bool, desired: set<string>,
                        toAdopt: seq<string>, stable: seq<string>, toRelease: seq<string>)
    requires plan.name != "" && updated.name == plan.name && updated.spec == plan.spec
    requires forall n :: n in n0 ==> (n in toAdopt <==> n in desired && Owner(n0[n]) == "")
    requires forall n :: n in n0 ==> (n in stable <==> n in desired && Owner(n0[n]) == plan.name)
    requires forall n :: n in n0 ==> (n in toRelease <==> n !in desired && Owner(n0[n]) == plan.name)
    requires var acts := CordonActs(plan.spec, cordonDue);
             && Staged(AdoptionStage(CordonEnabled(plan.spec) && acts), plan, toAdopt, n0, n1)
             && Staged(DriftStage, updated, stable, n1, n2)
             && (if acts then Staged(CordonStage, updated, stable, n2, n3) && Staged(ReleaseStage, updated, toRelease, n3, n4)
                 else n4 == n2)
    ensures PassEffect(n0, n4, desired, plan, cordonDue)
  {
    hide AfterDrift, AfterCordon, AfterAdoption, PassNode, Owner, CordonActs, CordonEnabled;
    forall n | n in n0 ensures n4[n] == PassNode(n0[n], n in desired, plan, cordonDue) {
      StagesOnNode(n0[n], n1[n], n2[n], if CordonActs(plan.spec, cordonDue) then n3[n] else n2[n], n4[n],
                   plan, updated, cordonDue, n in desired);
    }
  }

  /** The copies outside names are as they were. */
  ghost predicate Untouched(before: map<string, Node>, after: map<string, Node>, names: seq<string>) {
    && after.Keys == before.Keys
    && forall n :: n in before && n !in names ==> after[n] == before[n]
  }

  lemma UntouchedNext(before: map<string, Node>, mid: map<string, Node>, names: seq<string>, i: nat)
    requires i < |names| && Distinct(names) && Untouched(before, mid, names[..i])
    ensures names[i] !in names[..i]
    ensures names[i] in before ==> mid[names[i]] == before[names[i]]
    ensures forall m :: m in names[..i + 1] <==> m in names[..i] || m == names[i]
  {
    assert names[..i + 1] == names[..i] + [names[i]];
  }

  /** Cordoning leaves this node alone. */
  predicate CordonIdle(node: Node, plan: Plan) {
    || Owner(node) != plan.name
    || (if CordonEnabled(plan.spec) then AlreadyCordoned(node)
        else (node.unschedulable && !OperatorCordoned(node)) || AlreadyUncordoned(node))
  }

  function AfterAdoption(node: Node, plan: Plan, cordon: bool): Node {
    if Latched(plan.status.nodes, node.name) then node
    else Adopted(node, plan.name, plan.spec.reason, cordon)
  }

  function AfterDrift(node: Node, plan: Plan): Node {
    if Releases(DetectNodeDrift(node, plan)) then ReleasedNode(node) else node
  }

  function AfterCordon(node: Node, plan: Plan): Node {
    if Owner(node) != plan.name then node
    else if CordonEnabled(plan.spec) then CordonedNode(node)
    else if node.unschedulable && !OperatorCordoned(node) then node
    else UncordonedNode(node)
  }
}
