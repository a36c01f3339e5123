/**
 The pool that drains several nodes at once: one goroutine per node, a semaphore around the
 drain call, one result slot each, and a wait for all of them.

 Every interleaving is a sequence of steps. A drain call is broken up into its eviction
 requests, because those are what the calls of different nodes contend for: each request asks
 the disruption budget that covers the pod.
 */
module WorkerPool {
  import opened Api
  import opened DrainFilters
  import opened DrainFold
  import opened Draining

  /** The number of permits: the option when it is positive, otherwise one. */
  function MaxParallel(spec: Spec): (r: int)
    ensures r >= 1
    ensures spec.drain.Some? && spec.drain.value.options.Some? && spec.drain.value.options.value.maxParallel >= 1
            ==> r == spec.drain.value.options.value.maxParallel
    ensures spec.drain.None? || spec.drain.value.options.None? || spec.drain.value.options.value.maxParallel < 1 ==> r == 1
  {
    if spec.drain.Some? && spec.drain.value.options.Some? && spec.drain.value.options.value.maxParallel > 0
    then spec.drain.value.options.value.maxParallel
    else 1
  }

  /* ----- One drain call ----- */

  /** How the API treats a pod, budgets aside. */
  datatype Fate = Usual | Vanished | Broken | Undeletable

  datatype Job = Job(name: string, pods: FilterResult)

  datatype Setup = Setup(
    jobs: seq<Job>,
    permits: nat,
    respectBudgets: bool,
    fates: map<PodId, Fate>,
    covers: map<PodId, int>,
    budgets: map<int, nat>
  )

  datatype Call = Call(evicted: nat, refused: seq<PodId>, failed: bool)

  const FRESH_CALL: Call := Call(0, [], false)

  function FateOf(setup: Setup, id: PodId): Fate {
    if id in setup.fates then setup.fates[id] else Usual
  }

  predicate Exhausted(setup: Setup, id: PodId, budgets: map<int, nat>) {
    id in setup.covers && setup.covers[id] in budgets && budgets[setup.covers[id]] == 0
  }

  function Charged(setup: Setup, id: PodId, budgets: map<int, nat>): map<int, nat> {
    if id in setup.covers && setup.covers[id] in budgets && budgets[setup.covers[id]] > 0
    then budgets[setup.covers[id] := budgets[setup.covers[id]] - 1]
    else budgets
  }

  /** One turn of the eviction loop. */
  function Request(setup: Setup, id: PodId, call: Call, budgets: map<int, nat>): (Call, map<int, nat>) {
    var fate := FateOf(setup, id);
    if fate == Vanished then (call, budgets)
    else if fate == Broken then (call.(failed := true), budgets)
    else if !Exhausted(setup, id, budgets) then (call.(evicted := call.evicted + 1), Charged(setup, id, budgets))
    else if setup.respectBudgets then (call.(refused := call.refused + [id]), budgets)
    else if fate == Undeletable then (call.(failed := true), budgets)
    else (call.(evicted := call.evicted + 1), budgets)
  }

  /** Which requests are granted, refused and failed, and what that costs the pod's budget. */
  lemma RequestMeans(setup: Setup, id: PodId, call: Call, budgets: map<int, nat>)
    ensures var (after, left) := Request(setup, id, call, budgets);
            var exhausted := id in setup.covers && setup.covers[id] in budgets && budgets[setup.covers[id]] == 0;
            var fate := FateOf(setup, id);
            && (fate == Vanished ==> after == call && left == budgets)
            && (fate == Broken || (fate == Undeletable && exhausted && !setup.respectBudgets) ==>
                  after == call.(failed := true) && left == budgets)
            && (fate in {Usual, Undeletable} && exhausted && setup.respectBudgets ==>
                  after == call.(refused := call.refused + [id]) && left == budgets)
            && (fate == Usual && exhausted && !setup.respectBudgets ==>
                  after == call.(evicted := call.evicted + 1) && left == budgets)
            && (fate in {Usual, Undeletable} && !exhausted ==>
                  && after == call.(evicted := call.evicted + 1) && left.Keys == budgets.Keys
                  && forall b :: b in budgets ==>
                       left[b] == if id in setup.covers && setup.covers[id] == b then budgets[b] - 1 else budgets[b])
  {
  }

  /** The loop after k of the listed pods, unless it failed before. */
  function AfterRequests(setup: Setup, pods: seq<Pod>, k: nat, budgets: map<int, nat>): (Call, map<int, nat>)
    requires k <= |pods|
  {
    if k == 0 then (FRESH_CALL, budgets)
    else
      var (call, left) := AfterRequests(setup, pods, k - 1, budgets);
      if call.failed then (call, left) else Request(setup, pods[k - 1].id, call, left)
  }

  function Result(job: Job, call: Call): DrainResult {
    ResultOf(job.name, job.pods, call.evicted, call.refused, call.failed)
  }

  /* ----- One node after the other ----- */

  function Alone(setup: Setup, i: nat, budgets: map<int, nat>): (Call, map<int, nat>)
    requires i < |setup.jobs|
  {
    AfterRequests(setup, setup.jobs[i].pods.evictable, |setup.jobs[i].pods.evictable|, budgets)
  }

  /** Results and budgets after the first k nodes were drained in order. */
  function InOrder(setup: Setup, k: nat): (r: (seq<DrainResult>, map<int, nat>))
    requires k <= |setup.jobs|
    ensures |r.0| == k
  {
    if k == 0 then ([], setup.budgets)
    else
      var (results, budgets) := InOrder(setup, k - 1);
      var (call, left) := Alone(setup, k - 1, budgets);
      (results + [Result(setup.jobs[k - 1], call)], left)
  }

  /* ----- The pool ----- */

  datatype Slot =
    | Unspawned
    | Waiting
    | Draining(next: nat, call: Call)
    | Returned(result: DrainResult)
    | Stored
    | Released
    | Done

  datatype Pool = Pool(
    slots: seq<Slot>,
    results: seq<Option<DrainResult>>,
    budgets: map<int, nat>,
    held: nat,
    pending: nat,
    spawned: nat,
    joined: bool
  )

  datatype Step =
    | Spawn
    | Acquire(i: nat)
    | Evict(i: nat)
    | Return(i: nat)
    | Store(i: nat)
    | Release(i: nat)
    | SignalDone(i: nat)
    | Join

  function Start(setup: Setup): Pool {
    Pool(seq(|setup.jobs|, _ => Unspawned), seq(|setup.jobs|, _ => None), setup.budgets, 0, 0, 0, false)
  }

  predicate CallEnds(setup: Setup, i: nat, slot: Slot)
    requires i < |setup.jobs|
  {
    slot.Draining? && (slot.call.failed || slot.next >= |setup.jobs[i].pods.evictable|)
  }

  /** A semaphore is a channel whose buffer holds the permits; a send waits for room in it. */
  predicate Enabled(setup: Setup, s: Pool, step: Step) {
    var n := |setup.jobs|;
    && |s.slots| == n && |s.results| == n && !s.joined
    && match step
       case Spawn => s.spawned < n
       case Acquire(i) => i < n && s.slots[i].Waiting? && s.held < setup.permits
       case Evict(i) => i < n && s.slots[i].Draining? && !CallEnds(setup, i, s.slots[i])
       case Return(i) => i < n && CallEnds(setup, i, s.slots[i])
       case Store(i) => i < n && s.slots[i].Returned?
       case Release(i) => i < n && s.slots[i].Stored? && s.held > 0
       case SignalDone(i) => i < n && s.slots[i].Released? && s.pending > 0
       case Join => s.spawned == n && s.pending == 0
  }

  function Next(setup: Setup, s: Pool, step: Step): Pool
    requires Enabled(setup, s, step)
  {
    match step
    case Spawn => s.(slots := s.slots[s.spawned := Waiting], spawned := s.spawned + 1, pending := s.pending + 1)
    case Acquire(i) => s.(slots := s.slots[i := Slot.Draining(0, FRESH_CALL)], held := s.held + 1)
    case Evict(i) =>
      var slot := s.slots[i];
      var (call, left) := Request(setup, setup.jobs[i].pods.evictable[slot.next].id, slot.call, s.budgets);
      s.(slots := s.slots[i := Slot.Draining(slot.next + 1, call)], budgets := left)
    case Return(i) => s.(slots := s.slots[i := Returned(Result(setup.jobs[i], s.slots[i].call))])
    case Store(i) => s.(slots := s.slots[i := Stored], results := s.results[i := Some(s.slots[i].result)])
    case Release(i) => s.(slots := s.slots[i := Released], held := s.held - 1)
    case SignalDone(i) => s.(slots := s.slots[i := Done], pending := s.pending - 1)
    case Join => s.(joined := true)
  }

  /** The pool after a schedule, if every step of it could be taken. */
  function Run(setup: Setup, steps: seq<Step>): Option<Pool> {
    if steps == [] then Some(Start(setup))
    else
      var before := Run(setup, steps[..|steps| - 1]);
      var step := steps[|steps| - 1];
      if before.Some? && Enabled(setup, before.value, step) then Some(Next(setup, before.value, step)) else None
  }

  /* ----- Counting ----- */

  predicate Holds(slot: Slot) {
    slot.Draining? || slot.Returned? || slot.Stored?
  }

  predicate Running(slot: Slot) {
    !slot.Unspawned? && !slot.Done?
  }

  ghost function Holders(slots: seq<Slot>): set<nat> {
    set i: nat | i < |slots| && Holds(slots[i])
  }

  ghost function Started(slots: seq<Slot>): set<nat> {
    set i: nat | i < |slots| && Running(slots[i])
  }

  lemma SizeMoves(before: set<nat>, after: set<nat>, i: nat)
    requires before - {i} == after - {i}
    ensures |after| == |before| + (if i in after then 1 else 0) - if i in before then 1 else 0
  {
    assert i in after ==> after == (after - {i}) + {i};
    assert i !in after ==> after == after - {i};
    assert i in before ==> before == (before - {i}) + {i};
    assert i !in before ==> before == before - {i};
  }

  lemma CountersMove(slots: seq<Slot>, i: nat, slot: Slot)
    requires i < |slots|
    ensures |Holders(slots[i := slot])|
            == |Holders(slots)| + (if Holds(slot) then 1 else 0) - if Holds(slots[i]) then 1 else 0
    ensures |Started(slots[i := slot])|
            == |Started(slots)| + (if Running(slot) then 1 else 0) - if Running(slots[i]) then 1 else 0
  {
    SizeMoves(Holders(slots), Holders(slots[i := slot]), i);
    SizeMoves(Started(slots), Started(slots[i := slot]), i);
  }

  /** The counters are what they are meant to count, and the permits bound the calls. */
  ghost predicate Counted(setup: Setup, s: Pool) {
    && |s.slots| == |setup.jobs| == |s.results|
    && s.spawned <= |setup.jobs|
    && (forall i :: 0 <= i < |s.slots| ==> (s.slots[i].Unspawned? <==> s.spawned <= i))
    && (forall i :: 0 <= i < |s.slots| && s.slots[i].Draining? ==> s.slots[i].next <= |setup.jobs[i].pods.evictable|)
    && s.held == |Holders(s.slots)| <= setup.permits
    && s.pending == |Started(s.slots)|
    && (setup.permits == 0 ==> forall i :: 0 <= i < |s.slots| ==> s.slots[i].Unspawned? || s.slots[i].Waiting?)
    && (s.joined ==> s.spawned == |setup.jobs| && s.pending == 0)
  }

  /** The slot a step moves. */
  function Moved(s: Pool, step: Step): nat {
    match step
    case Spawn => s.spawned
    case Join => 0
    case _ => step.i
  }

  lemma CountedStep(setup: Setup, s: Pool, step: Step)
    requires Counted(setup, s) && Enabled(setup, s, step)
    ensures Counted(setup, Next(setup, s, step))
  {
    var s' := Next(setup, s, step);
    if !step.Join? {
      var i := Moved(s, step);
      assert s'.slots == s.slots[i := s'.slots[i]];
      CountersMove(s.slots, i, s'.slots[i]);
    }
    hide Holders, Started, Request;
  }

  lemma {:induction false} AlwaysCounted(setup: Setup, steps: seq<Step>)
    requires Run(setup, steps).Some?
    ensures Counted(setup, Run(setup, steps).value)
  {
    if steps == [] {
      assert Holders(Start(setup).slots) == {} && Started(Start(setup).slots) == {};
    } else {
      var n := |steps| - 1;
      AlwaysCounted(setup, steps[..n]);
      CountedStep(setup, Run(setup, steps[..n]).value, steps[n]);
    }
  }

  /** Under every interleaving at most as many drain calls run as there are permits. */
  lemma BoundedParallelism(setup: Setup, steps: seq<Step>, running: set<nat>)
    requires Run(setup, steps).Some?
    requires forall i :: i in running ==>
      i < |Run(setup, steps).value.slots| && Run(setup, steps).value.slots[i].Draining?
    ensures |running| <= setup.permits
  {
    AlwaysCounted(setup, steps);
    var s := Run(setup, steps).value;
    SubsetSize(running, Holders(s.slots));
  }

  /* ----- No deadlock, and every schedule ends ----- */

  /** A slot that is neither waiting nor done can always move. */
  lemma SomeMove(setup: Setup, s: Pool, i: nat)
    requires Counted(setup, s) && !s.joined && i in Started(s.slots) && !s.slots[i].Waiting?
    ensures exists step :: Enabled(setup, s, step)
  {
    match s.slots[i] {
      case Draining(next, call) => assert Enabled(setup, s, Evict(i)) || Enabled(setup, s, Return(i));
      case Returned(_) => assert Enabled(setup, s, Store(i));
      case Stored =>
        assert i in Holders(s.slots);
        assert Enabled(setup, s, Release(i));
      case Released => assert Enabled(setup, s, SignalDone(i));
    }
  }

  lemma StuckMeansNoPermit(setup: Setup, s: Pool)
    requires Counted(setup, s) && !s.joined
    requires forall step :: !Enabled(setup, s, step)
    ensures setup.permits == 0 && setup.jobs != [] && forall i :: 0 <= i < |s.slots| ==> s.slots[i].Waiting?
  {
    assert !Enabled(setup, s, Spawn) && !Enabled(setup, s, Join);
    assert Started(s.slots) != {};
    forall k | k in Started(s.slots) ensures s.slots[k].Waiting? {
      if !s.slots[k].Waiting? {
        SomeMove(setup, s, k);
      }
    }
    var i :| i in Started(s.slots);
    assert !Enabled(setup, s, Acquire(i));
    assert Holders(s.slots) == {};
  }

  /** Nothing can move exactly when there are nodes to drain, all wait, and there is not a
      single permit. */
  lemma DeadlockIff(setup: Setup, s: Pool)
    requires Counted(setup, s) && !s.joined
    ensures (forall step :: !Enabled(setup, s, step))
            <==> setup.permits == 0 && setup.jobs != [] && forall i :: 0 <= i < |s.slots| ==> s.slots[i].Waiting?
  {
    if forall step :: !Enabled(setup, s, step) {
      StuckMeansNoPermit(setup, s);
    }
    if setup.permits == 0 && setup.jobs != [] && forall i :: 0 <= i < |s.slots| ==> s.slots[i].Waiting? {
      assert 0 in Started(s.slots) && s.slots[|s.slots| - 1].Waiting?;
      forall step ensures !Enabled(setup, s, step) {
      }
    }
  }

  function Rank(setup: Setup, i: nat, slot: Slot): int
    requires i < |setup.jobs|
  {
    var requests := |setup.jobs[i].pods.evictable|;
    match slot
    case Unspawned => requests + 6
    case Waiting => requests + 5
    case Draining(next, _) => requests - next + 4
    case Returned(_) => 3
    case Stored => 2
    case Released => 1
    case Done => 0
  }

  /** The steps that the first k slots can still take. */
  function Ranks(setup: Setup, slots: seq<Slot>, k: nat): int
    requires k <= |slots| == |setup.jobs|
  {
    if k == 0 then 0 else Ranks(setup, slots, k - 1) + Rank(setup, k - 1, slots[k - 1])
  }

  function Measure(setup: Setup, s: Pool): int
    requires |s.slots| == |setup.jobs|
  {
    Ranks(setup, s.slots, |s.slots|) + if s.joined then 0 else 1
  }

  lemma {:induction false} RanksUpdate(setup: Setup, slots: seq<Slot>, i: nat, slot: Slot, k: nat)
    requires i < |slots| == |setup.jobs| && k <= |slots|
    ensures Ranks(setup, slots[i := slot], k)
            == Ranks(setup, slots, k) + if i < k then Rank(setup, i, slot) - Rank(setup, i, slots[i]) else 0
  {
    if k > 0 {
      RanksUpdate(setup, slots, i, slot, k - 1);
    }
  }

  lemma {:induction false} RanksNonNegative(setup: Setup, s: Pool, k: nat)
    requires Counted(setup, s) && k <= |s.slots|
    ensures Ranks(setup, s.slots, k) >= 0
  {
    if k > 0 {
      RanksNonNegative(setup, s, k - 1);
    }
  }

  lemma MeasureFalls(setup: Setup, s: Pool, step: Step)
    requires Counted(setup, s) && Enabled(setup, s, step)
    ensures Measure(setup, Next(setup, s, step)) < Measure(setup, s)
  {
    var s' := Next(setup, s, step);
    if !step.Join? {
      var i := Moved(s, step);
      assert s'.slots == s.slots[i := s'.slots[i]];
      RanksUpdate(setup, s.slots, i, s'.slots[i], |s.slots|);
    }
  }

  lemma {:induction false} StepsAreSpent(setup: Setup, steps: seq<Step>)
    requires Run(setup, steps).Some?
    ensures Counted(setup, Run(setup, steps).value)
    ensures |steps| + Measure(setup, Run(setup, steps).value) <= Measure(setup, Start(setup))
  {
    AlwaysCounted(setup, steps);
    if steps != [] {
      var n := |steps| - 1;
      StepsAreSpent(setup, steps[..n]);
      MeasureFalls(setup, Run(setup, steps[..n]).value, steps[n]);
    }
  }

  /** With a permit, every schedule can be continued until the wait returns, and none is
      longer than what the listed pods allow: the wait always returns. */
  lemma WaitReturns(setup: Setup, steps: seq<Step>)
    requires setup.permits >= 1 && Run(setup, steps).Some?
    ensures var s := Run(setup, steps).value;
            && (s.joined <==> forall step :: !Enabled(setup, s, step))
            && |steps| <= Measure(setup, Start(setup))
  {
    StepsAreSpent(setup, steps);
    var s := Run(setup, steps).value;
    RanksNonNegative(setup, s, |s.slots|);
    if !s.joined {
      DeadlockIff(setup, s);
    }
  }

  /* ----- Each slot is written once, by its own goroutine ----- */

  ghost predicate Slotted(setup: Setup, s: Pool) {
    && |s.slots| == |setup.jobs| == |s.results|
    && forall i :: 0 <= i < |s.slots| ==>
         && (s.results[i].Some? <==> s.slots[i].Stored? || s.slots[i].Released? || s.slots[i].Done?)
         && (s.results[i].Some? ==> s.results[i].value.name == setup.jobs[i].name)
         && (s.slots[i].Returned? ==> s.slots[i].result.name == setup.jobs[i].name)
  }

  lemma {:induction false} AlwaysSlotted(setup: Setup, steps: seq<Step>)
    requires Run(setup, steps).Some?
    ensures Slotted(setup, Run(setup, steps).value)
  {
    if steps != [] {
      var before := steps[..|steps| - 1];
      AlwaysSlotted(setup, before);
      AlwaysCounted(setup, before);
      SlottedStep(setup, Run(setup, before).value, steps[|steps| - 1]);
    }
  }

  lemma SlottedStep(setup: Setup, s: Pool, step: Step)
    requires Slotted(setup, s) && Counted(setup, s) && Enabled(setup, s, step)
    ensures Slotted(setup, Next(setup, s, step))
  {
    hide Request, Holders, Started;
  }

  /** A write to a slot is the first one, is its own goroutine's, and names its node. */
  lemma WrittenOnce(setup: Setup, steps: seq<Step>, step: Step, i: nat)
    requires Run(setup, steps).Some? && Enabled(setup, Run(setup, steps).value, step) && i < |setup.jobs|
    ensures var s := Run(setup, steps).value;
            var s' := Next(setup, s, step);
            && |s'.results| == |s.results| == |setup.jobs|
            && (s'.results[i] != s.results[i] ==>
                  step == Store(i) && s.results[i].None? && s'.results[i].Some?
                  && s'.results[i].value.name == setup.jobs[i].name)
            && (s'.joined ==> s'.results[i].Some?)
  {
    AlwaysSlotted(setup, steps);
    AlwaysCounted(setup, steps);
    var s := Run(setup, steps).value;
    if step.Join? {
      assert Started(s.slots) == {};
      assert i !in Started(s.slots);
    }
  }

  /* ----- The pool refines the loop when no two nodes share a budget ----- */

  /** A budget that covers an evictable pod of node i. */
  ghost predicate Uses(setup: Setup, i: nat, b: int)
    requires i < |setup.jobs|
  {
    var pods := setup.jobs[i].pods.evictable;
    exists k :: 0 <= k < |pods| && pods[k].id in setup.covers && setup.covers[pods[k].id] == b
  }

  ghost predicate NoSharedBudget(setup: Setup) {
    forall i, j, b :: 0 <= i < |setup.jobs| && 0 <= j < |setup.jobs| && i != j && Uses(setup, i, b) ==> !Uses(setup, j, b)
  }

  ghost predicate SameFor(setup: Setup, i: nat, a: map<int, nat>, b: map<int, nat>)
    requires i < |setup.jobs|
  {
    forall k :: Uses(setup, i, k) ==> SameAt(a, b, k)
  }

  /** Only the budgets of node i differ. */
  ghost predicate OthersKept(setup: Setup, i: nat, a: map<int, nat>, b: map<int, nat>)
    requires i < |setup.jobs|
  {
    forall k :: !Uses(setup, i, k) ==> SameAt(a, b, k)
  }

  lemma UsersDiffer(setup: Setup, i: nat, j: nat, a: map<int, nat>, b: map<int, nat>, left: map<int, nat>)
    requires NoSharedBudget(setup) && i < |setup.jobs| && j < |setup.jobs| && i != j
    requires OthersKept(setup, i, a, b) && SameFor(setup, j, a, left)
    ensures SameFor(setup, j, b, left)
  {
    forall k | Uses(setup, j, k) ensures SameAt(b, left, k) {
      assert !Uses(setup, i, k) && SameAt(a, left, k) && SameAt(a, b, k);
    }
  }

  lemma UnusedKept(setup: Setup, i: nat, a: map<int, nat>, b: map<int, nat>)
    requires i < |setup.jobs| && OthersKept(setup, i, a, b)
    ensures forall k :: Unused(setup, k) ==> SameAt(a, b, k)
  {
    forall k | Unused(setup, k) ensures SameAt(a, b, k) {
      assert !Uses(setup, i, k);
    }
  }

  lemma RequestIsLocal(setup: Setup, i: nat, k: nat, call: Call, a: map<int, nat>, b: map<int, nat>)
    requires i < |setup.jobs| && k < |setup.jobs[i].pods.evictable| && SameFor(setup, i, a, b)
    ensures var id := setup.jobs[i].pods.evictable[k].id;
            && Request(setup, id, call, a).0 == Request(setup, id, call, b).0
            && SameFor(setup, i, Request(setup, id, call, a).1, Request(setup, id, call, b).1)
            && OthersKept(setup, i, a, Request(setup, id, call, a).1)
  {
    var id := setup.jobs[i].pods.evictable[k].id;
    assert id in setup.covers ==> Uses(setup, i, setup.covers[id]);
  }

  lemma {:induction false} CallIsLocal(setup: Setup, i: nat, k: nat, a: map<int, nat>, b: map<int, nat>)
    requires i < |setup.jobs| && k <= |setup.jobs[i].pods.evictable| && SameFor(setup, i, a, b)
    ensures var pods := setup.jobs[i].pods.evictable;
            && AfterRequests(setup, pods, k, a).0 == AfterRequests(setup, pods, k, b).0
            && SameFor(setup, i, AfterRequests(setup, pods, k, a).1, AfterRequests(setup, pods, k, b).1)
            && OthersKept(setup, i, a, AfterRequests(setup, pods, k, a).1)
  {
    if k > 0 {
      var pods := setup.jobs[i].pods.evictable;
      CallIsLocal(setup, i, k - 1, a, b);
      var (call, left) := AfterRequests(setup, pods, k - 1, a);
      RequestIsLocal(setup, i, k - 1, call, left, AfterRequests(setup, pods, k - 1, b).1);
    }
  }

  lemma {:induction false} FailureEndsTheCall(setup: Setup, pods: seq<Pod>, k: nat, n: nat, budgets: map<int, nat>)
    requires k <= n <= |pods| && AfterRequests(setup, pods, k, budgets).0.failed
    ensures AfterRequests(setup, pods, n, budgets) == AfterRequests(setup, pods, k, budgets)
    decreases n
  {
    if k < n {
      FailureEndsTheCall(setup, pods, k, n - 1, budgets);
    }
  }

  /** How far slot i's own call has come, as if it ran by itself on the first budgets. */
  ghost function Own(setup: Setup, i: nat, slot: Slot): (Call, map<int, nat>)
    requires i < |setup.jobs|
  {
    match slot
    case Unspawned => (FRESH_CALL, setup.budgets)
    case Waiting => (FRESH_CALL, setup.budgets)
    case Draining(next, _) =>
      if next <= |setup.jobs[i].pods.evictable| then AfterRequests(setup, setup.jobs[i].pods.evictable, next, setup.budgets)
      else (FRESH_CALL, setup.budgets)
    case _ => Alone(setup, i, setup.budgets)
  }

  ghost predicate OnItsOwn(setup: Setup, s: Pool, i: nat)
    requires i < |s.slots| == |setup.jobs| == |s.results|
  {
    var slot := s.slots[i];
    var (call, left) := Own(setup, i, slot);
    && SameFor(setup, i, s.budgets, left)
    && (slot.Draining? ==> slot.call == call)
    && (slot.Returned? ==> slot.result == Result(setup.jobs[i], call))
    && (s.results[i].Some? ==> s.results[i].value == Result(setup.jobs[i], Alone(setup, i, setup.budgets).0))
  }

  ghost predicate Unused(setup: Setup, b: int) {
    forall i :: 0 <= i < |setup.jobs| ==> !Uses(setup, i, b)
  }

  ghost predicate Independent(setup: Setup, s: Pool) {
    && |s.slots| == |setup.jobs| == |s.results|
    && (forall i :: 0 <= i < |s.slots| ==> OnItsOwn(setup, s, i))
    && (forall b :: Unused(setup, b) ==> SameAt(s.budgets, setup.budgets, b))
  }

  lemma RequestKeepsIndependence(setup: Setup, s: Pool, i: nat)
    requires NoSharedBudget(setup) && Counted(setup, s) && Independent(setup, s) && Enabled(setup, s, Evict(i))
    ensures Independent(setup, Next(setup, s, Evict(i)))
  {
    var s' := Next(setup, s, Evict(i));
    var slot := s.slots[i];
    assert OnItsOwn(setup, s, i);
    RequestIsLocal(setup, i, slot.next, slot.call, s.budgets, Own(setup, i, slot).1);
    UnusedKept(setup, i, s.budgets, s'.budgets);
    hide Uses, Unused, NoSharedBudget, SameFor, OthersKept, Request;
    forall j | 0 <= j < |s.slots| ensures OnItsOwn(setup, s', j) {
      assert OnItsOwn(setup, s, j);
      if j != i {
        UsersDiffer(setup, i, j, s.budgets, s'.budgets, Own(setup, j, s.slots[j]).1);
      }
    }
  }

  lemma StepKeepsIndependence(setup: Setup, s: Pool, step: Step)
    requires NoSharedBudget(setup) && Counted(setup, s) && Independent(setup, s) && Enabled(setup, s, step)
    ensures Independent(setup, Next(setup, s, step))
  {
    var s' := Next(setup, s, step);
    if step.Evict? {
      RequestKeepsIndependence(setup, s, step.i);
    } else {
      if step.Return? {
        var slot := s.slots[step.i];
        assert OnItsOwn(setup, s, step.i);
        if slot.call.failed {
          var pods := setup.jobs[step.i].pods.evictable;
          FailureEndsTheCall(setup, pods, slot.next, |pods|, setup.budgets);
        }
      }
      forall j | 0 <= j < |s.slots| ensures OnItsOwn(setup, s', j) {
        assert OnItsOwn(setup, s, j);
      }
    }
  }

  lemma {:induction false} AlwaysIndependent(setup: Setup, steps: seq<Step>)
    requires NoSharedBudget(setup) && Run(setup, steps).Some?
    ensures Independent(setup, Run(setup, steps).value)
  {
    if steps != [] {
      var before := steps[..|steps| - 1];
      AlwaysIndependent(setup, before);
      AlwaysCounted(setup, before);
      StepKeepsIndependence(setup, Run(setup, before).value, steps[|steps| - 1]);
    }
  }

  /** The budgets as node i should see them when the first k nodes have been drained. */
  ghost function Expected(setup: Setup, i: nat, k: nat): map<int, nat>
    requires i < |setup.jobs|
  {
    if i < k then Alone(setup, i, setup.budgets).1 else setup.budgets
  }

  /** In order, too, each node is drained as if it were alone. */
  lemma {:induction false} InOrderIsIndependent(setup: Setup, k: nat)
    requires NoSharedBudget(setup) && k <= |setup.jobs|
    ensures forall i :: 0 <= i < k ==> InOrder(setup, k).0[i] == Result(setup.jobs[i], Alone(setup, i, setup.budgets).0)
    ensures forall i :: 0 <= i < |setup.jobs| ==> SameFor(setup, i, InOrder(setup, k).1, Expected(setup, i, k))
    ensures forall b :: Unused(setup, b) ==> SameAt(InOrder(setup, k).1, setup.budgets, b)
  {
    if k > 0 {
      var i := k - 1;
      InOrderIsIndependent(setup, i);
      var left := InOrder(setup, i).1;
      var after := InOrder(setup, k).1;
      assert SameFor(setup, i, left, Expected(setup, i, i));
      CallIsLocal(setup, i, |setup.jobs[i].pods.evictable|, left, setup.budgets);
      assert after == Alone(setup, i, left).1;
      UnusedKept(setup, i, left, after);
      hide Uses, Unused, NoSharedBudget, SameFor, OthersKept, AfterRequests;
      forall j | 0 <= j < |setup.jobs|
        ensures SameFor(setup, j, after, Expected(setup, j, k))
      {
        if j != i {
          assert SameFor(setup, j, left, Expected(setup, j, i));
          UsersDiffer(setup, i, j, left, after, Expected(setup, j, k));
        }
      }
    }
  }

  /** When the wait returns, every slot holds what draining the nodes one after the other
      would have returned, and the budgets are spent alike. */
  lemma PoolIsSequential(setup: Setup, steps: seq<Step>)
    requires NoSharedBudget(setup) && Run(setup, steps).Some? && Run(setup, steps).value.joined
    ensures var s := Run(setup, steps).value;
            && |s.results| == |setup.jobs|
            && (forall i :: 0 <= i < |s.results| ==> s.results[i] == Some(InOrder(setup, |setup.jobs|).0[i]))
            && s.budgets == InOrder(setup, |setup.jobs|).1
  {
    var s := Run(setup, steps).value;
    AlwaysIndependent(setup, steps);
    AlwaysCounted(setup, steps);
    AlwaysSlotted(setup, steps);
    InOrderIsIndependent(setup, |setup.jobs|);
    var left := InOrder(setup, |setup.jobs|).1;
    assert Started(s.slots) == {};
    forall i | 0 <= i < |s.slots|
      ensures s.results[i] == Some(InOrder(setup, |setup.jobs|).0[i])
      ensures SameFor(setup, i, s.budgets, Alone(setup, i, setup.budgets).1)
    {
      assert i !in Started(s.slots) && s.slots[i].Done?;
      assert OnItsOwn(setup, s, i);
    }
    assert forall i | 0 <= i < |s.slots| :: SameFor(setup, i, left, Expected(setup, i, |setup.jobs|));
    SameEverywhere(setup, s.budgets, left);
  }

  lemma SameEverywhere(setup: Setup, a: map<int, nat>, b: map<int, nat>)
    requires forall i :: 0 <= i < |setup.jobs| ==> SameFor(setup, i, a, Alone(setup, i, setup.budgets).1)
    requires forall i :: 0 <= i < |setup.jobs| ==> SameFor(setup, i, b, Expected(setup, i, |setup.jobs|))
    requires forall k :: Unused(setup, k) ==> SameAt(a, setup.budgets, k) && SameAt(b, setup.budgets, k)
    ensures a == b
  {
    forall k ensures k in a <==> k in b
             ensures k in a ==> a[k] == b[k]
    {
      if i :| 0 <= i < |setup.jobs| && Uses(setup, i, k) {
        assert SameFor(setup, i, b, Expected(setup, i, |setup.jobs|));
      } else {
        assert Unused(setup, k);
      }
      assert SameAt(a, b, k);
    }
  }

  /* ----- Schedules, step by step ----- */

  lemma OneStep(setup: Setup, steps: seq<Step>, step: Step)
    requires Run(setup, steps).Some? && Enabled(setup, Run(setup, steps).value, step)
    ensures Run(setup, steps + [step]) == Some(Next(setup, Run(setup, steps).value, step))
  {
    assert (steps + [step])[..|steps|] == steps;
  }
}
