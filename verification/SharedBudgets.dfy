/**
 Nodes that share a disruption budget: when the schedule of the pool shows in its results.

 Budgets are respected here and no call fails for another reason; then every request takes
 one disruption of the pod's budget as long as there is one.
 */
module SharedBudgets {
  import opened Api
  import opened DrainFilters
  import opened WorkerPool

  ghost predicate Plain(setup: Setup) {
    && setup.respectBudgets
    && forall i, k :: 0 <= i < |setup.jobs| && 0 <= k < |setup.jobs[i].pods.evictable|
         ==> !FateOf(setup, setup.jobs[i].pods.evictable[k].id).Broken?
  }

  /** Evicting this pod takes a disruption of budget b. */
  predicate Asks(setup: Setup, id: PodId, b: int) {
    !FateOf(setup, id).Vanished? && id in setup.covers && setup.covers[id] == b && b in setup.budgets
  }

  /** How often the first k requests of node i ask budget b. */
  function Asked(setup: Setup, i: nat, k: nat, b: int): nat
    requires i < |setup.jobs| && k <= |setup.jobs[i].pods.evictable|
  {
    if k == 0 then 0
    else Asked(setup, i, k - 1, b) + if Asks(setup, setup.jobs[i].pods.evictable[k - 1].id, b) then 1 else 0
  }

  function Demand(setup: Setup, i: nat, b: int): nat
    requires i < |setup.jobs|
  {
    Asked(setup, i, |setup.jobs[i].pods.evictable|, b)
  }

  /** What the first n nodes ask of budget b together. */
  function Total(setup: Setup, n: nat, b: int): nat
    requires n <= |setup.jobs|
  {
    if n == 0 then 0 else Total(setup, n - 1, b) + Demand(setup, n - 1, b)
  }

  ghost predicate Unshared(setup: Setup, b: int) {
    forall i, j :: 0 <= i < j < |setup.jobs| ==> Demand(setup, i, b) == 0 || Demand(setup, j, b) == 0
  }

  /** Every budget is used up, or large enough for all, or asked by one node at most. */
  ghost predicate NoContention(setup: Setup) {
    forall b :: b in setup.budgets ==>
      setup.budgets[b] == 0 || Total(setup, |setup.jobs|, b) <= setup.budgets[b] || Unshared(setup, b)
  }

  function Left(budget: nat, taken: nat): nat {
    if taken <= budget then budget - taken else 0
  }

  lemma {:induction false} AskedGrows(setup: Setup, i: nat, k: nat, n: nat, b: int)
    requires i < |setup.jobs| && k <= n <= |setup.jobs[i].pods.evictable|
    ensures Asked(setup, i, k, b) <= Asked(setup, i, n, b)
  {
    if k < n {
      AskedGrows(setup, i, k, n - 1, b);
    }
  }

  lemma {:induction false} TotalGrows(setup: Setup, k: nat, n: nat, b: int)
    requires k <= n <= |setup.jobs|
    ensures Total(setup, k, b) <= Total(setup, n, b)
  {
    if k < n {
      TotalGrows(setup, k, n - 1, b);
    }
  }

  lemma {:induction false} TotalOfNone(setup: Setup, n: nat, b: int)
    requires n <= |setup.jobs| && forall j :: 0 <= j < n ==> Demand(setup, j, b) == 0
    ensures Total(setup, n, b) == 0
  {
    if n > 0 {
      TotalOfNone(setup, n - 1, b);
    }
  }

  /** A call spends each budget by what it asks, as far as that lasts. */
  lemma {:induction false} CallSpends(setup: Setup, i: nat, k: nat, budgets: map<int, nat>)
    requires Plain(setup) && i < |setup.jobs| && k <= |setup.jobs[i].pods.evictable| && budgets.Keys == setup.budgets.Keys
    ensures var (call, left) := AfterRequests(setup, setup.jobs[i].pods.evictable, k, budgets);
            && !call.failed && left.Keys == budgets.Keys
            && forall b :: b in left ==> left[b] == Left(budgets[b], Asked(setup, i, k, b))
  {
    if k > 0 {
      CallSpends(setup, i, k - 1, budgets);
    }
  }

  /* ----- Without contention every request is answered as if its node were alone ----- */

  /** With this many disruptions taken, as many of them by node i as its first k requests ask. */
  lemma SameAnswer(setup: Setup, i: nat, k: nat, taken: nat, call: Call, budgets: map<int, nat>, alone: map<int, nat>)
    requires Plain(setup) && NoContention(setup) && i < |setup.jobs| && k < |setup.jobs[i].pods.evictable|
    requires budgets.Keys == alone.Keys == setup.budgets.Keys
    requires forall b :: Asks(setup, setup.jobs[i].pods.evictable[k].id, b) ==>
      && budgets[b] == Left(setup.budgets[b], taken) && alone[b] == Left(setup.budgets[b], Asked(setup, i, k, b))
      && Asked(setup, i, k, b) <= taken < Total(setup, |setup.jobs|, b)
      && ((forall j :: 0 <= j < |setup.jobs| && j != i ==> Demand(setup, j, b) == 0) ==> taken == Asked(setup, i, k, b))
    ensures var id := setup.jobs[i].pods.evictable[k].id;
            Request(setup, id, call, budgets).0 == Request(setup, id, call, alone).0
  {
    var id := setup.jobs[i].pods.evictable[k].id;
    if id in setup.covers && Asks(setup, id, setup.covers[id]) {
      var b := setup.covers[id];
      AskedGrows(setup, i, k + 1, |setup.jobs[i].pods.evictable|, b);
      assert Demand(setup, i, b) > 0;
      assert budgets[b] == 0 <==> alone[b] == 0;
    }
  }

  lemma {:induction false} CallAgrees(setup: Setup, i: nat, k: nat, budgets: map<int, nat>)
    requires Plain(setup) && NoContention(setup) && i < |setup.jobs| && k <= |setup.jobs[i].pods.evictable|
    requires budgets.Keys == setup.budgets.Keys
    requires forall b :: b in budgets ==> budgets[b] == Left(setup.budgets[b], Total(setup, i, b))
    ensures var pods := setup.jobs[i].pods.evictable;
            AfterRequests(setup, pods, k, budgets).0 == AfterRequests(setup, pods, k, setup.budgets).0
  {
    if k > 0 {
      CallAgrees(setup, i, k - 1, budgets);
      CallSpends(setup, i, k - 1, budgets);
      CallSpends(setup, i, k - 1, setup.budgets);
      var pods := setup.jobs[i].pods.evictable;
      var id := pods[k - 1].id;
      var b := if id in setup.covers then setup.covers[id] else 0;
      if Asks(setup, id, b) {
        AskedGrows(setup, i, k, |pods|, b);
        TotalGrows(setup, i + 1, |setup.jobs|, b);
        if forall j :: 0 <= j < |setup.jobs| && j != i ==> Demand(setup, j, b) == 0 {
          TotalOfNone(setup, i, b);
        }
      }
      var (call, left) := AfterRequests(setup, pods, k - 1, budgets);
      SameAnswer(setup, i, k - 1, Total(setup, i, b) + Asked(setup, i, k - 1, b), call, left,
                 AfterRequests(setup, pods, k - 1, setup.budgets).1);
    }
  }

  lemma {:induction false} InOrderSpends(setup: Setup, k: nat)
    requires Plain(setup) && k <= |setup.jobs|
    ensures InOrder(setup, k).1.Keys == setup.budgets.Keys
    ensures forall b :: b in setup.budgets ==> InOrder(setup, k).1[b] == Left(setup.budgets[b], Total(setup, k, b))
  {
    if k > 0 {
      InOrderSpends(setup, k - 1);
      CallSpends(setup, k - 1, |setup.jobs[k - 1].pods.evictable|, InOrder(setup, k - 1).1);
    }
  }

  lemma {:induction false} InOrderAt(setup: Setup, k: nat, i: nat)
    requires i < k <= |setup.jobs|
    ensures InOrder(setup, k).0[i] == Result(setup.jobs[i], Alone(setup, i, InOrder(setup, i).1).0)
  {
    if i < k - 1 {
      InOrderAt(setup, k - 1, i);
    }
  }

  /* ----- The pool without contention ----- */

  /** How many requests slot i has made. */
  function Position(setup: Setup, i: nat, slot: Slot): (k: nat)
    requires i < |setup.jobs|
    ensures k <= |setup.jobs[i].pods.evictable|
  {
    var n := |setup.jobs[i].pods.evictable|;
    match slot
    case Unspawned => 0
    case Waiting => 0
    case Draining(next, _) => if next <= n then next else n
    case _ => n
  }

  function Taken(setup: Setup, slots: seq<Slot>, n: nat, b: int): nat
    requires n <= |slots| == |setup.jobs|
  {
    if n == 0 then 0
    else Taken(setup, slots, n - 1, b) + Asked(setup, n - 1, Position(setup, n - 1, slots[n - 1]), b)
  }

  lemma {:induction false} TakenMoves(setup: Setup, slots: seq<Slot>, i: nat, slot: Slot, n: nat, b: int)
    requires i < |slots| == |setup.jobs| && n <= |slots|
    ensures Taken(setup, slots[i := slot], n, b)
            == Taken(setup, slots, n, b)
               + if i < n then Asked(setup, i, Position(setup, i, slot), b) - Asked(setup, i, Position(setup, i, slots[i]), b)
                 else 0
  {
    if n > 0 {
      TakenMoves(setup, slots, i, slot, n - 1, b);
    }
  }

  lemma {:induction false} TakenBounds(setup: Setup, slots: seq<Slot>, i: nat, n: nat, b: int)
    requires i < |slots| == |setup.jobs| && n <= |slots|
    ensures var own := Asked(setup, i, Position(setup, i, slots[i]), b);
            if i < n then
              && own <= Taken(setup, slots, n, b)
              && Taken(setup, slots, n, b) - own + Demand(setup, i, b) <= Total(setup, n, b)
              && ((forall j :: 0 <= j < |setup.jobs| && j != i ==> Demand(setup, j, b) == 0) ==> Taken(setup, slots, n, b) == own)
            else
              && Taken(setup, slots, n, b) <= Total(setup, n, b)
              && ((forall j :: 0 <= j < |setup.jobs| && j != i ==> Demand(setup, j, b) == 0) ==> Taken(setup, slots, n, b) == 0)
  {
    if n > 0 {
      TakenBounds(setup, slots, i, n - 1, b);
      AskedGrows(setup, n - 1, Position(setup, n - 1, slots[n - 1]), |setup.jobs[n - 1].pods.evictable|, b);
    }
  }

  /** Slot i is where it would be on its own. */
  ghost predicate AsIfAlone(setup: Setup, s: Pool, i: nat)
    requires i < |s.slots| == |setup.jobs| == |s.results|
  {
    var slot := s.slots[i];
    var pods := setup.jobs[i].pods.evictable;
    && (slot.Draining? ==> slot.next <= |pods| && slot.call == AfterRequests(setup, pods, slot.next, setup.budgets).0)
    && (slot.Returned? ==> slot.result == Result(setup.jobs[i], Alone(setup, i, setup.budgets).0))
    && (s.results[i].Some? ==> s.results[i].value == Result(setup.jobs[i], Alone(setup, i, setup.budgets).0))
  }

  ghost predicate Spending(setup: Setup, s: Pool)
    requires |s.slots| == |setup.jobs|
  {
    && s.budgets.Keys == setup.budgets.Keys
    && forall b :: b in s.budgets ==> s.budgets[b] == Left(setup.budgets[b], Taken(setup, s.slots, |s.slots|, b))
  }

  ghost predicate Undisturbed(setup: Setup, s: Pool) {
    && |s.slots| == |setup.jobs| == |s.results|
    && Spending(setup, s)
    && (forall i :: 0 <= i < |s.slots| ==> AsIfAlone(setup, s, i))
  }

  lemma RequestSpends(setup: Setup, s: Pool, i: nat)
    requires Plain(setup) && Counted(setup, s) && Enabled(setup, s, Evict(i)) && Spending(setup, s)
    ensures Spending(setup, Next(setup, s, Evict(i)))
  {
    var s' := Next(setup, s, Evict(i));
    var slot, pods := s.slots[i], setup.jobs[i].pods.evictable;
    var id := pods[slot.next].id;
    assert !FateOf(setup, id).Broken?;
    assert Position(setup, i, s'.slots[i]) == slot.next + 1;
    forall b | b in s'.budgets
      ensures b in s.budgets && s'.budgets[b] == Left(setup.budgets[b], Taken(setup, s'.slots, |s'.slots|, b))
    {
      TakenMoves(setup, s.slots, i, s'.slots[i], |s.slots|, b);
    }
  }

  lemma RequestAnswered(setup: Setup, s: Pool, i: nat)
    requires Plain(setup) && NoContention(setup) && Counted(setup, s) && Enabled(setup, s, Evict(i))
    requires Spending(setup, s) && |s.results| == |s.slots| && AsIfAlone(setup, s, i)
    ensures AsIfAlone(setup, Next(setup, s, Evict(i)), i)
  {
    var slot, pods := s.slots[i], setup.jobs[i].pods.evictable;
    var id := pods[slot.next].id;
    var b := if id in setup.covers then setup.covers[id] else 0;
    CallSpends(setup, i, slot.next, setup.budgets);
    if Asks(setup, id, b) {
      TakenBounds(setup, s.slots, i, |s.slots|, b);
      AskedGrows(setup, i, slot.next + 1, |pods|, b);
    }
    SameAnswer(setup, i, slot.next, Taken(setup, s.slots, |s.slots|, b), slot.call, s.budgets,
               AfterRequests(setup, pods, slot.next, setup.budgets).1);
  }

  lemma OtherStepsSpend(setup: Setup, s: Pool, step: Step)
    requires Plain(setup) && Counted(setup, s) && Enabled(setup, s, step) && !step.Evict? && Undisturbed(setup, s)
    ensures Spending(setup, Next(setup, s, step))
  {
    var s' := Next(setup, s, step);
    if !step.Join? {
      var i := Moved(s, step);
      assert s'.slots == s.slots[i := s'.slots[i]];
      if step.Return? {
        assert AsIfAlone(setup, s, i);
        CallSpends(setup, i, s.slots[i].next, setup.budgets);
      }
      assert Position(setup, i, s'.slots[i]) == Position(setup, i, s.slots[i]);
      forall b ensures Taken(setup, s'.slots, |s'.slots|, b) == Taken(setup, s.slots, |s.slots|, b) {
        TakenMoves(setup, s.slots, i, s'.slots[i], |s.slots|, b);
      }
    }
  }

  lemma OtherStepsAlone(setup: Setup, s: Pool, step: Step)
    requires Plain(setup) && Counted(setup, s) && Enabled(setup, s, step) && !step.Evict? && Undisturbed(setup, s)
    ensures var s' := Next(setup, s, step);
            |s'.slots| == |s'.results| == |s.slots| && forall i :: 0 <= i < |s'.slots| ==> AsIfAlone(setup, s', i)
  {
    var s' := Next(setup, s, step);
    if step.Return? {
      assert AsIfAlone(setup, s, step.i);
      CallSpends(setup, step.i, s.slots[step.i].next, setup.budgets);
    }
    forall i | 0 <= i < |s'.slots| ensures AsIfAlone(setup, s', i) {
      assert AsIfAlone(setup, s, i);
    }
  }

  lemma {:induction false} AlwaysUndisturbed(setup: Setup, steps: seq<Step>)
    requires Plain(setup) && NoContention(setup) && Run(setup, steps).Some?
    ensures Undisturbed(setup, Run(setup, steps).value)
  {
    if steps == [] {
      forall b ensures Taken(setup, Start(setup).slots, |setup.jobs|, b) == 0 {
        NothingTaken(setup, |setup.jobs|, b);
      }
    } else {
      var before, step := steps[..|steps| - 1], steps[|steps| - 1];
      AlwaysUndisturbed(setup, before);
      AlwaysCounted(setup, before);
      UndisturbedStep(setup, Run(setup, before).value, step);
    }
  }

  lemma UndisturbedStep(setup: Setup, s: Pool, step: Step)
    requires Plain(setup) && NoContention(setup) && Counted(setup, s) && Enabled(setup, s, step) && Undisturbed(setup, s)
    ensures Undisturbed(setup, Next(setup, s, step))
  {
    hide NoContention, Plain, Counted, Request;
    if step.Evict? {
      RequestSpends(setup, s, step.i);
      RequestAnswered(setup, s, step.i);
      var s' := Next(setup, s, step);
      forall i | 0 <= i < |s'.slots| ensures AsIfAlone(setup, s', i) {
        assert AsIfAlone(setup, s, i);
      }
    } else {
      OtherStepsSpend(setup, s, step);
      OtherStepsAlone(setup, s, step);
    }
  }

  lemma {:induction false} NothingTaken(setup: Setup, n: nat, b: int)
    requires n <= |setup.jobs|
    ensures Taken(setup, Start(setup).slots, n, b) == 0
  {
    if n > 0 {
      NothingTaken(setup, n - 1, b);
    }
  }

  /** The wait has returned. */
  ghost predicate Joins(setup: Setup, steps: seq<Step>) {
    Run(setup, steps).Some? && Run(setup, steps).value.joined
  }

  /** The results are those of draining one node after the other. */
  ghost predicate InOrderResults(setup: Setup, steps: seq<Step>)
    requires Run(setup, steps).Some?
  {
    var results := Run(setup, steps).value.results;
    |results| == |setup.jobs| && forall i :: 0 <= i < |results| ==> results[i] == Some(InOrder(setup, |setup.jobs|).0[i])
  }

  lemma AgreesIf(setup: Setup, steps: seq<Step>)
    requires Plain(setup) && NoContention(setup) && Joins(setup, steps)
    ensures InOrderResults(setup, steps)
  {
    var s, n := Run(setup, steps).value, |setup.jobs|;
    AlwaysUndisturbed(setup, steps);
    AlwaysCounted(setup, steps);
    AlwaysSlotted(setup, steps);
    assert Started(s.slots) == {};
    forall i | 0 <= i < n ensures s.results[i] == Some(InOrder(setup, n).0[i]) {
      assert i !in Started(s.slots) && s.slots[i].Done? && AsIfAlone(setup, s, i);
      InOrderAt(setup, n, i);
      InOrderSpends(setup, i);
      CallAgrees(setup, i, |setup.jobs[i].pods.evictable|, InOrder(setup, i).1);
    }
  }

  /* ----- With contention the node that goes first shows ----- */

  /** Larger budgets grant at least as much, and as much more of one budget as was spent of it. */
  lemma {:induction false} LargerBudgets(setup: Setup, i: nat, k: nat, a: map<int, nat>, low: map<int, nat>, b: int)
    requires Plain(setup) && i < |setup.jobs| && k <= |setup.jobs[i].pods.evictable| && b in setup.budgets
    requires a.Keys == low.Keys == setup.budgets.Keys && forall c :: c in a ==> low[c] <= a[c]
    ensures var pods := setup.jobs[i].pods.evictable;
            var (more, rich) := AfterRequests(setup, pods, k, a);
            var (less, poor) := AfterRequests(setup, pods, k, low);
            && b in rich && b in poor
            && more.evicted + rich[b] + low[b] >= less.evicted + a[b] + poor[b]
  {
    CallSpends(setup, i, k, a);
    CallSpends(setup, i, k, low);
    if k > 0 {
      LargerBudgets(setup, i, k - 1, a, low, b);
      CallSpends(setup, i, k - 1, a);
      CallSpends(setup, i, k - 1, low);
      OneRequest(setup, i, k, a, b);
      OneRequest(setup, i, k, low, b);
    }
  }

  /** One request evicts its pod unless the budget is used up or the pod is gone. */
  lemma OneRequest(setup: Setup, i: nat, k: nat, budgets: map<int, nat>, b: int)
    requires Plain(setup) && i < |setup.jobs| && 0 < k <= |setup.jobs[i].pods.evictable| && b in setup.budgets
    requires budgets.Keys == setup.budgets.Keys
    requires !AfterRequests(setup, setup.jobs[i].pods.evictable, k - 1, budgets).0.failed
    requires AfterRequests(setup, setup.jobs[i].pods.evictable, k - 1, budgets).1.Keys == budgets.Keys
    ensures var pods := setup.jobs[i].pods.evictable;
            var id := pods[k - 1].id;
            var (call, left) := AfterRequests(setup, pods, k - 1, budgets);
            var (call', left') := AfterRequests(setup, pods, k, budgets);
            && call'.evicted == call.evicted + (if FateOf(setup, id).Vanished? || Exhausted(setup, id, left) then 0 else 1)
            && b in left'
            && left'[b] == left[b] - (if Asks(setup, id, b) && left[b] > 0 then 1 else 0)
  {
    assert !FateOf(setup, setup.jobs[i].pods.evictable[k - 1].id).Broken?;
  }

  lemma {:induction false} LastAsker(setup: Setup, n: nat, b: int) returns (i: nat)
    requires n <= |setup.jobs| && Total(setup, n, b) > 0
    ensures i < n && Demand(setup, i, b) > 0 && Total(setup, n, b) == Total(setup, i, b) + Demand(setup, i, b)
    ensures forall j :: i < j < n ==> Demand(setup, j, b) == 0
  {
    if Demand(setup, n - 1, b) > 0 {
      i := n - 1;
    } else {
      i := LastAsker(setup, n - 1, b);
    }
  }

  /** The last node to ask a contended budget evicts fewer pods in its turn than it would as the first. */
  lemma LastGetsLess(setup: Setup, i: nat, b: int)
    requires Plain(setup) && i < |setup.jobs| && b in setup.budgets
    requires 0 < setup.budgets[b] < Total(setup, i, b) + Demand(setup, i, b) && Total(setup, i, b) > 0 && Demand(setup, i, b) > 0
    ensures Alone(setup, i, setup.budgets).0.evicted > Alone(setup, i, InOrder(setup, i).1).0.evicted
  {
    var n, low := |setup.jobs[i].pods.evictable|, InOrder(setup, i).1;
    InOrderSpends(setup, i);
    LargerBudgets(setup, i, n, setup.budgets, low, b);
    CallSpends(setup, i, n, setup.budgets);
    CallSpends(setup, i, n, low);
  }

  function Spawned(setup: Setup, k: nat): Pool
    requires k <= |setup.jobs|
  {
    Start(setup).(slots := seq(|setup.jobs|, i => if i < k then Waiting else Unspawned), pending := k, spawned := k)
  }

  lemma {:induction false} Spawns(setup: Setup, k: nat) returns (steps: seq<Step>)
    requires k <= |setup.jobs|
    ensures Run(setup, steps) == Some(Spawned(setup, k))
  {
    if k == 0 {
      steps := [];
      assert Spawned(setup, 0).slots == Start(setup).slots;
    } else {
      steps := Spawns(setup, k - 1);
      OneStep(setup, steps, Spawn);
      steps := steps + [Spawn];
      assert Spawned(setup, k).slots == Spawned(setup, k - 1).slots[k - 1 := Waiting];
    }
  }

  /** Node i after k requests, with nobody else under way. */
  function Ahead(setup: Setup, i: nat, k: nat): Pool
    requires i < |setup.jobs| && k <= |setup.jobs[i].pods.evictable|
  {
    var s := Spawned(setup, i + 1);
    var (call, left) := AfterRequests(setup, setup.jobs[i].pods.evictable, k, setup.budgets);
    s.(slots := s.slots[i := Slot.Draining(k, call)], budgets := left, held := 1)
  }

  lemma {:induction false} RunsAhead(setup: Setup, i: nat, k: nat) returns (steps: seq<Step>)
    requires Plain(setup) && setup.permits >= 1 && i < |setup.jobs| && k <= |setup.jobs[i].pods.evictable|
    ensures Run(setup, steps) == Some(Ahead(setup, i, k))
  {
    if k == 0 {
      steps := Spawns(setup, i + 1);
      OneStep(setup, steps, Acquire(i));
      steps := steps + [Acquire(i)];
    } else {
      steps := RunsAhead(setup, i, k - 1);
      CallSpends(setup, i, k - 1, setup.budgets);
      OneStep(setup, steps, Evict(i));
      steps := steps + [Evict(i)];
      assert Ahead(setup, i, k).slots == Next(setup, Ahead(setup, i, k - 1), Evict(i)).slots;
    }
  }

  lemma GoesFirst(setup: Setup, i: nat) returns (steps: seq<Step>)
    requires Plain(setup) && setup.permits >= 1 && i < |setup.jobs|
    ensures Run(setup, steps).Some? && |Run(setup, steps).value.results| == |setup.jobs|
    ensures Run(setup, steps).value.results[i] == Some(Result(setup.jobs[i], Alone(setup, i, setup.budgets).0))
  {
    steps := RunsAhead(setup, i, |setup.jobs[i].pods.evictable|);
    hide AfterRequests;
    OneStep(setup, steps, Return(i));
    steps := steps + [Return(i)];
    OneStep(setup, steps, Store(i));
    steps := steps + [Store(i)];
  }

  /** Every schedule can be completed, and what it has written stays. */
  lemma {:induction false} Finishes(setup: Setup, steps: seq<Step>, i: nat) returns (all: seq<Step>)
    requires setup.permits >= 1 && Run(setup, steps).Some? && i < |setup.jobs|
    requires |Run(setup, steps).value.results| == |setup.jobs| && Run(setup, steps).value.results[i].Some?
    ensures Joins(setup, all) && |Run(setup, all).value.results| == |setup.jobs|
    ensures Run(setup, all).value.results[i] == Run(setup, steps).value.results[i]
    decreases Measure(setup, Start(setup)) - |steps|
  {
    WaitReturns(setup, steps);
    var s := Run(setup, steps).value;
    if s.joined {
      all := steps;
    } else {
      var step :| Enabled(setup, s, step);
      WrittenOnce(setup, steps, step, i);
      OneStep(setup, steps, step);
      WaitReturns(setup, steps + [step]);
      all := Finishes(setup, steps + [step], i);
    }
  }

  /** With contention some schedule gives another result than draining in order. */
  lemma ContentionShows(setup: Setup) returns (steps: seq<Step>)
    requires Plain(setup) && setup.permits >= 1 && !NoContention(setup)
    ensures Joins(setup, steps) && !InOrderResults(setup, steps)
  {
    var n := |setup.jobs|;
    var b :| b in setup.budgets && 0 < setup.budgets[b] < Total(setup, n, b) && !Unshared(setup, b);
    var i := LastAsker(setup, n, b);
    var j, k :| 0 <= j < k < n && Demand(setup, j, b) > 0 && Demand(setup, k, b) > 0;
    TotalGrows(setup, j + 1, i, b);
    LastGetsLess(setup, i, b);
    InOrderAt(setup, n, i);
    steps := GoesFirst(setup, i);
    steps := Finishes(setup, steps, i);
  }

  /** Budgets respected and no call broken: the pool returns what draining one node after the
      other returns, however it is scheduled, exactly when every budget is used up already, or
      lasts for all pods that ask it, or is asked by one node at most. */
  lemma SchedulesAgreeIff(setup: Setup)
    requires Plain(setup) && setup.permits >= 1
    ensures (forall steps :: Joins(setup, steps) ==> InOrderResults(setup, steps)) <==> NoContention(setup)
  {
    if NoContention(setup) {
      forall steps | Joins(setup, steps) ensures InOrderResults(setup, steps) {
        AgreesIf(setup, steps);
      }
    } else {
      var steps := ContentionShows(setup);
    }
  }

  /** Two nodes with one pod each, and one disruption left between them. */
  function Race(a: Pod, b: Pod): Setup {
    Setup([Job("a", FilterResult([a], [], [], [], [])), Job("b", FilterResult([b], [], [], [], []))],
          1, true, map[], map[a.id := 0, b.id := 0], map[0 := 1])
  }

  lemma SharedBudgetShows(a: Pod, b: Pod) returns (steps: seq<Step>)
    requires a.id != b.id
    ensures Joins(Race(a, b), steps) && !InOrderResults(Race(a, b), steps)
  {
    var setup := Race(a, b);
    assert Asks(setup, setup.jobs[0].pods.evictable[0].id, 0) && Asks(setup, setup.jobs[1].pods.evictable[0].id, 0);
    assert Asked(setup, 0, 0, 0) == 0 && Asked(setup, 1, 0, 0) == 0;
    assert Demand(setup, 0, 0) == 1 && Demand(setup, 1, 0) == 1;
    assert Total(setup, 1, 0) == 1 && Total(setup, 2, 0) == 2;
    assert !NoContention(setup);
    steps := ContentionShows(setup);
  }
}
