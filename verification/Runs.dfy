/**
 Continuing a run by one step, for results that show what can happen.
 */
module Runs {
  import opened Api
  import opened DrainFilters
  import opened StatusUpdate
  import opened NodeWrites
  import opened Protocol
  import opened Safety

  /** Node n as the server has it now: owned by p, cordoned, Ready. */
  ghost predicate Drainable(r: Run, p: string, n: string) {
    && Active(r.world, p) && !TimedOut(r.world.plans[p])
    && n in r.world.nodes && r.world.nodes[n].unschedulable && IsNodeReady(r.world.nodes[n]) && Owner(r.world.nodes[n]) == p
  }

  /** Users change node n but for the operator's marks, and the spec of plan p, and time passes. */
  lemma Happens(r: Run, n: string, node: Node, p: string, spec: Spec, now: Time) returns (r': Run)
    requires Reachable(r) && n in r.world.nodes && p in r.world.plans && r.world.now <= now
    requires node.name == n && SameMarks(r.world.nodes[n], node)
    ensures Reachable(r') && r'.Then? && r'.before == r && r'.step == Environment
    ensures r'.world == r.world.(nodes := r.world.nodes[n := node],
                                 plans := r.world.plans[p := r.world.plans[p].(spec := spec)], now := now)
  {
    hide Does;
    var w := r.world;
    var w' := w.(nodes := w.nodes[n := node], plans := w.plans[p := w.plans[p].(spec := spec)], now := now);
    AlwaysInv(r);
    ChangesDisturb(w, n, node, p, spec, now);
    r' := Then(r, Environment, w');
    EnvironmentIsAStep(r, w');
  }

  lemma EnvironmentIsAStep(r: Run, w': World)
    requires Disturbs(r.world, w')
    ensures Does(r, Environment, w')
  {
    hide Disturbs;
  }

  lemma ChangesDisturb(w: World, n: string, node: Node, p: string, spec: Spec, now: Time)
    requires Inv(w) && n in w.nodes && p in w.plans && w.now <= now
    requires node.name == n && SameMarks(w.nodes[n], node)
    ensures Disturbs(w, w.(nodes := w.nodes[n := node], plans := w.plans[p := w.plans[p].(spec := spec)], now := now))
  {
    assert forall m | m in w.nodes :: NodeInv(w, m);
    assert forall q | q in w.plans :: PlanInv(w, q);
    assert w.usedIds + w.pods.Keys == w.usedIds;
  }

  /** A patch of the node that a copy shows, computed with the plan's stored spec. */
  lemma Writes(r: Run, p: string, why: Write, seen: Node, put: Node) returns (r': Run)
    requires Reachable(r) && Active(r.world, p) && seen.name in r.world.nodes && Copied(r, seen)
    requires Allowed(r, r.world.plans[p], why, seen, put)
    ensures Reachable(r') && r' == Then(r, PatchNode(p, r.world.plans[p].spec, why, seen, put), Patched(r.world, seen, put))
  {
    hide Copied, Allowed;
    assert Seen(r.world, p, r.world.plans[p].spec) == r.world.plans[p];
    r' := Then(r, PatchNode(p, r.world.plans[p].spec, why, seen, put), Patched(r.world, seen, put));
  }

  /** What a status update of plan p leaves that resolves node n alone, as the server has it. */
  ghost predicate Updated(r: Run, r': Run, p: string, n: string) {
    && r'.Then? && r'.before == r && n in r.world.nodes && p in r.world.plans && p in r'.world.plans
    && r'.step.PublishStatus? && r'.step.plan == p && r'.step.all == [r.world.nodes[n]]
    && r'.world == r.world.(plans := r.world.plans[p := r'.world.plans[p]])
    && r'.step.spec == r.world.plans[p].spec
    && r'.world.plans[p] == r.world.plans[p].(status := r'.world.plans[p].status)
    && r'.world.plans[p].status == UpdatedStatus(r.world.plans[p], r'.step.all, 0, r'.step.snapshot, r.world.now)
    && r'.world.plans[p].status.drainStartedAt == r.world.plans[p].status.drainStartedAt
    && (TimedOut(r'.world.plans[p]) <==> TimedOut(r.world.plans[p]))
  }

  lemma Update(r: Run, p: string, n: string) returns (r': Run)
    requires Reachable(r) && Active(r.world, p) && n in r.world.nodes && InSnapshot(r.world.plans[p], n)
    ensures Reachable(r') && Updated(r, r', p, n)
    ensures Resolved(r', p, n) && InHand(r', p, r.world.nodes[n]) && Covered(r', p, r.world.nodes[n])
    ensures LastEviction(r', p).None? && forall m :: Unfolded(r', p, m) == 0
  {
    hide Does, UpdatedStatus;
    AlwaysInv(r);
    assert NodeInv(r.world, n);
    var copy, plan := r.world.nodes[n], r.world.plans[p];
    var snapshot := if plan.spec.selector.Some? && !plan.status.snapshotTaken then Some([n]) else None;
    var status := UpdatedStatus(plan, [copy], 0, snapshot, r.world.now);
    r' := Then(r, PublishStatus(p, plan.spec, [copy], 0, snapshot, r.world.now), WithStatus(r.world, p, status));
    UpdateIsAStep(r, p, copy, snapshot);
    assert [copy][0].name == n;
    UpdateKeepsClock(plan, [copy], snapshot, r.world.now);
  }

  lemma UpdateIsAStep(r: Run, p: string, copy: Node, snapshot: Option<seq<string>>)
    requires Active(r.world, p) && Copied(r, copy) && InSnapshot(r.world.plans[p], copy.name)
    requires var plan := r.world.plans[p];
             snapshot == if plan.spec.selector.Some? && !plan.status.snapshotTaken then Some([copy.name]) else None
    ensures var plan := r.world.plans[p];
            Does(r, PublishStatus(p, plan.spec, [copy], 0, snapshot, r.world.now),
                 WithStatus(r.world, p, UpdatedStatus(plan, [copy], 0, snapshot, r.world.now)))
  {
    hide Copied, UpdatedStatus;
    var plan := r.world.plans[p];
    assert Seen(r.world, p, plan.spec) == plan;
    assert [copy][0].name == copy.name;
  }

  lemma UpdateKeepsClock(plan: Plan, all: seq<Node>, snapshot: Option<seq<string>>, at: Time)
    ensures var status := UpdatedStatus(plan, all, 0, snapshot, at);
            && status.drainStartedAt == plan.status.drainStartedAt
            && (DrainTimedOut in status.conditions <==> DrainTimedOut in plan.status.conditions)
  {
    assert DrainTimedOut in UpdatedConditions(plan, NextEntries(plan, all, at), 0, at)
           <==> DrainTimedOut in plan.status.conditions;
  }

  /** The stored options of plan p let the pod be evicted. */
  ghost predicate MayGo(r: Run, p: string, id: PodId) {
    && p in r.world.plans && id in r.world.pods
    && GetDrainConfig(r.world.plans[p].spec).Some?
    && MayEvict(r.world.pods[id], GetDrainConfig(r.world.plans[p].spec).value)
  }

  /** An eviction from the node that a copy shows, of a pod that a listing would show now. */
  lemma Evict(r: Run, p: string, seen: Node, id: PodId) returns (r': Run)
    requires Reachable(r) && Active(r.world, p) && !TimedOut(r.world.plans[p])
    requires Copied(r, seen) && seen.unschedulable && IsNodeReady(seen) && DrainTarget(r, p, seen)
    requires id in r.world.pods && id.node == seen.name && MayGo(r, p, id)
    ensures Reachable(r') && r'.Then? && r'.before == r
    ensures r'.step == EvictPod(p, r.world.plans[p].spec, seen, id, Length(r), false)
    ensures r'.world == r.world.(pods := r.world.pods - {id})
  {
    hide Copied, DrainTarget, IsNodeReady;
    r' := Then(r, EvictPod(p, r.world.plans[p].spec, seen, id, Length(r), false), r.world.(pods := r.world.pods - {id}));
    assert At(r, Length(r)) == r.world;
    NotAfterTheEnd(r, Length(r), id);
    assert Does(r, r'.step, r'.world);
  }

  lemma NotAfterTheEnd(r: Run, k: nat, id: PodId)
    requires Length(r) <= k
    ensures !EvictedAfter(r, k, id)
  {
  }
}
