/**
 One undisturbed pass reaches the desired state, and a second one has nothing left to do.
 */
module Convergence {
  import opened Api
  import opened Drift
  import opened NodeWrites
  import opened Protocol
  import opened Safety
  import opened Passes
  import opened Server
  import opened Service

  /** The operator's marks on a node as every reachable cluster has them. */
  ghost predicate SaneMarks(node: Node) {
    && (ManagedBy in node.annotations ==> node.annotations[ManagedBy] != "")
    && (Cordoned in node.annotations ==> node.annotations[Cordoned] == "true" && ManagedBy in node.annotations)
  }

  /** The per-node core of idempotence: the second pass sees the first one's node and the
      flags it recorded. */
  lemma SecondPassKeepsNode(node: Node, desired: bool, plan: Plan, later: Plan, cordonDue: bool)
    requires plan.name != "" && later.name == plan.name && later.spec == plan.spec && SaneMarks(node)
    requires desired && (Latched(plan.status.nodes, node.name)
                         || (Owner(node) == plan.name && Releases(DetectNodeDrift(node, plan))))
             ==> Latched(later.status.nodes, node.name)
    ensures var once := PassNode(node, desired, plan, cordonDue);
            PassNode(once, desired, later, cordonDue) == once
  {
    var once := PassNode(node, desired, plan, cordonDue);
    var acts := CordonActs(plan.spec, cordonDue);
    if Owner(node) == "" {
      if desired && !Latched(plan.status.nodes, node.name) {
        CordonAgain(once, later, acts);
      }
    } else if Owner(node) == plan.name && desired && !Releases(DetectNodeDrift(node, plan)) {
      ReleasesIgnoresStatus(node, plan, later);
      if acts {
        CordonAgain(once, later, acts);
      }
    }
  }

  /** A node the pass has just set up is neither released nor changed by cordoning it again. */
  lemma CordonAgain(once: Node, plan: Plan, acts: bool)
    requires Owner(once) == plan.name != ""
    requires if CordonEnabled(plan.spec) then
               if acts then AlreadyCordoned(once) else Cordoned !in once.annotations
             else (once.unschedulable && !OperatorCordoned(once)) || (!once.unschedulable && Cordoned !in once.annotations)
    ensures AfterDrift(once, plan) == once
    ensures acts ==> AfterCordon(once, plan) == once
  {
    if CordonEnabled(plan.spec) && acts {
      assert CordonedNode(once).annotations == once.annotations;
    } else if Cordoned !in once.annotations {
      assert UncordonedNode(once).annotations == once.annotations;
    }
  }

  /** What one undisturbed pass makes of a node, case by case. A node that another plan owns, or
      that is free and not wanted, is left alone; so is a free one that is barred. */
  lemma PassMeans(node: Node, desired: bool, plan: Plan, cordonDue: bool)
    requires plan.name != "" && SaneMarks(node)
    ensures var after := PassNode(node, desired, plan, cordonDue);
            var cordons := CordonEnabled(plan.spec) && cordonDue;
            var owned := Owner(node) == plan.name;
            && (!owned && !(desired && Owner(node) == "" && !Latched(plan.status.nodes, node.name)) ==> after == node)
            && (desired && Owner(node) == "" && !Latched(plan.status.nodes, node.name) ==>
                  && Owner(after) == plan.name && Get(after.annotations, Reason) == plan.spec.reason
                  && Get(after.labels, InMaintenance) == "true"
                  && after.unschedulable == (node.unschedulable || cordons)
                  && (OperatorCordoned(after) <==> cordons))
            && (desired && owned && Releases(DetectNodeDrift(node, plan)) ==>
                  Unmarked(after) && InMaintenance !in after.labels && after.unschedulable == node.unschedulable)
            && (desired && owned && !Releases(DetectNodeDrift(node, plan)) ==>
                  if cordons then Owner(after) == plan.name && after.unschedulable && OperatorCordoned(after)
                  else if CordonEnabled(plan.spec) || (node.unschedulable && !OperatorCordoned(node)) then after == node
                  else Owner(after) == plan.name && !after.unschedulable && Cordoned !in after.annotations)
            && (!desired && owned ==>
                  if cordonDue || !CordonEnabled(plan.spec) then
                    Unmarked(after) && InMaintenance !in after.labels && !after.unschedulable
                  else after == node)
  {
    hide DetectNodeDrift;
  }

  lemma NodesAreSane(w: World)
    requires Inv(w)
    ensures forall n :: n in w.nodes ==> SaneMarks(w.nodes[n]) && w.nodes[n].name == n
  {
    forall n | n in w.nodes ensures SaneMarks(w.nodes[n]) && w.nodes[n].name == n {
      assert NodeInv(w, n);
    }
  }

  /** The second pass resolves the same nodes: an explicit list is read again, a selection was frozen. */
  lemma DesiredAgain(w: World, w': World, plan: Plan, later: Plan, first: set<string>, second: set<string>)
    requires later.spec == plan.spec && w'.nodes.Keys == w.nodes.Keys
    requires Desired(w, plan, first) && Settled(w.nodes, plan, first, later.status)
    requires Desired(w', later, second)
    ensures second == first
  {
    forall n ensures n in second <==> n in first {
    }
  }

  /** Idempotence: a second undisturbed pass patches no node, whichever way cordon is set. */
  lemma SecondPassIsIdle(w: World, w': World, plan: Plan, later: Plan, first: set<string>, second: set<string>,
                         cordonDue: bool, final: map<string, Node>)
    requires Inv(w) && plan.name != "" && later.name == plan.name && later.spec == plan.spec
    requires Desired(w, plan, first) && PassEffect(w.nodes, w'.nodes, first, plan, cordonDue)
    requires Settled(w.nodes, plan, first, later.status)
    requires Desired(w', later, second) && PassEffect(w'.nodes, final, second, later, cordonDue)
    ensures final == w'.nodes
  {
    NodesAreSane(w);
    DesiredAgain(w, w', plan, later, first, second);
    forall n | n in w.nodes ensures final[n] == w'.nodes[n] {
      SecondPassKeepsNode(w.nodes[n], n in first, plan, later, cordonDue);
    }
  }

  /** Convergence: with cordon enabled and due, a desired node ends up owned, cordoned and
      marked, or with another owner, or unowned and barred; nothing else stays owned. */
  lemma OnePassConverges(w: World, after: map<string, Node>, plan: Plan, desired: set<string>, s: Status, n: string)
    requires Inv(w) && plan.name != "" && CordonEnabled(plan.spec) && n in w.nodes
    requires PassEffect(w.nodes, after, desired, plan, true) && Settled(w.nodes, plan, desired, s)
    ensures n in desired ==>
      || (Owner(after[n]) == plan.name && AlreadyCordoned(after[n]))
      || (Owner(after[n]) != plan.name && Owner(after[n]) != "" && after[n] == w.nodes[n])
      || (Owner(after[n]) == "" && Latched(s.nodes, n))
    ensures n !in desired ==> Owner(after[n]) != plan.name
    ensures n !in desired && Owner(w.nodes[n]) == plan.name ==> Unmarked(after[n]) && !after[n].unschedulable
    ensures n !in desired && Owner(w.nodes[n]) != plan.name ==> after[n] == w.nodes[n]
  {
    NodesAreSane(w);
  }

  /** Two reconciles in a row on a calm cluster, as the operator runs them. */
  method ReconcileTwice(cluster: Cluster, name: string, cordonDue: bool, drainDue: bool)
    returns (first: PassResult, second: PassResult, ghost between: Run)
    requires cluster.Valid() && cluster.calm
    modifies cluster
    ensures cluster.Valid() && first != Aborted && second != Aborted
    ensures first == Completed && second == Completed ==>
      cluster.w.nodes == between.world.nodes && Patches(cluster.run) == Patches(between)
  {
    hide Reachable, Settled, Desired, PassEffect, TotalsAccount;
    ghost var w := cluster.w;
    var unread := Plan(name, Spec([], None, "", None, None), false, false, EMPTY_STATUS);
    var service := new MaintenanceService(cluster, unread);
    ghost var chosen, chosenAgain, read, ready;
    first, chosen, read, ready := service.Reconcile(name, cordonDue, drainDue);
    between := cluster.run;
    service := new MaintenanceService(cluster, unread);
    second, chosenAgain, read, ready := service.Reconcile(name, cordonDue, drainDue);
    if first == Completed && second == Completed {
      var w1 := between.world;
      assert PlanInv(w, name) && PlanInv(w1, name);
      SecondPassIsIdle(w, w1, w.plans[name], w1.plans[name], chosen, chosenAgain, cordonDue, cluster.w.nodes);
    }
  }
}
