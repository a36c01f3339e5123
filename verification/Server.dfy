/**
 The API server as a pass sees it: every call lets the rest of the world move first, may
 fail, and takes effect in one step.
 */
module Server {
  import opened Protocol
  import opened Safety

  /** On a calm cluster nothing else moves and no call fails. */
  class Cluster {
    var w: World
    ghost var run: Run
    const calm: bool

    ghost predicate Valid()
      reads this
    {
      run.world == w && Reachable(run) && Inv(w)
    }

    constructor (w: World, calm: bool)
      requires Initial(w)
      ensures Valid() && this.w == w && run == Begin(w) && this.calm == calm
    {
      this.w := w;
      this.run := Begin(w);
      this.calm := calm;
      new;
      InitialInv(w);
    }

    /** Whatever users, controllers, kubelets and the clock do between two calls of a pass that
        holds copies of the named nodes. */
    method Interfere(ghost held: set<string>)
      requires Valid()
      modifies this
      ensures Valid()
      ensures run.Then? && run.before == old(run) && run.step.Environment?
      ensures Interferes(held, old(w), w)
      ensures calm ==> w == old(w)
    {
      forall q | q in w.plans ensures PlanKept(w.plans[q], w.plans[q]) {
        assert PlanInv(w, q);
      }
      assert forall n | n in w.nodes :: NodeInv(w, n);
      assert w.usedIds + w.pods.Keys == w.usedIds;
      run := Then(run, Environment, w);
    }

    /** One write of the operator. */
    method Commit(ghost step: Step, next: World)
      requires Valid() && Does(run, step, next)
      modifies this
      ensures Valid() && w == next && run == Then(old(run), step, next)
    {
      StepKeepsInv(run, step, next);
      w := next;
      run := Then(run, step, next);
    }
  }
}
