/**
 What a plan reports of itself in every reachable state: its phase, summary and ready flag.
 */
module Phases {
  import opened Api
  import opened StatusUpdate
  import opened DrainFold
  import opened Protocol
  import opened Safety

  /** The last step of r is a drain status of plan p, and gives the timeout verdict. */
  ghost predicate RunsOut(r: Run, p: string) {
    && r.Then? && r.step.PublishDrain? && r.step.plan == p && p in r.before.world.plans
    && Expires(Seen(r.before.world, p, r.step.spec), ResultsOf(r.step.reports), r.step.at)
  }

  /** Plan p's last drain status before a timeout found every entry ready, and at least one. */
  ghost predicate LastFoldReady(r: Run, p: string) {
    && r.Then? && p in r.world.plans
    && (if r.step.PublishDrain? && r.step.plan == p && !RunsOut(r, p) then
          var entries := r.world.plans[p].status.nodes;
          entries != [] && forall e :: e in entries ==> e.ready
        else LastFoldReady(r.before, p))
  }

  lemma FoldStep(r: Run, p: string)
    requires Reachable(r) && r.Then? && r.step.PublishDrain? && r.step.plan == p
    ensures p in r.before.world.plans && p in r.world.plans
    ensures var (s, s') := (r.before.world.plans[p].status, r.world.plans[p].status);
            && (if RunsOut(r, p) then s'.allReady == s.allReady
                else
                  && (s'.allReady <==> s'.nodes != [] && forall e :: e in s'.nodes ==> e.ready)
                  && Recomputed(s') == s')
  {
    hide Disturbs, Copied, Allowed, SnapshotRule, SoundReport, Accounts, AppliedDrain, Expires, Recomputed;
    var plan, results := Seen(r.before.world, p, r.step.spec), ResultsOf(r.step.reports);
    if Expires(plan, results, r.step.at) {
      TimeoutStatusMeans(plan, results, r.step.at);
    } else {
      DrainStatusMeans(plan, results, r.step.at);
      RecomputedAgain(r.world.plans[p].status);
    }
  }

  lemma RecomputedAgain(s: Status)
    requires s.summary == SummaryOf(s.nodes) && s.phase == Recomputed(s).phase
    ensures Recomputed(s) == s
  {
    hide SummaryOf, ComputePhase;
  }

  lemma UpdateStep(r: Run, p: string)
    requires Reachable(r) && r.Then? && r.step.PublishStatus? && r.step.plan == p
    ensures p in r.before.world.plans && p in r.world.plans
    ensures r.world.plans[p].status.allReady == r.before.world.plans[p].status.allReady
    ensures Recomputed(r.world.plans[p].status) == r.world.plans[p].status
  {
    hide Disturbs, Copied, Allowed, SnapshotRule, SoundReport, UpdatedStatus, Recomputed;
    UpdateMeans(Seen(r.before.world, p, r.step.spec), r.step.all, r.step.conflicting, r.step.snapshot, r.step.at);
    RecomputedAgain(r.world.plans[p].status);
  }

  /** A plan's status changes by these two steps alone, or starts out empty. */
  lemma OtherSteps(r: Run, p: string)
    requires Reachable(r) && r.Then? && p in r.world.plans
    requires !(r.step.PublishStatus? && r.step.plan == p) && !(r.step.PublishDrain? && r.step.plan == p)
    ensures || (p in r.before.world.plans && r.world.plans[p].status == r.before.world.plans[p].status)
            || (r.world.plans[p].status == EMPTY_STATUS
                && (p in r.before.world.plans ==> r.before.world.plans[p].status == EMPTY_STATUS))
  {
    AlwaysInv(r.before);
    StatusMoves(r, p);
    if p in r.before.world.plans {
      assert PlanInv(r.before.world, p);
    }
    hide Does, Reachable;
  }

  /** The ready flag of a plan says, in every reachable state, that the last drain status off
      the timeout path found every entry ready; updates in between do not look again. */
  lemma {:induction false} ReadyFlagMeans(r: Run, p: string)
    requires Reachable(r) && p in r.world.plans
    ensures r.world.plans[p].status.allReady <==> LastFoldReady(r, p)
  {
    if r.Then? {
      if p in r.before.world.plans {
        ReadyFlagMeans(r.before, p);
      }
      if r.step.PublishDrain? && r.step.plan == p {
        FoldStep(r, p);
      } else if r.step.PublishStatus? && r.step.plan == p {
        UpdateStep(r, p);
      } else {
        OtherSteps(r, p);
      }
      hide Reachable, RunsOut;
    }
  }

  /** The last status that plan p wrote is one that gives the timeout verdict. */
  ghost predicate WroteTimeout(r: Run, p: string) {
    && r.Then? && p in r.world.plans
    && (if r.step.PublishDrain? && r.step.plan == p then RunsOut(r, p)
        else if r.step.PublishStatus? && r.step.plan == p then false
        else WroteTimeout(r.before, p))
  }

  /** Phase and summary are those of the conditions and entries shown beside them, in every
      reachable state but those between a timeout verdict and the next status update. */
  lemma {:induction false} PhaseIsCurrent(r: Run, p: string)
    requires Reachable(r) && p in r.world.plans && !WroteTimeout(r, p)
    ensures Recomputed(r.world.plans[p].status) == r.world.plans[p].status
  {
    if r.Then? {
      if r.step.PublishDrain? && r.step.plan == p {
        FoldStep(r, p);
      } else if r.step.PublishStatus? && r.step.plan == p {
        UpdateStep(r, p);
      } else {
        OtherSteps(r, p);
        if p in r.before.world.plans && r.world.plans[p].status == r.before.world.plans[p].status {
          PhaseIsCurrent(r.before, p);
        }
      }
      hide Reachable, RunsOut;
    }
  }

  /** So a plan that shows the phase Ready has no conflict and no timeout verdict, and its last
      drain status found every entry ready. */
  lemma ReadyPhaseMeans(r: Run, p: string)
    requires Reachable(r) && p in r.world.plans && !WroteTimeout(r, p)
    ensures r.world.plans[p].status.phase == PhaseReady <==>
      && LastFoldReady(r, p)
      && Conflict !in r.world.plans[p].status.conditions && DrainTimedOut !in r.world.plans[p].status.conditions
  {
    hide Reachable, LastFoldReady, WroteTimeout;
    ReadyFlagMeans(r, p);
    PhaseIsCurrent(r, p);
    PhaseMeans(r.world.plans[p].status);
  }
}
