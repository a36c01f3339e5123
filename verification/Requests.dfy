/**
 The requests of one drain call: which pods still wait, and what the API answered for each.
 */
module Requests {
  import opened Api
  import opened Protocol
  import opened Safety
  import opened Evictions
  import opened Passes

  lemma AtEnd(r: Run)
    ensures At(r, Length(r)) == r.world
  {
  }

  ghost predicate DistinctIds(pods: seq<Pod>) {
    forall i, j :: 0 <= i < j < |pods| ==> pods[i].id != pods[j].id
  }

  /* ----- Answers on record ----- */

  /** No request for the pod has been answered but by acceptance since step k. */
  ghost predicate Unanswered(r: Run, k: nat, id: PodId) {
    forall a: Answer :: !Answered(r, k, id, a)
  }

  lemma {:induction false} UnansweredAtEnd(r: Run, k: nat, id: PodId)
    requires Length(r) <= k
    ensures Unanswered(r, k, id)
  {
  }

  /** Nothing was answered in between for other pods than this. */
  ghost predicate OnlyAbout(r1: Run, r2: Run, id: PodId) {
    forall other: PodId, k: nat, a: Answer :: other != id && k <= Length(r1) ==>
      (Answered(r2, k, other, a) <==> Answered(r1, k, other, a))
  }

  /** Nothing was answered in between. */
  ghost predicate NoAnswers(r1: Run, r2: Run) {
    forall id: PodId, k: nat, a: Answer :: k <= Length(r1) ==> (Answered(r2, k, id, a) <==> Answered(r1, k, id, a))
  }

  lemma PauseAnswersNothing(r: Run, paused: Run)
    requires paused.Then? && paused.before == r && paused.step.Environment?
    ensures NoAnswers(r, paused) && Length(paused) == Length(r) + 1
  {
    forall id: PodId, k: nat, a: Answer | k <= Length(r)
      ensures Answered(paused, k, id, a) <==> Answered(r, k, id, a)
    {
      if Answered(r, k, id, a) {
        AnsweredEarly(r, k, id, a);
      }
    }
  }

  lemma AnsweredEarly(r: Run, k: nat, id: PodId, a: Answer)
    requires Answered(r, k, id, a)
    ensures k < Length(r)
  {
  }

  /** What a request adds to the record, whatever its answer. */
  lemma AnswerOnRecord(r: Run, after: Run, id: PodId)
    requires after.Then? && after.before == r
    requires (after.step.EvictPod? || after.step.Reply?) && after.step.pod == id
    ensures OnlyAbout(r, after, id) && Length(after) == Length(r) + 1
    ensures forall k: nat, a: Answer :: k <= Length(r) ==>
      (Answered(after, k, id, a) <==> Answered(r, k, id, a) || (after.step.Reply? && after.step.answer == a))
  {
  }

  lemma OnlyAboutOn(a: Run, b: Run, c: Run, id: PodId)
    requires (OnlyAbout(a, b, id) || NoAnswers(a, b)) && (OnlyAbout(b, c, id) || NoAnswers(b, c)) && Length(a) <= Length(b)
    ensures OnlyAbout(a, c, id)
  {
  }

  /* ----- Pods that still wait ----- */

  /** These pods were listed after k steps of the run, and neither evicted nor asked for so far. */
  ghost predicate Waiting(r: Run, k: nat, pods: seq<Pod>) {
    forall i :: 0 <= i < |pods| ==>
      ListedAs(r, k, pods[i]) && pods[i].id !in EvictedIds(r) && Unanswered(r, k, pods[i].id)
  }

  lemma WaitingFirst(r: Run, k: nat, pods: seq<Pod>, i: nat)
    requires i < |pods| && Waiting(r, k, pods[i..])
    ensures ListedAs(r, k, pods[i]) && pods[i].id !in EvictedIds(r) && Unanswered(r, k, pods[i].id)
  {
    assert pods[i..][0] == pods[i];
  }

  /** A pod that a listing does not show on its way out was not evicted before. */
  lemma ListedIsWaiting(r: Run, pods: seq<Pod>)
    requires Reachable(r)
    requires forall i :: 0 <= i < |pods| ==>
      pods[i].id in r.world.pods && r.world.pods[pods[i].id] == pods[i] && pods[i].deletionTimestamp.None?
    ensures Waiting(r, Length(r), pods)
  {
    hide Reachable;
    AtEnd(r);
    forall i | 0 <= i < |pods| ensures pods[i].id !in EvictedIds(r) && Unanswered(r, Length(r), pods[i].id) {
      UnansweredAtEnd(r, Length(r), pods[i].id);
      if pods[i].id in EvictedIds(r) {
        EvictedIsOnItsWay(r, pods[i].id);
      }
    }
  }

  lemma StillListed(r1: Run, r2: Run, k: nat, pod: Pod)
    requires Extends(r1, r2) && ListedAs(r1, k, pod)
    ensures ListedAs(r2, k, pod)
  {
    AtExtended(r1, r2, k);
  }

  /** The rest of the pods wait on when one of them was requested. */
  lemma WaitingOn(r1: Run, r2: Run, k: nat, pods: seq<Pod>, i: nat)
    requires DistinctIds(pods) && i < |pods| && Waiting(r1, k, pods[i..]) && Extends(r1, r2)
    requires EvictedIds(r2) <= EvictedIds(r1) + {pods[i].id} && OnlyAbout(r1, r2, pods[i].id)
    ensures Waiting(r2, k, pods[i + 1..])
  {
    var rest := pods[i + 1..];
    forall j | 0 <= j < |rest|
      ensures ListedAs(r2, k, rest[j]) && rest[j].id !in EvictedIds(r2) && Unanswered(r2, k, rest[j].id)
    {
      assert rest[j] == pods[i..][j + 1] && rest[j] == pods[i + 1 + j];
      StillListed(r1, r2, k, rest[j]);
    }
  }

  /* ----- Pods that were dealt with ----- */

  /** The pods whose eviction a budget refused for good, in listing order. */
  ghost function RefusedOf(r: Run, k: nat, pods: seq<Pod>, respectBudgets: bool): seq<PodId> {
    if pods == [] then []
    else
      var last := pods[|pods| - 1].id;
      RefusedOf(r, k, pods[..|pods| - 1], respectBudgets)
      + if respectBudgets && Answered(r, k, last, TooManyRequests) then [last] else []
  }

  lemma {:induction false} RefusedFrom(r: Run, k: nat, pods: seq<Pod>, respectBudgets: bool)
    ensures forall id :: id in RefusedOf(r, k, pods, respectBudgets) ==>
      respectBudgets && exists i :: 0 <= i < |pods| && pods[i].id == id && Answered(r, k, id, TooManyRequests)
    ensures forall i :: 0 <= i < |pods| && respectBudgets && Answered(r, k, pods[i].id, TooManyRequests) ==>
      pods[i].id in RefusedOf(r, k, pods, respectBudgets)
  {
    if pods != [] {
      var n := |pods| - 1;
      RefusedFrom(r, k, pods[..n], respectBudgets);
      forall id | id in RefusedOf(r, k, pods, respectBudgets)
        ensures respectBudgets && exists i :: 0 <= i < |pods| && pods[i].id == id && Answered(r, k, id, TooManyRequests)
      {
        if id in RefusedOf(r, k, pods[..n], respectBudgets) {
          var i :| 0 <= i < n && pods[..n][i].id == id && Answered(r, k, id, TooManyRequests);
          assert pods[i].id == id;
        }
      }
      forall i | 0 <= i < |pods| && respectBudgets && Answered(r, k, pods[i].id, TooManyRequests)
        ensures pods[i].id in RefusedOf(r, k, pods, respectBudgets)
      {
        if i < n {
          assert pods[..n][i] == pods[i];
        }
      }
    }
  }

  /** Each of these pods was evicted, or refused by a budget, or answered to be gone. */
  ghost predicate Handled(r: Run, k: nat, pods: seq<Pod>, respectBudgets: bool) {
    forall i :: 0 <= i < |pods| ==>
      || pods[i].id in EvictedIds(r)
      || (respectBudgets && Answered(r, k, pods[i].id, TooManyRequests))
      || Answered(r, k, pods[i].id, NotFound)
  }

  /** Some request got an answer that was neither acceptance, refusal nor absence. */
  ghost predicate AnyFailed(r: Run, k: nat, pods: seq<Pod>) {
    exists i :: 0 <= i < |pods| && Answered(r, k, pods[i].id, OtherAnswer)
  }

  lemma NothingHandled(r: Run, k: nat, respectBudgets: bool)
    ensures RefusedOf(r, k, [], respectBudgets) == [] && Handled(r, k, [], respectBudgets) && !AnyFailed(r, k, [])
  {
  }

  lemma {:induction false} RefusedStay(r1: Run, r2: Run, k: nat, pods: seq<Pod>, respectBudgets: bool)
    requires forall i :: 0 <= i < |pods| ==>
      (Answered(r2, k, pods[i].id, TooManyRequests) <==> Answered(r1, k, pods[i].id, TooManyRequests))
    ensures RefusedOf(r2, k, pods, respectBudgets) == RefusedOf(r1, k, pods, respectBudgets)
  {
    if pods != [] {
      var n := |pods| - 1;
      forall i | 0 <= i < n
        ensures Answered(r2, k, pods[..n][i].id, TooManyRequests) <==> Answered(r1, k, pods[..n][i].id, TooManyRequests)
      {
        assert pods[..n][i] == pods[i];
      }
      RefusedStay(r1, r2, k, pods[..n], respectBudgets);
    }
  }

  lemma EarlierAnswersStay(r1: Run, r2: Run, k: nat, pods: seq<Pod>, i: nat)
    requires DistinctIds(pods) && i < |pods| && k <= Length(r1) && OnlyAbout(r1, r2, pods[i].id)
    ensures forall j: nat, a: Answer :: j < i ==> (Answered(r2, k, pods[j].id, a) <==> Answered(r1, k, pods[j].id, a))
  {
  }

  /** One more pod is dealt with. */
  lemma RefusedNext(r1: Run, r2: Run, k: nat, pods: seq<Pod>, i: nat, respectBudgets: bool)
    requires DistinctIds(pods) && i < |pods| && k <= Length(r1) && OnlyAbout(r1, r2, pods[i].id)
    ensures RefusedOf(r2, k, pods[..i + 1], respectBudgets)
            == RefusedOf(r1, k, pods[..i], respectBudgets)
               + if respectBudgets && Answered(r2, k, pods[i].id, TooManyRequests) then [pods[i].id] else []
  {
    EarlierAnswersStay(r1, r2, k, pods, i);
    hide Answered, OnlyAbout;
    assert pods[..i + 1][..i] == pods[..i];
    RefusedStay(r1, r2, k, pods[..i], respectBudgets);
  }

  lemma AllHandledNext(r1: Run, r2: Run, k: nat, pods: seq<Pod>, i: nat, respectBudgets: bool)
    requires DistinctIds(pods) && i < |pods| && k <= Length(r1) && OnlyAbout(r1, r2, pods[i].id)
    requires EvictedIds(r1) <= EvictedIds(r2) && Handled(r1, k, pods[..i], respectBudgets)
    requires || pods[i].id in EvictedIds(r2)
             || (respectBudgets && Answered(r2, k, pods[i].id, TooManyRequests))
             || Answered(r2, k, pods[i].id, NotFound)
    ensures Handled(r2, k, pods[..i + 1], respectBudgets)
  {
    EarlierAnswersStay(r1, r2, k, pods, i);
    hide Answered, OnlyAbout, EvictedIds;
    assert forall j | 0 <= j < i :: pods[..i][j] == pods[j];
  }

  lemma FailedNext(r1: Run, r2: Run, k: nat, pods: seq<Pod>, i: nat)
    requires DistinctIds(pods) && i < |pods| && k <= Length(r1) && OnlyAbout(r1, r2, pods[i].id)
    ensures AnyFailed(r2, k, pods[..i + 1]) <==> AnyFailed(r1, k, pods[..i]) || Answered(r2, k, pods[i].id, OtherAnswer)
  {
    EarlierAnswersStay(r1, r2, k, pods, i);
    hide Answered, OnlyAbout;
    assert pods[..i + 1][i] == pods[i];
    assert forall j | 0 <= j < i :: pods[..i][j] == pods[j] && pods[..i + 1][j] == pods[j];
  }

  /** A call that ends early has asked for none of the pods after the last. */
  lemma OnlySoFar(r: Run, k: nat, pods: seq<Pod>, i: nat, respectBudgets: bool)
    requires i <= |pods| && Waiting(r, k, pods[i..])
    ensures RefusedOf(r, k, pods, respectBudgets) == RefusedOf(r, k, pods[..i], respectBudgets)
    ensures AnyFailed(r, k, pods) <==> AnyFailed(r, k, pods[..i])
  {
    RefusedSoFar(r, k, pods, i, respectBudgets);
    forall j | i <= j < |pods| ensures Unanswered(r, k, pods[j].id) {
      assert pods[j] == pods[i..][j - i];
    }
    if j :| 0 <= j < |pods| && Answered(r, k, pods[j].id, OtherAnswer) {
      assert pods[..i][j] == pods[j];
    }
    if j :| 0 <= j < i && Answered(r, k, pods[..i][j].id, OtherAnswer) {
      assert pods[..i][j] == pods[j];
    }
  }

  lemma {:induction false} RefusedSoFar(r: Run, k: nat, pods: seq<Pod>, i: nat, respectBudgets: bool)
    requires i <= |pods| && Waiting(r, k, pods[i..])
    ensures RefusedOf(r, k, pods, respectBudgets) == RefusedOf(r, k, pods[..i], respectBudgets)
  {
    if i < |pods| {
      var n := |pods| - 1;
      assert pods[i..][n - i] == pods[n];
      assert pods[..n][i..] == pods[i..][..n - i] && pods[..n][..i] == pods[..i];
      RefusedSoFar(r, k, pods[..n], i, respectBudgets);
    } else {
      assert pods[..i] == pods;
    }
  }
}
