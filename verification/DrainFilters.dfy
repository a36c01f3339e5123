/**
 Pod classification for draining a node.
 */
module DrainFilters {
  import opened Api

  datatype DrainConfig = DrainConfig(
    ignoreDaemonSets: bool,
    deleteEmptyDirData: bool,
    force: bool,
    respectBudgets: bool
  )

  /** Options with the defaults that apply when the options block is absent. */
  function GetDrainConfig(spec: Spec): Option<DrainConfig> {
    if !DrainEnabled(spec) then None
    else match spec.drain.value.options
         case None => Some(DrainConfig(true, false, false, true))
         case Some(o) => Some(DrainConfig(o.ignoreDaemonSets, o.deleteEmptyDirData, o.force, o.respectBudgets))
  }

  const DEFAULT_GRACE: int := 30
  const STUCK_BUFFER: int := 60

  datatype PodClass = Evictable | Blocked | Terminating | Stuck | Skipped

  predicate IsDaemonSetPod(pod: Pod) {
    exists i :: 0 <= i < |pod.owners| && pod.owners[i].daemonSet
  }

  predicate HasController(pod: Pod) {
    exists i :: 0 <= i < |pod.owners| && pod.owners[i].controller == Some(true)
  }

  predicate HasEmptyDir(pod: Pod) {
    exists i :: 0 <= i < |pod.volumes| && pod.volumes[i].emptyDir
  }

  predicate Finished(pod: Pod) {
    pod.phase == Succeeded || pod.phase == Failed
  }

  function StuckDeadline(pod: Pod): Time
    requires pod.deletionTimestamp.Some?
  {
    pod.deletionTimestamp.value
    + (if pod.gracePeriod.Some? then pod.gracePeriod.value else DEFAULT_GRACE)
    + STUCK_BUFFER
  }

  function Classify(pod: Pod, cfg: DrainConfig, now: Time): PodClass {
    if pod.mirror then Skipped
    else if pod.deletionTimestamp.Some? then
      if now > StuckDeadline(pod) then Stuck else Terminating
    else if Finished(pod) then Skipped
    else if IsDaemonSetPod(pod) then
      if cfg.ignoreDaemonSets then Skipped else Blocked
    else if !HasController(pod) && !cfg.force then Blocked
    else if HasEmptyDir(pod) && !cfg.deleteEmptyDirData then Blocked
    else Evictable
  }

  /* ----- What the options let be evicted ----- */

  /** Neither a static pod's mirror nor one that has run to its end, and not on its way out. */
  predicate Present(pod: Pod) {
    !pod.mirror && pod.deletionTimestamp.None? && pod.phase !in {Succeeded, Failed}
  }

  /** A pod that is recreated elsewhere and loses no data by it, or for which the options say
      that this does not matter. */
  ghost predicate MayEvict(pod: Pod, cfg: DrainConfig) {
    && Present(pod)
    && (forall o :: o in pod.owners ==> !o.daemonSet)
    && ((exists o :: o in pod.owners && o.controller == Some(true)) || cfg.force)
    && ((forall v :: v in pod.volumes ==> !v.emptyDir) || cfg.deleteEmptyDirData)
  }

  /** A pod that only a change of the options or of the pod itself makes evictable. */
  ghost predicate HeldBack(pod: Pod, cfg: DrainConfig) {
    && Present(pod)
    && if exists o :: o in pod.owners && o.daemonSet then !cfg.ignoreDaemonSets
       else
         || ((forall o :: o in pod.owners ==> o.controller != Some(true)) && !cfg.force)
         || ((exists v :: v in pod.volumes && v.emptyDir) && !cfg.deleteEmptyDirData)
  }

  /** More than a minute past its deletion and its grace period, of 30 seconds by default. */
  predicate Overdue(pod: Pod, now: Time) {
    && pod.deletionTimestamp.Some?
    && now > pod.deletionTimestamp.value + (if pod.gracePeriod.Some? then pod.gracePeriod.value else 30) + 60
  }

  lemma OwnersAndVolumes(pod: Pod)
    ensures IsDaemonSetPod(pod) <==> exists o :: o in pod.owners && o.daemonSet
    ensures HasController(pod) <==> exists o :: o in pod.owners && o.controller == Some(true)
    ensures HasEmptyDir(pod) <==> exists v :: v in pod.volumes && v.emptyDir
  {
    if o :| o in pod.owners && o.daemonSet {
      var i :| 0 <= i < |pod.owners| && pod.owners[i] == o;
    }
    if o :| o in pod.owners && o.controller == Some(true) {
      var i :| 0 <= i < |pod.owners| && pod.owners[i] == o;
    }
    if v :| v in pod.volumes && v.emptyDir {
      var i :| 0 <= i < |pod.volumes| && pod.volumes[i] == v;
    }
  }

  /** The class of a pod, told from the pod and the options. */
  lemma ClassMeans(pod: Pod, cfg: DrainConfig, now: Time)
    ensures Classify(pod, cfg, now) == Evictable <==> MayEvict(pod, cfg)
    ensures Classify(pod, cfg, now) == Blocked <==> HeldBack(pod, cfg)
    ensures Classify(pod, cfg, now) == Stuck <==> !pod.mirror && Overdue(pod, now)
    ensures Classify(pod, cfg, now) == Terminating <==> !pod.mirror && pod.deletionTimestamp.Some? && !Overdue(pod, now)
    ensures Classify(pod, cfg, now) == Skipped <==>
      || pod.mirror
      || (pod.deletionTimestamp.None? && pod.phase in {Succeeded, Failed})
      || (Present(pod) && cfg.ignoreDaemonSets && exists o :: o in pod.owners && o.daemonSet)
  {
    OwnersAndVolumes(pod);
    hide IsDaemonSetPod, HasController, HasEmptyDir;
  }

  /** The options of a plan: without an options block DaemonSet pods are ignored and budgets
      respected, and neither bare pods nor local data are given up. */
  lemma DrainConfigMeans(spec: Spec)
    ensures GetDrainConfig(spec).Some? <==> spec.drain.Some? && spec.drain.value.enabled
    ensures GetDrainConfig(spec).Some? && spec.drain.value.options.None? ==>
      var cfg := GetDrainConfig(spec).value;
      cfg.ignoreDaemonSets && cfg.respectBudgets && !cfg.force && !cfg.deleteEmptyDirData
    ensures GetDrainConfig(spec).Some? && spec.drain.value.options.Some? ==>
      var (cfg, options) := (GetDrainConfig(spec).value, spec.drain.value.options.value);
      && cfg.ignoreDaemonSets == options.ignoreDaemonSets && cfg.respectBudgets == options.respectBudgets
      && cfg.force == options.force && cfg.deleteEmptyDirData == options.deleteEmptyDirData
  {
  }

  datatype FilterResult = FilterResult(
    evictable: seq<Pod>, blocked: seq<Pod>, terminating: seq<Pod>, stuck: seq<Pod>, skipped: seq<Pod>)
  {
    function Bucket(c: PodClass): seq<Pod> {
      match c
      case Evictable => evictable
      case Blocked => blocked
      case Terminating => terminating
      case Stuck => stuck
      case Skipped => skipped
    }
  }

  /** The pods of one class, in listing order. */
  function OfClass(pods: seq<Pod>, cfg: DrainConfig, now: Time, c: PodClass): (r: seq<Pod>)
    ensures forall p :: p in r <==> p in pods && Classify(p, cfg, now) == c
  {
    if pods == [] then []
    else
      var p := pods[|pods| - 1];
      OfClass(pods[..|pods| - 1], cfg, now, c) + if Classify(p, cfg, now) == c then [p] else []
  }

  lemma BucketsMean(pods: seq<Pod>, cfg: DrainConfig, now: Time, r: FilterResult)
    requires forall c: PodClass :: r.Bucket(c) == OfClass(pods, cfg, now, c)
    ensures forall p :: p in r.evictable <==> p in pods && MayEvict(p, cfg)
    ensures forall p :: p in r.blocked <==> p in pods && HeldBack(p, cfg)
    ensures forall p :: p in r.stuck <==> p in pods && !p.mirror && Overdue(p, now)
    ensures forall p :: p in r.terminating <==> p in pods && !p.mirror && p.deletionTimestamp.Some? && !Overdue(p, now)
  {
    hide Classify, MayEvict, HeldBack, Overdue;
    assert r.evictable == r.Bucket(Evictable) && r.blocked == r.Bucket(Blocked);
    assert r.stuck == r.Bucket(Stuck) && r.terminating == r.Bucket(Terminating);
    forall p: Pod
      ensures p in r.evictable <==> p in pods && MayEvict(p, cfg)
      ensures p in r.blocked <==> p in pods && HeldBack(p, cfg)
      ensures p in r.stuck <==> p in pods && !p.mirror && Overdue(p, now)
      ensures p in r.terminating <==> p in pods && !p.mirror && p.deletionTimestamp.Some? && !Overdue(p, now)
    {
      ClassMeans(p, cfg, now);
    }
  }

  /** The five-way loop: every bucket is exactly its class, in listing order. */
  method ClassifyPods(pods: seq<Pod>, cfg: DrainConfig, now: Time) returns (r: FilterResult)
    ensures forall c: PodClass :: r.Bucket(c) == OfClass(pods, cfg, now, c)
    ensures forall p :: p in r.evictable <==> p in pods && MayEvict(p, cfg)
    ensures forall p :: p in r.blocked <==> p in pods && HeldBack(p, cfg)
    ensures forall p :: p in r.stuck <==> p in pods && !p.mirror && Overdue(p, now)
    ensures forall p :: p in r.terminating <==> p in pods && !p.mirror && p.deletionTimestamp.Some? && !Overdue(p, now)
  {
    hide MayEvict, HeldBack, Overdue;
    r := FilterResult([], [], [], [], []);
    for i := 0 to |pods|
      invariant forall c: PodClass :: r.Bucket(c) == OfClass(pods[..i], cfg, now, c)
    {
      var pod := pods[i];
      ghost var before := r;
      assert pods[..i + 1][..i] == pods[..i] && pods[..i + 1][i] == pod;
      if pod.mirror {
        r := r.(skipped := r.skipped + [pod]);
      } else if pod.deletionTimestamp.Some? {
        if now > StuckDeadline(pod) {
          r := r.(stuck := r.stuck + [pod]);
        } else {
          r := r.(terminating := r.terminating + [pod]);
        }
      } else if Finished(pod) {
        r := r.(skipped := r.skipped + [pod]);
      } else if IsDaemonSetPod(pod) {
        if cfg.ignoreDaemonSets {
          r := r.(skipped := r.skipped + [pod]);
        } else {
          r := r.(blocked := r.blocked + [pod]);
        }
      } else if !HasController(pod) && !cfg.force {
        r := r.(blocked := r.blocked + [pod]);
      } else if HasEmptyDir(pod) && !cfg.deleteEmptyDirData {
        r := r.(blocked := r.blocked + [pod]);
      } else {
        r := r.(evictable := r.evictable + [pod]);
      }
      forall c: PodClass
        ensures r.Bucket(c) == OfClass(pods[..i + 1], cfg, now, c)
      {
        var kept := if Classify(pod, cfg, now) == c then [pod] else [];
        assert OfClass(pods[..i + 1], cfg, now, c) == before.Bucket(c) + kept;
        assert r.Bucket(c) == before.Bucket(c) + kept;
      }
    }
    assert pods[..|pods|] == pods;
    BucketsMean(pods, cfg, now, r);
  }

  /* ----- An order-preserving partition ----- */

  /** A subsequence, witnessed by the strictly increasing positions it keeps. */
  ghost predicate KeepsPositions<T>(part: seq<T>, whole: seq<T>, at: seq<nat>) {
    && |at| == |part|
    && (forall i :: 0 <= i < |at| ==> at[i] < |whole| && part[i] == whole[at[i]])
    && (forall i, j :: 0 <= i < j < |at| ==> at[i] < at[j])
  }

  lemma {:induction false} OrderPreserved(pods: seq<Pod>, cfg: DrainConfig, now: Time, c: PodClass)
    returns (at: seq<nat>)
    ensures KeepsPositions(OfClass(pods, cfg, now, c), pods, at)
    ensures forall k :: 0 <= k < |pods| && Classify(pods[k], cfg, now) == c ==> k in at
  {
    at := [];
    if pods != [] {
      var n := |pods| - 1;
      at := OrderPreserved(pods[..n], cfg, now, c);
      if Classify(pods[n], cfg, now) == c {
        ghost var before := at;
        at := at + [n];
        assert forall k | 0 <= k < |pods| && Classify(pods[k], cfg, now) == c ::
          k == n || (pods[..n][k] == pods[k] && k in before);
        assert at[|before|] == n;
      } else {
        assert forall k | 0 <= k < n :: pods[..n][k] == pods[k];
      }
    }
  }

  /** A pod is counted in its own bucket as often as it was listed, and in no other. */
  lemma {:induction false} CountOfClass(pods: seq<Pod>, cfg: DrainConfig, now: Time, c: PodClass, p: Pod)
    ensures multiset(OfClass(pods, cfg, now, c))[p] == if Classify(p, cfg, now) == c then multiset(pods)[p] else 0
  {
    if pods != [] {
      var n := |pods| - 1;
      var last := pods[n];
      CountOfClass(pods[..n], cfg, now, c, p);
      assert pods == pods[..n] + [last];
      if Classify(last, cfg, now) != c {
        assert OfClass(pods, cfg, now, c) == OfClass(pods[..n], cfg, now, c);
      }
    }
  }

  lemma CountInAll(pods: seq<Pod>, cfg: DrainConfig, now: Time, p: Pod)
    ensures multiset(OfClass(pods, cfg, now, Evictable))[p] + multiset(OfClass(pods, cfg, now, Blocked))[p]
            + multiset(OfClass(pods, cfg, now, Terminating))[p] + multiset(OfClass(pods, cfg, now, Stuck))[p]
            + multiset(OfClass(pods, cfg, now, Skipped))[p] == multiset(pods)[p]
  {
    hide OfClass, Classify;
    forall c: PodClass
      ensures multiset(OfClass(pods, cfg, now, c))[p] == if Classify(p, cfg, now) == c then multiset(pods)[p] else 0
    {
      CountOfClass(pods, cfg, now, c, p);
    }
  }

  lemma Partition(pods: seq<Pod>, cfg: DrainConfig, now: Time)
    ensures multiset(OfClass(pods, cfg, now, Evictable)) + multiset(OfClass(pods, cfg, now, Blocked))
            + multiset(OfClass(pods, cfg, now, Terminating)) + multiset(OfClass(pods, cfg, now, Stuck))
            + multiset(OfClass(pods, cfg, now, Skipped)) == multiset(pods)
  {
    hide OfClass;
    var all := multiset(OfClass(pods, cfg, now, Evictable)) + multiset(OfClass(pods, cfg, now, Blocked))
               + multiset(OfClass(pods, cfg, now, Terminating)) + multiset(OfClass(pods, cfg, now, Stuck))
               + multiset(OfClass(pods, cfg, now, Skipped));
    forall p: Pod ensures all[p] == multiset(pods)[p] {
      CountInAll(pods, cfg, now, p);
    }
  }

  /* ----- Monotone in time and in options ----- */

  /** Later classification changes a verdict only from Terminating to Stuck. */
  lemma TimeMonotone(pod: Pod, cfg: DrainConfig, now: Time, later: Time)
    requires now <= later
    ensures Classify(pod, cfg, later) == Classify(pod, cfg, now)
            || (Classify(pod, cfg, now) == Terminating && Classify(pod, cfg, later) == Stuck)
    ensures Classify(pod, cfg, now) == Terminating && Classify(pod, cfg, later) == Stuck
            <==> !pod.mirror && pod.deletionTimestamp.Some? && now <= StuckDeadline(pod) < later
  {
  }

  ghost predicate Looser(a: DrainConfig, b: DrainConfig) {
    && (a.ignoreDaemonSets ==> b.ignoreDaemonSets)
    && (a.deleteEmptyDirData ==> b.deleteEmptyDirData)
    && (a.force ==> b.force)
  }

  /** Loosening the options moves a pod only out of Blocked, to Evictable or Skipped. */
  lemma LooserClass(p: Pod, a: DrainConfig, b: DrainConfig, now: Time)
    requires Looser(a, b)
    ensures Classify(p, a, now) != Blocked ==> Classify(p, b, now) == Classify(p, a, now)
    ensures Classify(p, a, now) == Blocked ==> Classify(p, b, now) in {Blocked, Evictable, Skipped}
  {
  }

  /** Bucket by bucket: all but Blocked only grow, and what they gain was blocked before. */
  lemma LooserUnblocks(pods: seq<Pod>, a: DrainConfig, b: DrainConfig, now: Time, c: PodClass, p: Pod)
    requires Looser(a, b)
    ensures c != Blocked ==> multiset(OfClass(pods, a, now, c))[p] <= multiset(OfClass(pods, b, now, c))[p]
    ensures c != Evictable && c != Skipped
            ==> multiset(OfClass(pods, b, now, c))[p] <= multiset(OfClass(pods, a, now, c))[p]
    ensures c != Blocked && multiset(OfClass(pods, a, now, c))[p] < multiset(OfClass(pods, b, now, c))[p]
            ==> p in pods && Classify(p, a, now) == Blocked
  {
    LooserClass(p, a, b, now);
    hide Classify, OfClass;
    CountOfClass(pods, a, now, c, p);
    CountOfClass(pods, b, now, c, p);
  }

  /* ----- Pods that keep a node from being drained ----- */

  /** Not skipped unless a deletion is under way: what a drained node must not hold. */
  predicate Workload(pod: Pod, cfg: DrainConfig) {
    !pod.mirror && !Finished(pod) && !(IsDaemonSetPod(pod) && cfg.ignoreDaemonSets)
  }

  lemma SkippedIsNoWorkload(pod: Pod, cfg: DrainConfig, now: Time)
    ensures Classify(pod, cfg, now) == Skipped ==> !Workload(pod, cfg)
    ensures pod.deletionTimestamp.None? ==> (Classify(pod, cfg, now) == Skipped <==> !Workload(pod, cfg))
  {
  }

  /* ----- Configuration issues shown in the preview ----- */

  datatype PreviewKind = DaemonSetPod | UncontrolledPod | EmptyDirVolume | BlockedPod

  datatype PreviewIssue = PreviewIssue(kind: PreviewKind, pod: PodId)

  method BuildConfigIssues(blocked: seq<Pod>) returns (issues: seq<PreviewIssue>)
    ensures |issues| == |blocked|
    ensures forall i :: 0 <= i < |blocked| ==> issues[i].pod == blocked[i].id
    ensures forall i :: 0 <= i < |blocked| ==>
      (issues[i].kind == BlockedPod <==>
       !IsDaemonSetPod(blocked[i]) && HasController(blocked[i]) && !HasEmptyDir(blocked[i]))
    ensures forall i :: 0 <= i < |blocked| ==> (issues[i].kind == DaemonSetPod <==> IsDaemonSetPod(blocked[i]))
    ensures forall i :: 0 <= i < |blocked| ==>
      (issues[i].kind == UncontrolledPod <==> !IsDaemonSetPod(blocked[i]) && !HasController(blocked[i]))
  {
    issues := [];
    for i := 0 to |blocked|
      invariant |issues| == i
      invariant forall k :: 0 <= k < i ==> issues[k].pod == blocked[k].id
      invariant forall k :: 0 <= k < i ==>
        (issues[k].kind == BlockedPod <==>
         !IsDaemonSetPod(blocked[k]) && HasController(blocked[k]) && !HasEmptyDir(blocked[k]))
      invariant forall k :: 0 <= k < i ==> (issues[k].kind == DaemonSetPod <==> IsDaemonSetPod(blocked[k]))
      invariant forall k :: 0 <= k < i ==>
        (issues[k].kind == UncontrolledPod <==> !IsDaemonSetPod(blocked[k]) && !HasController(blocked[k]))
    {
      var pod := blocked[i];
      var kind;
      if IsDaemonSetPod(pod) {
        kind := DaemonSetPod;
      } else if !HasController(pod) {
        kind := UncontrolledPod;
      } else if HasEmptyDir(pod) {
        kind := EmptyDirVolume;
      } else {
        kind := BlockedPod;
      }
      issues := issues + [PreviewIssue(kind, pod.id)];
    }
  }

  /** Of the pods that classification blocks, none reaches the catch-all label. */
  method PreviewConfigIssues(pods: seq<Pod>, cfg: DrainConfig, now: Time) returns (issues: seq<PreviewIssue>)
    ensures |issues| == |OfClass(pods, cfg, now, Blocked)|
    ensures forall i :: 0 <= i < |issues| ==> issues[i].kind != BlockedPod
    ensures forall i :: 0 <= i < |issues| ==> issues[i].pod == OfClass(pods, cfg, now, Blocked)[i].id
  {
    var r := ClassifyPods(pods, cfg, now);
    assert r.blocked == r.Bucket(Blocked) == OfClass(pods, cfg, now, Blocked);
    assert forall i | 0 <= i < |r.blocked| :: r.blocked[i] in r.blocked;
    issues := BuildConfigIssues(r.blocked);
  }
}
