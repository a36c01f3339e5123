/**
 One replica's certificate bootstrap, call by call, while other replicas move.
 */
module CertBootstrap {
  import opened Api
  import opened CertProtocol

  /** The replica that a step belongs to; time is nobody's. */
  function Actor(step: CertStep): Option<Replica> {
    match step
    case Age(_, _) => None
    case _ => Some(step.r)
  }

  /** From a to b only others moved. */
  ghost predicate Elsewhere(a: CertRun, b: CertRun, r: Replica) {
    a == b || (b.After? && Elsewhere(a, b.before, r) && Actor(b.step) != Some(r))
  }

  /** What only ever comes into being. */
  predicate Grown(a: Certs, b: Certs) {
    && b.places == a.places
    && (a.secret.Some? ==> b.secret.Some?)
    && (a.bundle.Some? ==> b.bundle.Some?)
  }

  /** The certificates replica r has are those it had; they may have come due. */
  predicate SameCerts(a: Certs, b: Certs, r: Replica) {
    && SameCert(a, b, Place(r, Webhook)) && SameCert(a, b, Place(r, Metrics))
  }

  predicate SameCert(a: Certs, b: Certs, place: Place) {
    SameAt(a.disk, b.disk, place) && (NeedsRenewal(a, place) ==> NeedsRenewal(b, place))
  }

  /** Replica r is where it was. */
  predicate Unmoved(a: Certs, b: Certs, r: Replica) {
    ProgressOf(b, r) == ProgressOf(a, r) && SameCerts(a, b, r)
  }

  lemma StepElsewhere(c: Certs, step: CertStep, c': Certs, r: Replica)
    requires CertDoes(c, step, c')
    ensures Grown(c, c')
    ensures Actor(step) != Some(r) ==> Unmoved(c, c', r)
  {
  }

  /** Nobody else writes a replica's disk or moves it along. */
  lemma {:induction false} OthersLeaveAlone(a: CertRun, b: CertRun, r: Replica)
    requires LawfulCerts(b) && Elsewhere(a, b, r)
    ensures Continues(a, b) && Grown(a.certs, b.certs) && Unmoved(a.certs, b.certs, r)
  {
    if a != b {
      OthersLeaveAlone(a, b.before, r);
      StepElsewhere(b.before.certs, b.step, b.certs, r);
    }
  }

  lemma {:induction false} ContinuesTransitive(a: CertRun, b: CertRun, c: CertRun)
    requires Continues(a, b) && Continues(b, c)
    ensures Continues(a, c)
  {
    if b != c {
      ContinuesTransitive(a, b, c.before);
    }
  }

  /** The Secret, the webhook configuration and all disks, with their history. On a calm cloud
      nothing else moves and no call fails. */
  class Cloud {
    var certs: Certs
    ghost var run: CertRun
    const calm: bool

    ghost predicate Valid()
      reads this
    {
      run.certs == certs && LawfulCerts(run)
    }

    constructor (certs: Certs, calm: bool)
      requires NothingYet(certs)
      ensures Valid() && this.certs == certs && run == Begun(certs) && this.calm == calm
    {
      this.certs := certs;
      this.calm := calm;
      this.run := Begun(certs);
    }

    /** Other replicas and time, between two calls of replica r. */
    method Interfere(r: Replica)
      requires Valid()
      modifies this
      ensures Valid() && Elsewhere(old(run), run, r)
      ensures calm ==> certs == old(certs)
    {
    }

    /** Whether the API or the disk fails the next call. */
    method Fails() returns (failed: bool)
      ensures calm ==> !failed
    {
      failed := false;
      if !calm {
        if * {
          failed := true;
        }
      }
    }

    method Commit(ghost step: CertStep, next: Certs)
      requires Valid() && CertDoes(certs, step, next)
      modifies this
      ensures Valid() && certs == next && run == After(old(run), step, next)
    {
      certs := next;
      run := After(run, step, next);
    }
  }

  lemma {:induction false} ExpiringWereMade(run: CertRun)
    requires LawfulCerts(run)
    ensures forall ca :: ca in run.certs.expiring ==> ca < run.certs.made
  {
    if run.After? {
      ExpiringWereMade(run.before);
    }
  }

  /** One replica's bootstrapper: each call may fail, and others move before it. */
  class CertBootstrapper {
    const cloud: Cloud
    const id: Replica

    constructor (cloud: Cloud, id: Replica)
      ensures this.cloud == cloud && this.id == id
    {
      this.cloud, this.id := cloud, id;
    }

    ghost predicate At(phase: Progress)
      reads cloud
    {
      cloud.Valid() && ProgressOf(cloud.certs, id) == phase
    }

    predicate Configured(p: Purpose)
      reads cloud
    {
      Place(id, p) in cloud.certs.places
    }

    /** The run went on from there. */
    ghost predicate Since(before: CertRun)
      reads cloud
    {
      cloud.Valid() && Continues(before, cloud.run) && Grown(before.certs, cloud.certs)
    }

    lemma SinceTransitive(a: CertRun, b: CertRun)
      requires Continues(a, b) && Grown(a.certs, b.certs) && Since(b)
      ensures Since(a)
    {
      ContinuesTransitive(a, b, cloud.run);
    }

    method Pause()
      requires cloud.Valid()
      modifies cloud
      ensures Since(old(cloud.run)) && Unmoved(old(cloud.certs), cloud.certs, id)
      ensures cloud.calm ==> cloud.certs == old(cloud.certs)
    {
      ghost var before := cloud.run;
      cloud.Interfere(id);
      OthersLeaveAlone(before, cloud.run, id);
    }

    /** One step of this replica. */
    method Do(ghost step: CertStep, next: Certs)
      requires cloud.Valid() && CertDoes(cloud.certs, step, next)
      modifies cloud
      ensures Since(old(cloud.run)) && cloud.certs == next && cloud.run == After(old(cloud.run), step, next)
    {
      StepElsewhere(cloud.certs, step, next, id);
      cloud.Commit(step, next);
    }

    method GiveUp()
      requires cloud.Valid()
      modifies cloud
      ensures Since(old(cloud.run)) && At(Idle) && cloud.certs == Enter(old(cloud.certs), id, Idle)
    {
      Do(Quit(id), Enter(cloud.certs, id, Idle));
    }

    /** Only where the replicas stand may differ. */
    predicate SameApart(a: Certs, b: Certs) {
      b == a.(phases := b.phases)
    }

    /** A new CA is in the Secret. */
    predicate NewCA(a: Certs, b: Certs) {
      SameApart(a.(secret := Some(a.made), made := a.made + 1), b)
    }

    predicate Renews(c: Certs, p: Purpose, rotated: bool) {
      Place(id, p) in c.places && (rotated || NeedsRenewal(c, Place(id, p)))
    }

    /** There is a CA that is not due, and neither is a certificate of this replica, nor is one missing. */
    ghost predicate AllWell(c: Certs) {
      && c.secret.Some? && c.secret.value !in c.expiring
      && forall p :: Place(id, p) in c.places ==> Place(id, p) in c.disk && Place(id, p) !in c.due
    }

    /** The CA is new to this replica: created, put in place of one that was due, or another's that
        won the race. */
    predicate MadeNew(step: CertStep, r: Replica) {
      (step.Create? || step.Rotate? || step.Reread?) && step.r == r
    }

    /** Reads the Secret and reuses its CA, rotates it when it is due, or creates it; the loser
        of a creation race reads the winner's. */
    method EnsureCA() returns (ok: bool, ca: CA, rotated: bool)
      requires At(Idle)
      modifies cloud
      ensures Since(old(cloud.run)) && SameCerts(old(cloud.certs), cloud.certs, id)
      ensures cloud.calm ==>
        && ok && cloud.certs.secret == Some(ca)
        && (rotated <==> old(cloud.certs).secret.None? || old(cloud.certs).secret.value in old(cloud.certs).expiring)
        && (if rotated then ca == old(cloud.certs).made && NewCA(old(cloud.certs), cloud.certs)
            else SameApart(old(cloud.certs), cloud.certs))
      ensures At(if ok then Holding(ca, rotated) else Idle)
      ensures ok ==> cloud.run.After? && (if rotated then MadeNew(cloud.run.step, id) else cloud.run.step == Find(id))
    {
      hide CertDoes, Continues, LawfulCerts;
      ghost var start := cloud.run;
      ok, ca, rotated := false, 0, false;
      Pause();
      ghost var read := cloud.run;
      var failed := cloud.Fails();
      if failed {
        return;
      }
      if cloud.certs.secret.Some? {
        if cloud.certs.secret.value !in cloud.certs.expiring {
          ca := cloud.certs.secret.value;
          Answer(Find(id), Holding(ca, false));
          ok := true;
        } else {
          Answer(FindExpiring(id), SawExpiring);
          ghost var asked := cloud.run;
          ok, ca := RotateCA();
          rotated := ok;
          SinceTransitive(read, asked);
        }
      } else {
        Answer(FindNone(id), SawNone);
        ghost var asked := cloud.run;
        ok, ca := CreateCA();
        rotated := ok;
        SinceTransitive(read, asked);
      }
      SinceTransitive(start, read);
    }

    /** A step that only tells this replica something. */
    method Answer(ghost step: CertStep, next: Progress)
      requires cloud.Valid() && CertDoes(cloud.certs, step, Enter(cloud.certs, id, next))
      modifies cloud
      ensures Since(old(cloud.run)) && cloud.certs == Enter(old(cloud.certs), id, next)
      ensures cloud.run == After(old(cloud.run), step, cloud.certs)
    {
      Do(step, Enter(cloud.certs, id, next));
    }

    method RotateCA() returns (ok: bool, ca: CA)
      requires At(SawExpiring) && cloud.certs.secret.Some?
      modifies cloud
      ensures Since(old(cloud.run)) && SameCerts(old(cloud.certs), cloud.certs, id)
      ensures cloud.calm ==> ok && ca == old(cloud.certs).made && NewCA(old(cloud.certs), cloud.certs)
      ensures At(if ok then Holding(ca, true) else Idle)
      ensures ok ==> cloud.run.After? && MadeNew(cloud.run.step, id)
    {
      ghost var start := cloud.run;
      Pause();
      ghost var mid := cloud.run;
      ca := cloud.certs.made;
      var failed := cloud.Fails();
      if failed {
        GiveUp();
        ok := false;
      } else {
        Do(Rotate(id, ca), Enter(cloud.certs.(secret := Some(ca), made := ca + 1), id, Holding(ca, true)));
        ok := true;
      }
      SinceTransitive(start, mid);
    }

    method CreateCA() returns (ok: bool, ca: CA)
      requires At(SawNone) && (cloud.calm ==> cloud.certs.secret.None?)
      modifies cloud
      ensures Since(old(cloud.run)) && SameCerts(old(cloud.certs), cloud.certs, id)
      ensures cloud.calm ==> ok && ca == old(cloud.certs).made && NewCA(old(cloud.certs), cloud.certs)
      ensures At(if ok then Holding(ca, true) else Idle)
      ensures ok ==> cloud.run.After? && MadeNew(cloud.run.step, id)
    {
      ghost var start := cloud.run;
      Pause();
      ghost var mid := cloud.run;
      ca := cloud.certs.made;
      var failed := cloud.Fails();
      if failed {
        GiveUp();
        ok := false;
      } else if cloud.certs.secret.None? {
        Do(Create(id, ca), Enter(cloud.certs.(secret := Some(ca), made := ca + 1), id, Holding(ca, true)));
        ok := true;
      } else {
        Do(LoseRace(id), Enter(cloud.certs, id, LostRace));
        ghost var lost := cloud.run;
        ok, ca := ReadWinner();
        SinceTransitive(mid, lost);
      }
      SinceTransitive(start, mid);
    }

    method ReadWinner() returns (ok: bool, ca: CA)
      requires At(LostRace) && cloud.certs.secret.Some?
      modifies cloud
      ensures Since(old(cloud.run)) && SameCerts(old(cloud.certs), cloud.certs, id)
      ensures cloud.calm ==> ok
      ensures At(if ok then Holding(ca, true) else Idle)
      ensures ok ==> cloud.run.After? && MadeNew(cloud.run.step, id)
    {
      ghost var start := cloud.run;
      Pause();
      ghost var mid := cloud.run;
      ca := cloud.certs.secret.value;
      var failed := cloud.Fails();
      if failed {
        GiveUp();
        ok := false;
      } else {
        Do(Reread(id), Enter(cloud.certs, id, Holding(ca, true)));
        ok := true;
      }
      SinceTransitive(start, mid);
    }

    /** Reads the configuration, once it has appeared, and patches the difference. */
    method PatchCABundle(ca: CA, rotated: bool) returns (ok: bool, ghost asked: CertRun)
      requires At(Serving(ca, rotated))
      modifies cloud
      ensures Since(old(cloud.run)) && SameCerts(old(cloud.certs), cloud.certs, id)
      ensures cloud.calm ==> ok && SameApart(old(cloud.certs).(bundle := Some(ca)), cloud.certs)
      ensures At(if ok then WebhookDone(ca, rotated) else Idle)
      ensures ok ==> cloud.run == After(asked, PatchBundle(id), cloud.certs) && ProgressOf(asked.certs, id).Patching?
      ensures ok ==> cloud.certs.bundle.Some?
      ensures ok ==> (cloud.certs.bundle == Some(ca) <==>
                        ProgressOf(asked.certs, id).seen == Some(ca) ==> asked.certs.bundle == Some(ca))
    {
      hide Continues;
      ghost var start := cloud.run;
      Pause();
      ghost var mid := cloud.run;
      asked := mid;
      var failed := cloud.Fails();
      if failed {
        GiveUp();
        ok := false;
      } else {
        var seen := cloud.certs.bundle;
        Answer(ReadConfig(id), Patching(ca, rotated, seen));
        ghost var read := cloud.run;
        ok, asked := PatchConfig(ca, rotated, seen);
        SinceTransitive(mid, read);
      }
      SinceTransitive(start, mid);
    }

    method PatchConfig(ca: CA, rotated: bool, seen: Option<CA>) returns (ok: bool, ghost asked: CertRun)
      requires At(Patching(ca, rotated, seen))
      modifies cloud
      ensures Since(old(cloud.run)) && SameCerts(old(cloud.certs), cloud.certs, id)
      ensures cloud.calm ==> ok && asked.certs == old(cloud.certs)
      ensures ok ==> SameApart(asked.certs.(bundle := cloud.certs.bundle), cloud.certs)
      ensures At(if ok then WebhookDone(ca, rotated) else Idle)
      ensures ok ==> cloud.run == After(asked, PatchBundle(id), cloud.certs)
      ensures ok ==> ProgressOf(asked.certs, id) == Patching(ca, rotated, seen)
      ensures ok ==> cloud.certs.bundle.Some?
      ensures ok ==> cloud.certs.bundle == if seen == Some(ca) then asked.certs.bundle else Some(ca)
    {
      hide Continues;
      ghost var start := cloud.run;
      Pause();
      asked := cloud.run;
      var failed := cloud.Fails();
      if failed {
        GiveUp();
        ok := false;
      } else {
        PublishedAfterCreation(asked);
        var bundle := if seen == Some(ca) then cloud.certs.bundle else Some(ca);
        Do(PatchBundle(id), Enter(cloud.certs.(bundle := bundle), id, WebhookDone(ca, rotated)));
        ok := true;
      }
      SinceTransitive(start, asked);
    }

    method ServeWebhook(ca: CA, rotated: bool) returns (ok: bool)
      requires At(Holding(ca, rotated))
      modifies cloud
      ensures Since(old(cloud.run))
      ensures cloud.calm ==>
        && ok
        && SameApart(if Renews(old(cloud.certs), Webhook, rotated)
                     then Written(old(cloud.certs), Place(id, Webhook), ca).(bundle := Some(ca)) else old(cloud.certs),
                     cloud.certs)
      ensures At(if ok then WebhookDone(ca, rotated) else Idle)
      ensures SameCert(old(cloud.certs), cloud.certs, Place(id, Metrics))
      ensures ok && Configured(Webhook) ==> Place(id, Webhook) in cloud.certs.disk
      ensures ok && Configured(Webhook) && rotated ==> cloud.certs.disk[Place(id, Webhook)] == ca
      ensures ok && Configured(Webhook) && (rotated || NeedsRenewal(old(cloud.certs), Place(id, Webhook)))
              ==> cloud.certs.bundle.Some?
    {
      hide Continues;
      ghost var start := cloud.run;
      Pause();
      ghost var mid := cloud.run;
      var place := Place(id, Webhook);
      if place in cloud.certs.places && (rotated || NeedsRenewal(cloud.certs, place)) {
        var failed := cloud.Fails();
        if failed {
          GiveUp();
          ok := false;
        } else {
          Do(WriteWebhookCert(id), Enter(Written(cloud.certs, place, ca), id, Serving(ca, rotated)));
          ghost var written, asked := cloud.run, mid;
          ok, asked := PatchCABundle(ca, rotated);
          SinceTransitive(mid, written);
        }
      } else {
        Do(KeepWebhookCert(id), Enter(cloud.certs, id, WebhookDone(ca, rotated)));
        ok := true;
      }
      SinceTransitive(start, mid);
    }

    method ServeMetrics(ca: CA, rotated: bool) returns (ok: bool)
      requires At(WebhookDone(ca, rotated))
      modifies cloud
      ensures cloud.calm ==>
        && ok
        && SameApart(if Renews(old(cloud.certs), Metrics, rotated)
                     then Written(old(cloud.certs), Place(id, Metrics), ca) else old(cloud.certs), cloud.certs)
      ensures Since(old(cloud.run)) && At(Idle)
      ensures SameCert(old(cloud.certs), cloud.certs, Place(id, Webhook))
      ensures ok ==> Completes(cloud.run, id)
      ensures ok && Configured(Metrics) ==> Place(id, Metrics) in cloud.certs.disk
      ensures ok && Configured(Metrics) && rotated ==> cloud.certs.disk[Place(id, Metrics)] == ca
    {
      hide Continues;
      ghost var start := cloud.run;
      Pause();
      ghost var mid := cloud.run;
      var place := Place(id, Metrics);
      ok := true;
      if place in cloud.certs.places && (rotated || NeedsRenewal(cloud.certs, place)) {
        var failed := cloud.Fails();
        if failed {
          GiveUp();
          ok := false;
        } else {
          Do(WriteMetricsCert(id), Enter(Written(cloud.certs, place, ca), id, Idle));
        }
      } else {
        Do(KeepMetricsCert(id), Enter(cloud.certs, id, Idle));
      }
      SinceTransitive(start, mid);
    }

    /** A call that succeeds leaves a certificate in every configured directory; until a CA is
        due for renewal it is signed by the Secret's CA, and a caBundle that is set holds it.
        It leaves the caBundle unset exactly when it kept its webhook certificate and nobody
        published; so never when it started with a certificate missing or due. */
    method EnsureCerts() returns (ok: bool)
      requires At(Idle)
      modifies cloud
      ensures Since(old(cloud.run)) && At(Idle)
      ensures cloud.calm ==> ok && AllWell(cloud.certs)
      ensures cloud.calm && AllWell(old(cloud.certs)) ==> SameApart(old(cloud.certs), cloud.certs)
      ensures ok ==> forall p :: Configured(p) ==> Place(id, p) in cloud.certs.disk
      ensures cloud.certs.expiring == {} ==> Agreed(cloud.certs)
      ensures ok && cloud.certs.expiring == {} ==>
        forall p :: Configured(p) ==> cloud.certs.secret == Some(cloud.certs.disk[Place(id, p)])
      ensures ok && Configured(Webhook) ==>
        (cloud.certs.bundle.None? <==>
           && WebhookCheck(cloud.run, id).certs.bundle.None? && Keeps(WebhookCheck(cloud.run, id).certs, id)
           && NobodyPublished(cloud.run, id))
      ensures ok && Configured(Webhook) && NeedsRenewal(old(cloud.certs), Place(id, Webhook)) ==> cloud.certs.bundle.Some?
    {
      hide Continues, LawfulCerts, Agreed, WebhookCheck, NobodyPublished, Keeps;
      ghost var start := cloud.run;
      ExpiringWereMade(start);
      var ca, rotated;
      ok, ca, rotated := EnsureCA();
      if ok {
        ghost var held := cloud.run;
        ok := ServeWebhook(ca, rotated);
        SinceTransitive(start, held);
        if ok {
          ghost var served := cloud.run;
          ok := ServeMetrics(ca, rotated);
          SinceTransitive(start, served);
        }
      }
      if ok && Configured(Webhook) {
        BundleUnsetIff(cloud.run, id);
      }
      forall p | ok && Configured(p) ensures Place(id, p) in cloud.certs.disk {
        assert Configured(Webhook) ==> Place(id, Webhook) in cloud.certs.disk;
        assert p.Webhook? || p.Metrics?;
      }
      if cloud.calm {
        assert Place(id, Webhook) in cloud.certs.places ==>
          Place(id, Webhook) in cloud.certs.disk && Place(id, Webhook) !in cloud.certs.due;
        assert Place(id, Metrics) in cloud.certs.places ==>
          Place(id, Metrics) in cloud.certs.disk && Place(id, Metrics) !in cloud.certs.due;
        forall p | Place(id, p) in cloud.certs.places
          ensures Place(id, p) in cloud.certs.disk && Place(id, p) !in cloud.certs.due
        {
          assert p.Webhook? || p.Metrics?;
        }
      }
      if cloud.certs.expiring == {} {
        Agreement(cloud.run);
        if ok {
          AgreedOnDisk(cloud.certs);
        }
      }
    }
  }

  /** Two calls in a row on a calm cloud: the second finds nothing to do. */
  method EnsureTwice(cloud: Cloud, id: Replica) returns (ghost between: Certs)
    requires cloud.Valid() && cloud.calm && ProgressOf(cloud.certs, id) == Idle
    modifies cloud
    ensures cloud.Valid() && cloud.certs == between.(phases := cloud.certs.phases)
  {
    var bootstrapper := new CertBootstrapper(cloud, id);
    var ok := bootstrapper.EnsureCerts();
    between := cloud.certs;
    ok := bootstrapper.EnsureCerts();
  }

  lemma AgreedOnDisk(c: Certs)
    requires Agreed(c)
    ensures forall place :: place in c.disk ==> c.secret == Some(c.disk[place])
  {
  }
}
