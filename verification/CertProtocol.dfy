/**
 The shared certificate authority: any number of replicas agree on it through one Secret,
 sign their own server certificates with it, and publish it as the webhook's caBundle.

 CAs are ids, a certificate is the id of the CA that signed it. Each API call and each
 certificate written to disk is one step; replicas interleave at every step, fail and restart.
 */
module CertProtocol {
  import opened Api

  type CA = nat

  type Replica = int

  datatype Purpose = Webhook | Metrics

  datatype Place = Place(replica: Replica, purpose: Purpose)

  /** Where a replica stands in EnsureCerts; `rotated` is what ensureCA returned. */
  datatype Progress =
    | Idle
    | SawNone
    | SawExpiring
    | LostRace
    | Holding(ca: CA, rotated: bool)
    | Serving(ca: CA, rotated: bool)
    | Patching(ca: CA, rotated: bool, seen: Option<CA>)
    | WebhookDone(ca: CA, rotated: bool)

  /** `places` are the directories configured, `made` counts the CAs generated, which number
      them, `expiring` are those that have come into their renewal window, and `due` are the
      places whose certificate has, or can no longer be read. */
  datatype Certs = Certs(
    secret: Option<CA>,
    bundle: Option<CA>,
    disk: map<Place, CA>,
    phases: map<Replica, Progress>,
    places: set<Place>,
    made: nat,
    expiring: set<CA>,
    due: set<Place>
  )

  datatype CertStep =
    | Age(cas: set<CA>, places: set<Place>)
    | Find(r: Replica)
    | FindNone(r: Replica)
    | FindExpiring(r: Replica)
    | Create(r: Replica, ca: CA)
    | LoseRace(r: Replica)
    | Reread(r: Replica)
    | Rotate(r: Replica, ca: CA)
    | WriteWebhookCert(r: Replica)
    | KeepWebhookCert(r: Replica)
    | ReadConfig(r: Replica)
    | PatchBundle(r: Replica)
    | WriteMetricsCert(r: Replica)
    | KeepMetricsCert(r: Replica)
    | Quit(r: Replica)
    | Restart(r: Replica, lost: set<Place>)

  datatype CertRun = Begun(certs: Certs) | After(before: CertRun, step: CertStep, certs: Certs)

  function ProgressOf(c: Certs, r: Replica): Progress {
    if r in c.phases then c.phases[r] else Idle
  }

  function Enter(c: Certs, r: Replica, phase: Progress): Certs {
    c.(phases := c.phases[r := phase])
  }

  /** The certificate is missing, unreadable or due. Whose signature it carries is not looked at. */
  predicate NeedsRenewal(c: Certs, place: Place) {
    place !in c.disk || place in c.due
  }

  function Written(c: Certs, place: Place, ca: CA): Certs {
    c.(disk := c.disk[place := ca], due := c.due - {place})
  }

  /** The patch carries the difference to the configuration as it was read: none, when that
      held this CA already. */
  function Patched(phase: Progress, bundle: Option<CA>): Option<CA>
    requires phase.Patching?
  {
    if phase.seen == Some(phase.ca) then bundle else Some(phase.ca)
  }

  predicate CertDoes(c: Certs, step: CertStep, c': Certs) {
    match step
    case Age(cas, places) =>
      && (forall ca :: ca in cas ==> ca < c.made)
      && c' == c.(expiring := c.expiring + cas, due := c.due + places)
    case Find(r) =>
      && ProgressOf(c, r).Idle? && c.secret.Some? && c.secret.value !in c.expiring
      && c' == Enter(c, r, Holding(c.secret.value, false))
    case FindNone(r) => ProgressOf(c, r).Idle? && c.secret.None? && c' == Enter(c, r, SawNone)
    case FindExpiring(r) =>
      && ProgressOf(c, r).Idle? && c.secret.Some? && c.secret.value in c.expiring
      && c' == Enter(c, r, SawExpiring)
    case Create(r, ca) =>
      && ProgressOf(c, r).SawNone? && c.secret.None? && ca == c.made
      && c' == Enter(c.(secret := Some(ca), made := c.made + 1), r, Holding(ca, true))
    case LoseRace(r) => ProgressOf(c, r).SawNone? && c.secret.Some? && c' == Enter(c, r, LostRace)
    case Reread(r) =>
      && ProgressOf(c, r).LostRace? && c.secret.Some?
      && c' == Enter(c, r, Holding(c.secret.value, true))
    case Rotate(r, ca) =>
      && ProgressOf(c, r).SawExpiring? && c.secret.Some? && ca == c.made
      && c' == Enter(c.(secret := Some(ca), made := c.made + 1), r, Holding(ca, true))
    case WriteWebhookCert(r) =>
      && ProgressOf(c, r).Holding? && Place(r, Webhook) in c.places
      && (ProgressOf(c, r).rotated || NeedsRenewal(c, Place(r, Webhook)))
      && c' == Enter(Written(c, Place(r, Webhook), ProgressOf(c, r).ca), r,
                     Serving(ProgressOf(c, r).ca, ProgressOf(c, r).rotated))
    case KeepWebhookCert(r) =>
      && ProgressOf(c, r).Holding?
      && (Place(r, Webhook) !in c.places || (!ProgressOf(c, r).rotated && !NeedsRenewal(c, Place(r, Webhook))))
      && c' == Enter(c, r, WebhookDone(ProgressOf(c, r).ca, ProgressOf(c, r).rotated))
    case ReadConfig(r) =>
      && ProgressOf(c, r).Serving?
      && c' == Enter(c, r, Patching(ProgressOf(c, r).ca, ProgressOf(c, r).rotated, c.bundle))
    case PatchBundle(r) =>
      && ProgressOf(c, r).Patching?
      && c' == Enter(c.(bundle := Patched(ProgressOf(c, r), c.bundle)), r,
                     WebhookDone(ProgressOf(c, r).ca, ProgressOf(c, r).rotated))
    case WriteMetricsCert(r) =>
      && ProgressOf(c, r).WebhookDone? && Place(r, Metrics) in c.places
      && (ProgressOf(c, r).rotated || NeedsRenewal(c, Place(r, Metrics)))
      && c' == Enter(Written(c, Place(r, Metrics), ProgressOf(c, r).ca), r, Idle)
    case KeepMetricsCert(r) =>
      && ProgressOf(c, r).WebhookDone?
      && (Place(r, Metrics) !in c.places || (!ProgressOf(c, r).rotated && !NeedsRenewal(c, Place(r, Metrics))))
      && c' == Enter(c, r, Idle)
    case Quit(r) => c' == Enter(c, r, Idle)
    case Restart(r, lost) =>
      && (forall place :: place in lost ==> place.replica == r)
      && c' == Enter(c.(disk := c.disk - lost), r, Idle)
  }

  /** No Secret yet, an empty caBundle, no replica running. */
  predicate NothingYet(c: Certs) {
    && c.secret.None? && c.bundle.None? && c.disk == map[] && c.phases == map[] && c.made == 0
    && c.expiring == {} && c.due == {}
  }

  ghost predicate LawfulCerts(run: CertRun) {
    match run
    case Begun(c) => NothingYet(c)
    case After(before, step, c) => LawfulCerts(before) && CertDoes(before.certs, step, c)
  }

  /* ----- Agreement ----- */

  predicate PastEnsureCA(phase: Progress) {
    phase.Holding? || phase.Serving? || phase.Patching? || phase.WebhookDone?
  }

  /** Everyone uses the Secret's CA. */
  ghost predicate Agreed(c: Certs) {
    && (forall r :: r in c.phases && PastEnsureCA(c.phases[r]) ==> c.secret == Some(c.phases[r].ca))
    && (forall place :: place in c.disk ==> c.secret == Some(c.disk[place]))
    && (c.bundle.Some? ==> c.secret == c.bundle)
  }

  predicate Rotates(run: CertRun) {
    run.After? && (run.step.Rotate? || Rotates(run.before))
  }

  lemma StepKeepsAgreement(c: Certs, step: CertStep, c': Certs)
    requires Agreed(c) && CertDoes(c, step, c') && !step.Rotate?
    ensures Agreed(c')
    ensures c.secret.Some? ==> c'.secret == c.secret
  {
  }

  lemma {:induction false} AgreedUntilRotation(run: CertRun)
    requires LawfulCerts(run) && !Rotates(run)
    ensures Agreed(run.certs)
  {
    if run.After? {
      AgreedUntilRotation(run.before);
      StepKeepsAgreement(run.before.certs, run.step, run.certs);
    }
  }

  /** While no CA has come into its renewal window nothing has been rotated. */
  lemma {:induction false} NoRotationBeforeRenewal(run: CertRun)
    requires LawfulCerts(run) && run.certs.expiring == {}
    ensures !Rotates(run) && NoneDue(run.certs)
  {
    if run.After? {
      DueStaysDue(run.before.certs, run.step, run.certs);
      assert run.before.certs.expiring == {};
      NoRotationBeforeRenewal(run.before);
      NoneDueStep(run.before.certs, run.step, run.certs);
    }
  }

  ghost predicate NoneDue(c: Certs) {
    && (forall r :: r in c.phases ==> !c.phases[r].SawExpiring?)
    && (c.secret.Some? ==> c.secret.value < c.made)
  }

  lemma NoneDueStep(c: Certs, step: CertStep, c': Certs)
    requires NoneDue(c) && CertDoes(c, step, c') && c'.expiring == {}
    ensures NoneDue(c') && !step.Rotate? && c.expiring == {}
  {
    DueStaysDue(c, step, c');
  }

  lemma DueStaysDue(c: Certs, step: CertStep, c': Certs)
    requires CertDoes(c, step, c')
    ensures c.expiring <= c'.expiring
  {
  }

  /** Any number of replicas, starting without a Secret, failing and restarting anywhere: as
      long as no CA is due for renewal, every replica past ensureCA holds the Secret's CA,
      every certificate on a disk is signed by it, and the caBundle is unset or that CA. */
  lemma Agreement(run: CertRun)
    requires LawfulCerts(run) && run.certs.expiring == {}
    ensures Agreed(run.certs)
  {
    NoRotationBeforeRenewal(run);
    AgreedUntilRotation(run);
  }

  ghost predicate Continues(a: CertRun, b: CertRun) {
    a == b || (b.After? && Continues(a, b.before))
  }

  /** Once there is a Secret it is never replaced but by a rotation. */
  lemma {:induction false} SecretStays(a: CertRun, b: CertRun)
    requires LawfulCerts(b) && Continues(a, b) && !Rotates(b) && a.certs.secret.Some?
    ensures b.certs.secret == a.certs.secret
  {
    if a != b {
      SecretStays(a, b.before);
    }
  }

  /** At most one replica creates the Secret: its CA is the only one ever in use. */
  predicate Created(run: CertRun, ca: CA) {
    run.After? && ((run.step.Create? && run.step.ca == ca) || Created(run.before, ca))
  }

  lemma {:induction false} OneCreation(run: CertRun, ca: CA)
    requires LawfulCerts(run) && !Rotates(run)
    ensures Created(run, ca) <==> run.certs.secret == Some(ca)
  {
    if run.After? {
      OneCreation(run.before, ca);
    }
  }

  /* ----- Rotation ----- */

  /** A rotation keeps the agreement exactly when nobody relies on the old CA: no
      certificate on any disk, no caBundle, no other replica past ensureCA. */
  lemma RotationKeepsAgreementIff(c: Certs, r: Replica, ca: CA, c': Certs)
    requires Agreed(c) && CertDoes(c, Rotate(r, ca), c')
    requires c.secret.Some? ==> c.secret.value < c.made
    ensures Agreed(c') <==> && c.disk == map[] && c.bundle.None?
                            && (forall q :: q in c.phases ==> !PastEnsureCA(c.phases[q]))
  {
    if place :| place in c.disk {
      assert place in c'.disk && c'.disk[place] == c.disk[place];
    }
    if q :| q in c.phases && PastEnsureCA(c.phases[q]) {
      assert q != r && q in c'.phases && c'.phases[q] == c.phases[q];
    }
  }

  lemma Lawfully(run: CertRun, step: CertStep, c: Certs) returns (next: CertRun)
    requires LawfulCerts(run) && CertDoes(run.certs, step, c)
    ensures next == After(run, step, c) && LawfulCerts(next)
  {
    next := After(run, step, c);
  }

  /** Replica r creates the Secret with the first CA and signs its webhook certificate. */
  lemma FirstReplica(c: Certs, r: Replica) returns (run: CertRun)
    requires NothingYet(c) && Place(r, Webhook) in c.places
    ensures LawfulCerts(run)
    ensures run.certs == Enter(c.(secret := Some(0), made := 1, disk := map[Place(r, Webhook) := 0]), r, Serving(0, true))
  {
    var c1 := Enter(c, r, SawNone);
    run := Lawfully(Begun(c), FindNone(r), c1);
    var c2 := Enter(c1.(secret := Some(0), made := 1), r, Holding(0, true));
    run := Lawfully(run, Create(r, 0), c2);
    var c3 := Enter(Written(c2, Place(r, Webhook), 0), r, Serving(0, true));
    run := Lawfully(run, WriteWebhookCert(r), c3);
    assert c3.phases == c.phases[r := Serving(0, true)] && c3.due == {};
  }

  /** A call cut short between the certificate and the caBundle leaves the caBundle unset, and
      the next call completes without setting it, as the certificate on disk is kept. */
  lemma BundleLeftUnset(c: Certs) returns (run: CertRun)
    requires NothingYet(c) && c.places == {Place(1, Webhook), Place(2, Webhook)}
    ensures LawfulCerts(run) && run.After? && run.step == KeepMetricsCert(1)
    ensures run.certs.bundle.None? && run.certs.secret.Some? && run.certs.expiring == {}
  {
    run := FirstReplica(c, 1);
    run := Lawfully(run, Quit(1), Enter(run.certs, 1, Idle));
    run := KeepsItsCert(run, 1);
  }

  /** An idle replica that finds a CA that is not due and has a certificate keeps it. */
  lemma KeepsItsCert(before: CertRun, r: Replica) returns (run: CertRun)
    requires LawfulCerts(before) && ProgressOf(before.certs, r).Idle?
    requires before.certs.secret.Some? && before.certs.secret.value !in before.certs.expiring
    requires !NeedsRenewal(before.certs, Place(r, Webhook)) && Place(r, Metrics) !in before.certs.places
    ensures LawfulCerts(run) && run.After? && run.step == KeepMetricsCert(r)
    ensures run.certs == before.certs.(phases := run.certs.phases)
  {
    var ca := before.certs.secret.value;
    var c1 := Enter(before.certs, r, Holding(ca, false));
    run := Lawfully(before, Find(r), c1);
    var c2 := Enter(c1, r, WebhookDone(ca, false));
    run := Lawfully(run, KeepWebhookCert(r), c2);
    run := Lawfully(run, KeepMetricsCert(r), Enter(c2, r, Idle));
  }

  /** A replica with a new certificate publishes its CA. */
  lemma Publishes(before: CertRun, r: Replica) returns (run: CertRun)
    requires LawfulCerts(before) && ProgressOf(before.certs, r).Serving?
    ensures LawfulCerts(run)
    ensures var phase := ProgressOf(before.certs, r);
            run.certs == Enter(before.certs.(bundle := Some(phase.ca)), r, WebhookDone(phase.ca, phase.rotated))
  {
    var c, phase := before.certs, ProgressOf(before.certs, r);
    var c1 := Enter(c, r, Patching(phase.ca, phase.rotated, c.bundle));
    run := Lawfully(before, ReadConfig(r), c1);
    var c2 := Enter(c1.(bundle := Some(phase.ca)), r, WebhookDone(phase.ca, phase.rotated));
    run := Lawfully(run, PatchBundle(r), c2);
    assert c2.phases == c.phases[r := WebhookDone(phase.ca, phase.rotated)];
  }

  /** An idle replica replaces a CA that is due, signs its certificate and publishes the CA. */
  lemma Replaces(before: CertRun, r: Replica) returns (run: CertRun)
    requires LawfulCerts(before) && ProgressOf(before.certs, r).Idle? && Place(r, Webhook) in before.certs.places
    requires before.certs.secret.Some? && before.certs.secret.value in before.certs.expiring
    ensures LawfulCerts(run)
    ensures var ca := before.certs.made;
            run.certs == before.certs.(secret := Some(ca), bundle := Some(ca), made := ca + 1,
                                       disk := before.certs.disk[Place(r, Webhook) := ca],
                                       due := before.certs.due - {Place(r, Webhook)},
                                       phases := before.certs.phases[r := WebhookDone(ca, true)])
  {
    var c, ca := before.certs, before.certs.made;
    var c1 := Enter(c, r, SawExpiring);
    run := Lawfully(before, FindExpiring(r), c1);
    var c2 := Enter(c1.(secret := Some(ca), made := ca + 1), r, Holding(ca, true));
    run := Lawfully(run, Rotate(r, ca), c2);
    var c3 := Enter(Written(c2, Place(r, Webhook), ca), r, Serving(ca, true));
    run := Lawfully(run, WriteWebhookCert(r), c3);
    run := Publishes(run, r);
    assert run.certs.phases == c.phases[r := WebhookDone(ca, true)];
  }

  /* ----- The caBundle ----- */

  /** A caBundle once read as set is set, and a call that replaced the CA, or lost the race to
      create it, has set it when it is past the webhook certificate. */
  ghost predicate Published(c: Certs) {
    forall r :: r in c.phases ==>
      && (c.phases[r].Patching? && c.phases[r].seen.Some? ==> c.bundle.Some?)
      && (c.phases[r].WebhookDone? && c.phases[r].rotated && Place(r, Webhook) in c.places ==> c.bundle.Some?)
  }

  lemma {:induction false} PublishedAfterCreation(run: CertRun)
    requires LawfulCerts(run)
    ensures Published(run.certs)
  {
    if run.After? {
      PublishedAfterCreation(run.before);
      PublishedStep(run.before.certs, run.step, run.certs);
    }
  }

  lemma PublishedStep(c: Certs, step: CertStep, c': Certs)
    requires Published(c) && CertDoes(c, step, c')
    ensures Published(c')
    ensures c'.bundle.None? <==> c.bundle.None? && !step.PatchBundle?
  {
    assert forall r :: r in c'.phases && r !in c.phases ==> ProgressOf(c, r).Idle?;
  }

  predicate ChecksWebhook(step: CertStep, r: Replica) {
    step == WriteWebhookCert(r) || step == KeepWebhookCert(r)
  }

  /** The run as it was when replica r last looked at its webhook certificate. */
  function WebhookCheck(run: CertRun, r: Replica): CertRun {
    if run.Begun? then run else if ChecksWebhook(run.step, r) then run.before else WebhookCheck(run.before, r)
  }

  /** Nobody has patched the configuration since. */
  predicate NobodyPublished(run: CertRun, r: Replica) {
    run.Begun? || ChecksWebhook(run.step, r) || (!run.step.PatchBundle? && NobodyPublished(run.before, r))
  }

  /** A replica that found the Secret's CA in use, and its own certificate neither missing nor due. */
  predicate Keeps(c: Certs, r: Replica) {
    ProgressOf(c, r).Holding? && !ProgressOf(c, r).rotated && !NeedsRenewal(c, Place(r, Webhook))
  }

  predicate Completes(run: CertRun, r: Replica) {
    run.After? && (run.step == WriteMetricsCert(r) || run.step == KeepMetricsCert(r))
  }

  lemma {:induction false} UnsetSinceCheck(run: CertRun, r: Replica)
    requires LawfulCerts(run)
    ensures run.certs.bundle.None? <==> WebhookCheck(run, r).certs.bundle.None? && NobodyPublished(run, r)
  {
    if run.After? {
      PublishedAfterCreation(run.before);
      PublishedStep(run.before.certs, run.step, run.certs);
      if !ChecksWebhook(run.step, r) {
        UnsetSinceCheck(run.before, r);
      }
    }
  }

  /** A replica that has written a certificate is on its way to publish, or has published. */
  predicate Publishing(c: Certs, r: Replica, kept: bool) {
    var phase := ProgressOf(c, r);
    && (phase.Serving? || phase.Patching? ==> !kept)
    && (phase.WebhookDone? ==> kept || c.bundle.Some?)
  }

  lemma PublishingStep(c: Certs, step: CertStep, c': Certs, r: Replica, kept: bool)
    requires CertDoes(c, step, c') && Place(r, Webhook) in c.places && Published(c) && Publishing(c, r, kept)
    ensures Publishing(c', r, if ChecksWebhook(step, r) then Keeps(c, r) else kept)
  {
    PublishedStep(c, step, c');
  }

  lemma {:induction false} WritersPublish(run: CertRun, r: Replica)
    requires LawfulCerts(run) && Place(r, Webhook) in run.certs.places
    ensures Publishing(run.certs, r, Keeps(WebhookCheck(run, r).certs, r))
  {
    hide Publishing, Keeps;
    if run.After? {
      PlacesStay(run.before.certs, run.step, run.certs);
      WritersPublish(run.before, r);
      PublishedAfterCreation(run.before);
      PublishingStep(run.before.certs, run.step, run.certs, r, Keeps(WebhookCheck(run.before, r).certs, r));
    } else {
      NonePublishing(run.certs, r);
    }
  }

  lemma PlacesStay(c: Certs, step: CertStep, c': Certs)
    requires CertDoes(c, step, c')
    ensures c'.places == c.places
  {
  }

  lemma NonePublishing(c: Certs, r: Replica)
    requires NothingYet(c)
    ensures forall kept: bool :: Publishing(c, r, kept)
  {
  }

  /** A completed call with a webhook directory leaves the caBundle unset exactly when, as it
      looked at its certificate, the caBundle was unset, the CA was reused and the certificate
      neither missing nor due, and no other replica published one before the call ended. */
  lemma BundleUnsetIff(run: CertRun, r: Replica)
    requires LawfulCerts(run) && Completes(run, r) && Place(r, Webhook) in run.certs.places
    ensures run.certs.bundle.None? <==>
      && WebhookCheck(run, r).certs.bundle.None? && Keeps(WebhookCheck(run, r).certs, r)
      && NobodyPublished(run, r)
  {
    WritersPublish(run.before, r);
    UnsetSinceCheck(run, r);
  }

  /** The patch leaves this replica's CA in the configuration unless it was read as there already
      and replaced since. */
  lemma PatchLandsIff(c: Certs, r: Replica, c': Certs)
    requires CertDoes(c, PatchBundle(r), c')
    ensures c'.bundle == Some(ProgressOf(c, r).ca) <==>
      ProgressOf(c, r).seen == Some(ProgressOf(c, r).ca) ==> c.bundle == Some(ProgressOf(c, r).ca)
  {
  }

  /** After a rotation by replica 1, replica 2 finds a CA that is not due, keeps its own
      certificate and completes, signed by a CA that is in neither Secret nor caBundle. */
  lemma RotationStrandsReplica(c: Certs) returns (run: CertRun)
    requires NothingYet(c) && c.places == {Place(1, Webhook), Place(2, Webhook)}
    ensures LawfulCerts(run) && run.After? && run.step == KeepMetricsCert(2)
    ensures run.certs.secret == run.certs.bundle == Some(1) && 1 !in run.certs.expiring
    ensures Place(2, Webhook) in run.certs.disk && run.certs.disk[Place(2, Webhook)] == 0
  {
    run := FirstReplica(c, 2);
    run := Lawfully(run, Quit(2), Enter(run.certs, 2, Idle));
    run := Lawfully(run, Age({0}, {}), run.certs.(expiring := {0}, due := {}));
    run := Replaces(run, 1);
    run := KeepsItsCert(run, 2);
  }

  /** The caBundle as replica r last read it. */
  function ConfigRead(run: CertRun, r: Replica): Option<CA> {
    if run.Begun? then run.certs.bundle
    else if run.step == ReadConfig(r) then run.before.certs.bundle
    else ConfigRead(run.before, r)
  }

  /** The CA of the last patch since that was not empty. */
  function LastPublished(run: CertRun, r: Replica): Option<CA> {
    if run.Begun? || run.step == ReadConfig(r) then None
    else if run.step.PatchBundle? && ProgressOf(run.before.certs, run.step.r).Patching?
            && ProgressOf(run.before.certs, run.step.r).seen != Some(ProgressOf(run.before.certs, run.step.r).ca) then
      Some(ProgressOf(run.before.certs, run.step.r).ca)
    else LastPublished(run.before, r)
  }

  lemma {:induction false} BundleSinceRead(run: CertRun, r: Replica)
    requires LawfulCerts(run)
    ensures run.certs.bundle == if LastPublished(run, r).Some? then LastPublished(run, r) else ConfigRead(run, r)
  {
    if run.After? {
      BundleSinceRead(run.before, r);
      if run.step.PatchBundle? {
        PatchLandsIff(run.before.certs, run.step.r, run.certs);
      }
    }
  }

  /** What a replica that writes its certificate has read and published so far. */
  predicate OwnWork(c: Certs, r: Replica, kept: bool, read: Option<CA>, published: Option<CA>) {
    var phase, place := ProgressOf(c, r), Place(r, Webhook);
    && (phase.Serving? || phase.Patching? || (phase.WebhookDone? && !kept) ==> place in c.disk && c.disk[place] == phase.ca)
    && (phase.Patching? ==> phase.seen == read)
    && (phase.WebhookDone? && !kept ==> published.Some? || read == Some(phase.ca))
  }

  lemma OwnWorkStep(run: CertRun, r: Replica, kept: bool)
    requires LawfulCerts(run) && run.After? && Place(r, Webhook) in run.certs.places
    requires Publishing(run.before.certs, r, kept)
    requires OwnWork(run.before.certs, r, kept, ConfigRead(run.before, r), LastPublished(run.before, r))
    ensures OwnWork(run.certs, r, if ChecksWebhook(run.step, r) then Keeps(run.before.certs, r) else kept,
                    ConfigRead(run, r), LastPublished(run, r))
  {
  }

  lemma {:induction false} OwnWorkAlways(run: CertRun, r: Replica)
    requires LawfulCerts(run) && Place(r, Webhook) in run.certs.places
    ensures OwnWork(run.certs, r, Keeps(WebhookCheck(run, r).certs, r), ConfigRead(run, r), LastPublished(run, r))
  {
    hide OwnWork, Keeps, ConfigRead, LastPublished;
    if run.After? {
      PlacesStay(run.before.certs, run.step, run.certs);
      WritersPublish(run.before, r);
      OwnWorkAlways(run.before, r);
      OwnWorkStep(run, r, Keeps(WebhookCheck(run.before, r).certs, r));
    } else {
      NoWorkYet(run, r);
    }
  }

  lemma NoWorkYet(run: CertRun, r: Replica)
    requires LawfulCerts(run) && run.Begun?
    ensures forall kept: bool :: OwnWork(run.certs, r, kept, ConfigRead(run, r), LastPublished(run, r))
  {
  }

  /** A completed call that did not keep its webhook certificate ends with its own CA in the
      caBundle exactly when no other CA was the last to be published since it read the
      configuration: its own patch is empty if that held its CA already. */
  lemma PublishesOwnIff(run: CertRun, r: Replica)
    requires LawfulCerts(run) && Completes(run, r) && Place(r, Webhook) in run.certs.places
    requires !Keeps(WebhookCheck(run, r).certs, r)
    ensures Place(r, Webhook) in run.certs.disk
    ensures run.certs.bundle == Some(run.certs.disk[Place(r, Webhook)])
            <==> LastPublished(run, r) in {None, Some(run.certs.disk[Place(r, Webhook)])}
  {
    hide LawfulCerts;
    LawfulBefore(run);
    OwnWorkAlways(run.before, r);
    BundleSinceRead(run, r);
  }

  lemma LawfulBefore(run: CertRun)
    requires LawfulCerts(run) && run.After?
    ensures LawfulCerts(run.before) && CertDoes(run.before.certs, run.step, run.certs)
    ensures run.before.certs.places == run.certs.places
  {
  }

  /* ----- After a rotation ----- */

  /** From a to b only replica r moved, within the call it was in, and time passed. */
  ghost predicate OnWithCall(a: CertRun, b: CertRun, r: Replica) {
    || a == b
    || (b.After? && OnWithCall(a, b.before, r)
        && (b.step.Age? || ChecksWebhook(b.step, r) || b.step == ReadConfig(r) || b.step == PatchBundle(r)
            || Completes(b, r)))
  }

  /** What the rest of a rotating replica's call has done so far. */
  ghost predicate Rotating(c: Certs, c': Certs, r: Replica, ca: CA) {
    var phase := ProgressOf(c', r);
    var webhook := Place(r, Webhook) in c.places;
    && c'.secret == c.secret && c'.places == c.places
    && (phase.Holding? || phase.Serving? || phase.Patching? || phase.WebhookDone? ==> phase.ca == ca && phase.rotated)
    && (phase.Patching? ==> webhook && phase.seen == c'.bundle)
    && (phase.Serving? ==> webhook)
    && (phase.Holding? || phase.Serving? || phase.Patching? || phase.WebhookDone? || phase.Idle?)
    && c'.bundle == (if webhook && (phase.WebhookDone? || phase.Idle?) then Some(ca) else c.bundle)
    && (forall q :: q != r ==> ProgressOf(c', q) == ProgressOf(c, q))
    && (forall place :: SameAt(c.disk, c'.disk, place) || (place.replica == r && place in c'.disk && c'.disk[place] == ca))
    && (webhook && !phase.Holding? ==> Place(r, Webhook) in c'.disk && c'.disk[Place(r, Webhook)] == ca)
    && (Place(r, Metrics) in c.places && phase.Idle? ==> Place(r, Metrics) in c'.disk && c'.disk[Place(r, Metrics)] == ca)
  }

  lemma RotatingStep(c: Certs, mid: Certs, step: CertStep, c': Certs, r: Replica, ca: CA)
    requires Rotating(c, mid, r, ca) && CertDoes(mid, step, c')
    requires step.Age? || ChecksWebhook(step, r) || step == ReadConfig(r) || step == PatchBundle(r)
             || step == WriteMetricsCert(r) || step == KeepMetricsCert(r)
    ensures Rotating(c, c', r, ca)
  {
    forall place ensures SameAt(c.disk, c'.disk, place) || (place.replica == r && place in c'.disk && c'.disk[place] == ca) {
    }
  }

  lemma {:induction false} RotatingCall(a: CertRun, b: CertRun, r: Replica, ca: CA)
    requires LawfulCerts(b) && OnWithCall(a, b, r) && ProgressOf(a.certs, r) == Holding(ca, true)
    ensures Rotating(a.certs, b.certs, r, ca)
  {
    if a != b {
      RotatingCall(a, b.before, r, ca);
      RotatingStep(a.certs, b.before.certs, b.step, b.certs, r, ca);
    }
  }

  lemma {:induction false} CertsWherePlaced(run: CertRun)
    requires LawfulCerts(run)
    ensures run.certs.disk.Keys <= run.certs.places
    ensures run.certs.secret.Some? ==> run.certs.secret.value < run.certs.made
  {
    if run.After? {
      CertsWherePlaced(run.before);
    }
  }

  /** When the rotating replica's call completes with nobody else moving, the agreement is
      back exactly when no other replica has a certificate or is past ensureCA, and the caBundle
      was unset or the call published the new CA. */
  lemma RotationHealsIff(a: CertRun, b: CertRun, r: Replica, ca: CA)
    requires LawfulCerts(b) && OnWithCall(a, b, r) && Completes(b, r)
    requires LawfulCerts(a) && a.After? && a.step == Rotate(r, ca) && Agreed(a.before.certs)
    ensures Agreed(b.certs) <==>
      && (forall place :: place in a.certs.disk ==> place.replica == r)
      && (forall q :: q != r ==> !PastEnsureCA(ProgressOf(a.certs, q)))
      && (a.certs.bundle.None? || Place(r, Webhook) in a.certs.places)
  {
    CertsWherePlaced(a.before);
    CertsWherePlaced(a);
    RotatingCall(a, b, r, ca);
    assert ProgressOf(b.certs, r).Idle?;
    HealedIff(a.before.certs, a.certs, b.certs, r, ca);
  }

  lemma HealedIff(before: Certs, c: Certs, c': Certs, r: Replica, ca: CA)
    requires CertDoes(before, Rotate(r, ca), c) && Agreed(before) && Rotating(c, c', r, ca) && ProgressOf(c', r).Idle?
    requires before.secret.Some? ==> before.secret.value < before.made
    requires c.disk.Keys <= c.places
    ensures Agreed(c') <==>
      && (forall place :: place in c.disk ==> place.replica == r)
      && (forall q :: q != r ==> !PastEnsureCA(ProgressOf(c, q)))
      && (c.bundle.None? || Place(r, Webhook) in c.places)
  {
    if place :| place in c.disk && place.replica != r {
      assert SameAt(c.disk, c'.disk, place) && place in before.disk;
      assert !Agreed(c');
    }
    if q :| q != r && PastEnsureCA(ProgressOf(c, q)) {
      assert ProgressOf(c', q) == ProgressOf(c, q) == ProgressOf(before, q);
      assert q in c'.phases && q in before.phases;
      assert !Agreed(c');
    }
    forall place | place in c'.disk && place.replica == r ensures c'.disk[place] == ca {
      assert place.purpose.Webhook? || place.purpose.Metrics?;
      assert place == Place(r, place.purpose);
      assert place in c.disk || c'.disk[place] == ca;
    }
    forall q | q in c'.phases && PastEnsureCA(c'.phases[q]) ensures q != r && PastEnsureCA(ProgressOf(c, q)) {
      assert ProgressOf(c', q) == c'.phases[q];
    }
    forall place | place in c'.disk && place.replica != r ensures place in c.disk {
      assert SameAt(c.disk, c'.disk, place);
    }
    assert c'.secret == Some(ca) && ca == before.made;
    assert c.bundle == before.bundle && (before.bundle.Some? ==> before.secret == before.bundle);
  }

  /** While its certificate is neither due nor lost and nobody rotates, a replica that is not in
      a call keeps the certificate it has, whoever signed it. */
  lemma {:induction false} StrandedUntilDue(a: CertRun, b: CertRun, place: Place)
    requires LawfulCerts(b) && Continues(a, b) && place in a.certs.disk && a.certs.secret.Some?
    requires ProgressOf(a.certs, place.replica).Idle?
    requires !NeedsRenewal(b.certs, place) && Undisturbed(a, b, place)
    ensures b.certs.disk[place] == a.certs.disk[place]
    ensures b.certs.secret == a.certs.secret && Reuses(ProgressOf(b.certs, place.replica))
  {
    if a != b {
      StrandedUntilDue(a, b.before, place);
    }
  }

  /** A call that found the CA in the Secret and not due. */
  predicate Reuses(phase: Progress) {
    phase.Idle? || phase.SawExpiring? || (PastEnsureCA(phase) && !phase.rotated)
  }

  /** Up to b nobody rotated, and the certificate was at no time missing or due. */
  ghost predicate Undisturbed(a: CertRun, b: CertRun, place: Place) {
    a == b || (b.After? && Undisturbed(a, b.before, place) && !b.step.Rotate? && !NeedsRenewal(b.before.certs, place))
  }

  /** Replica 1 has created and published the first CA; replica 2, which has a new certificate
      signed by it, has read the configuration. */
  lemma ReadsPublished(c: Certs) returns (run: CertRun)
    requires NothingYet(c) && c.places == {Place(1, Webhook), Place(2, Webhook)}
    ensures LawfulCerts(run) && run.certs.places == c.places && run.certs.due == {}
    ensures run.certs.secret == run.certs.bundle == Some(0) && run.certs.made == 1
    ensures ProgressOf(run.certs, 1).Idle? && ProgressOf(run.certs, 2) == Patching(0, false, Some(0))
    ensures Place(2, Webhook) in run.certs.disk && run.certs.disk[Place(2, Webhook)] == 0
  {
    run := FirstReplica(c, 1);
    run := Publishes(run, 1);
    run := Lawfully(run, KeepMetricsCert(1), Enter(run.certs, 1, Idle));
    run := Lawfully(run, Find(2), Enter(run.certs, 2, Holding(0, false)));
    run := Lawfully(run, WriteWebhookCert(2), Enter(Written(run.certs, Place(2, Webhook), 0), 2, Serving(0, false)));
    run := Lawfully(run, ReadConfig(2), Enter(run.certs, 2, Patching(0, false, Some(0))));
  }

  /** Replica 2 has read a configuration that holds its CA; replica 1 replaces both; replica 2
      then has nothing to patch, and its call completes although its CA is not the published one. */
  lemma StalePatchMisses(c: Certs) returns (run: CertRun)
    requires NothingYet(c) && c.places == {Place(1, Webhook), Place(2, Webhook)}
    ensures LawfulCerts(run) && Completes(run, 2)
    ensures run.certs.bundle == Some(1) && Place(2, Webhook) in run.certs.disk && run.certs.disk[Place(2, Webhook)] == 0
  {
    run := ReadsPublished(c);
    run := Lawfully(run, Age({0}, {}), run.certs.(expiring := run.certs.expiring + {0}));
    run := Replaces(run, 1);
    run := Lawfully(run, PatchBundle(2), Enter(run.certs, 2, WebhookDone(0, false)));
    run := Lawfully(run, KeepMetricsCert(2), Enter(run.certs, 2, Idle));
  }
}
