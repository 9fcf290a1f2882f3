/** The protocol between Garden events, the work queue and the reconciles of the garden certificate, one API call
    at a time. Events and changes may fall between any two calls, and every call may fail. */
module GardenProtocol {
  import opened GoStrings
  import opened GardenHash

  // ----- the managed certificate

  datatype AnnotationKey =
    | ClassKey | DNSRecordProviderTypeKey | DNSRecordSecretRefKey | DNSRecordClassKey | OtherAnnotation(string)

  datatype LabelKey = GardenRoleKey | ManagedByKey | ExtensionClassKey | OtherLabel(string)

  const GARDEN_WILDCARD_CERT := "garden-cert"
  const MANAGED_BY := "gardener-extension-shoot-cert-service"
  const CLASS_GARDEN := "garden"
  const SECRET_NAME := "tls"
  const GARDEN_NAMESPACE := "garden"

  datatype Certificate = Certificate(
    dnsNames: seq<string>,
    secretLabels: map<LabelKey, string>,
    secretRef: (string, string),
    annotations: map<AnnotationKey, string>,
    labels: map<LabelKey, string>)

  const SECRET_LABELS: map<LabelKey, string> :=
    map[GardenRoleKey := GARDEN_WILDCARD_CERT, ManagedByKey := MANAGED_BY, ExtensionClassKey := CLASS_GARDEN]

  function DNSAnnotations(dns: Option<DNSProvider>): map<AnnotationKey, string> {
    match dns
    case None => map[]
    case Some(p) => map[DNSRecordProviderTypeKey := p.providerType, DNSRecordSecretRefKey := p.secretRef,
                        DNSRecordClassKey := CLASS_GARDEN]
  }

  /** What the reconcile writes: labels and annotations are merged into those that exist, the rest is replaced. */
  function Written(old_: Option<Certificate>, garden: Garden): (cert: Certificate)
    ensures cert.dnsNames == DnsNames(garden.Domains())
  {
    var annotations := if old_.Some? then old_.value.annotations else map[];
    var labels := if old_.Some? then old_.value.labels else map[];
    Certificate(
      DnsNames(garden.Domains()),
      SECRET_LABELS,
      (SECRET_NAME, GARDEN_NAMESPACE),
      annotations[ClassKey := CLASS_GARDEN] + DNSAnnotations(garden.dns),
      labels + SECRET_LABELS)
  }

  function At<K(==), V>(m: map<K, V>, k: K): Option<V> {
    if k in m then Some(m[k]) else None
  }

  /** What an annotation was before the write, if there was a certificate. */
  function AnnotationAt(cert: Option<Certificate>, k: AnnotationKey): Option<string> {
    if cert.Some? then At(cert.value.annotations, k) else None
  }

  function LabelAt(cert: Option<Certificate>, k: LabelKey): Option<string> {
    if cert.Some? then At(cert.value.labels, k) else None
  }

  /** Field by field, the certificate of a Garden that is written over the one before. */
  ghost predicate CertificateOf(c: Certificate, before: Option<Certificate>, garden: Garden) {
    && WildcardsOf(c.dnsNames, garden.virtualDomains, garden.ingressDomains)
    && c.secretRef == ("tls", "garden")
    && c.secretLabels == map[GardenRoleKey := "garden-cert", ManagedByKey := "gardener-extension-shoot-cert-service",
                             ExtensionClassKey := "garden"]
    && At(c.labels, GardenRoleKey) == Some("garden-cert")
    && At(c.labels, ManagedByKey) == Some("gardener-extension-shoot-cert-service")
    && At(c.labels, ExtensionClassKey) == Some("garden")
    && (forall name :: At(c.labels, OtherLabel(name)) == LabelAt(before, OtherLabel(name)))
    && (forall name :: At(c.annotations, OtherAnnotation(name)) == AnnotationAt(before, OtherAnnotation(name)))
    && At(c.annotations, ClassKey) == Some("garden")
    && DNSAnnotationsOf(c, before, garden.dns)
  }

  /** The three DNS annotations: those of the Garden's first provider, and without a DNS section those from before. */
  predicate DNSAnnotationsOf(c: Certificate, before: Option<Certificate>, dns: Option<DNSProvider>) {
    match dns
    case Some(p) =>
      && At(c.annotations, DNSRecordProviderTypeKey) == Some(p.providerType)
      && At(c.annotations, DNSRecordSecretRefKey) == Some(p.secretRef)
      && At(c.annotations, DNSRecordClassKey) == Some("garden")
    case None =>
      && At(c.annotations, DNSRecordProviderTypeKey) == AnnotationAt(before, DNSRecordProviderTypeKey)
      && At(c.annotations, DNSRecordSecretRefKey) == AnnotationAt(before, DNSRecordSecretRefKey)
      && At(c.annotations, DNSRecordClassKey) == AnnotationAt(before, DNSRecordClassKey)
  }

  lemma WrittenIs(before: Option<Certificate>, garden: Garden)
    ensures CertificateOf(Written(before, garden), before, garden)
  {
    hide DnsNames, WildcardsOf;
    DnsNamesAre(garden.virtualDomains, garden.ingressDomains);
  }

  /** The certificate was written by the reconcile: the parts that do not depend on the Garden are in place. */
  predicate Managed(c: Certificate) {
    && c.secretLabels == SECRET_LABELS && c.secretRef == (SECRET_NAME, GARDEN_NAMESPACE)
    && ClassKey in c.annotations && c.annotations[ClassKey] == CLASS_GARDEN
    && forall k :: k in SECRET_LABELS ==> k in c.labels && c.labels[k] == SECRET_LABELS[k]
  }

  /** The annotations of the Garden's DNS section, if it has one, are on the certificate. */
  predicate ShowsDNS(c: Certificate, garden: Garden) {
    forall k :: k in DNSAnnotations(garden.dns)
      ==> k in c.annotations && c.annotations[k] == DNSAnnotations(garden.dns)[k]
  }

  /** A reconcile of the Garden would leave the certificate, or its absence, as it is. */
  predicate Fits(c: Option<Certificate>, garden: Garden) {
    if DnsNames(garden.Domains()) == [] then c.None? else c.Some? && Written(c, garden) == c.value
  }

  lemma WrittenShows(old_: Option<Certificate>, garden: Garden)
    ensures Managed(Written(old_, garden)) && ShowsDNS(Written(old_, garden), garden)
  {
    hide DnsNames;
  }

  /** What fits a Garden with domains: the names, the DNS section, and the rest. */
  lemma FitsExactly(c: Certificate, garden: Garden)
    ensures Written(Some(c), garden) == c <==>
      c.dnsNames == DnsNames(garden.Domains()) && Managed(c) && ShowsDNS(c, garden)
  {
    hide DnsNames;
    var w := Written(Some(c), garden);
    if c.dnsNames == DnsNames(garden.Domains()) && Managed(c) && ShowsDNS(c, garden) {
      assert w.annotations == c.annotations;
      assert w.labels == c.labels;
    } else if w == c {
      WrittenShows(Some(c), garden);
    }
  }

  /** Once a reconcile of a Garden has written the certificate, another one with the same hash would leave it as it is
      exactly if its DNS section, which is not in the hash, shows in it. */
  lemma SameHashFits(before: Option<Certificate>, a: Garden, b: Garden)
    requires NulFree(a.Domains()) && NulFree(b.Domains()) && HashOf(a) == HashOf(b) && a.Domains() != []
    ensures Fits(Some(Written(before, a)), b) <==> ShowsDNS(Written(before, a), b)
  {
    hide DnsNames, Written;
    SameHashSameNames(a, b);
    DnsNamesEmpty(b.Domains());
    WrittenShows(before, a);
    FitsExactly(Written(before, a), b);
  }

  // ----- states and actions

  datatype Op = Reconcile | Delete

  /** The next API call of the reconcile in flight. */
  datatype Pc = Deploying | Listing | Writing(garden: Garden) | Deleting | Patching(hashed: Option<Garden>) | Finishing

  /** The reconcile in flight works on the Extension as it was read at the beginning. */
  datatype Task = NoTask | Task(op: Op, generate: bool, deleting: bool, pc: Pc)

  datatype State = State(
    gardens: seq<Garden>,
    cert: Option<Certificate>,
    annotation: Option<Digest>,
    generate: bool,
    deleting: bool,
    queued: bool,
    unseen: bool,
    task: Task)

  /** An API call is done, refused, or done although its caller gets an error. */
  datatype Fate = Done | Refused | Lost

  datatype Action =
    | Begin(op: Op)
    | Call(fate: Fate)
    | SetGardens(gardens: seq<Garden>)
    | MapGarden(ok: bool)
    | SetGenerate(generate: bool)
    | MarkDeleting
    | Resync

  function Fail(s: State): State {
    s.(task := NoTask, queued := true)
  }

  function Goto(s: State, pc: Pc, fate: Fate): State
    requires s.task.Task?
  {
    if fate.Done? then s.(task := s.task.(pc := pc)) else Fail(s)
  }

  /** One API call of the reconcile in flight. */
  function CallStep(s: State, fate: Fate): State
    requires s.task.Task?
  {
    match s.task.pc
    case Deploying =>
      Goto(s, if s.task.generate then Listing else Deleting, fate)
    case Listing =>
      if !fate.Done? || |s.gardens| > 1 then Fail(s)
      else if |s.gardens| == 0 then Goto(s, Finishing, Done)
      else if DnsNames(s.gardens[0].Domains()) == [] then Goto(s, Deleting, Done)
      else Goto(s, Writing(s.gardens[0]), Done)
    case Writing(garden) =>
      var s' := if fate.Refused? then s else s.(cert := Some(Written(s.cert, garden)));
      Goto(s', Patching(Some(garden)), fate)
    case Deleting =>
      if fate.Done? && s.cert.None? then Goto(s, Finishing, Done)
      else
        var s' := if fate.Refused? then s else s.(cert := None);
        Goto(s', if s.task.deleting then Finishing else Patching(None), fate)
    case Patching(hashed) =>
      var s' := if fate.Refused? then s
                else s.(annotation := if hashed.Some? then Some(HashOf(hashed.value)) else None);
      Goto(s', Finishing, fate)
    case Finishing =>
      if fate.Done? then s.(task := NoTask) else Fail(s)
  }

  /** The map function queues the Extension if a Garden's hash differs from the annotation. */
  predicate HashDiffers(s: State) {
    exists i :: 0 <= i < |s.gardens| && s.annotation != Some(HashOf(s.gardens[i]))
  }

  function Step(s: State, a: Action): State {
    match a
    case Begin(op) =>
      if s.task.NoTask? && s.queued then
        s.(queued := false,
           task := Task(op, s.generate, s.deleting, if op.Reconcile? then Deploying else Deleting))
      else s
    case Call(fate) => if s.task.Task? then CallStep(s, fate) else s
    case SetGardens(gardens) => s.(gardens := gardens, unseen := true)
    case MapGarden(ok) => s.(unseen := false, queued := s.queued || (ok && s.generate && HashDiffers(s)))
    case SetGenerate(generate) => s.(generate := generate, queued := true)
    case MarkDeleting => s.(deleting := true, queued := true)
    case Resync => s.(queued := true)
  }

  function Run(s: State, actions: seq<Action>): State
    decreases |actions|
  {
    if actions == [] then s else Run(Step(s, actions[0]), actions[1..])
  }

  // ----- the annotation tells what is in the certificate

  predicate AtRest(s: State) {
    s.task.NoTask? && !s.queued
  }

  predicate HasNames(s: State, names: seq<string>) {
    s.cert.Some? && s.cert.value.dnsNames == names
  }

  /** Whatever domain list the annotation is the hash of, an existing certificate has the names of that list. */
  ghost predicate Agrees(s: State) {
    forall domains :: NulFree(domains) && s.annotation == Some(Digest(Preimage(domains))) ==>
      s.cert.None? || HasNames(s, DnsNames(domains))
  }

  predicate GardensNulFree(gardens: seq<Garden>) {
    forall i :: 0 <= i < |gardens| ==> NulFree(gardens[i].Domains())
  }

  /** There is always a Garden, and its domains have no NUL bytes. */
  predicate Sound(a: Action) {
    a.SetGardens? ==> |a.gardens| >= 1 && GardensNulFree(a.gardens)
  }

  /** How far a reconcile in flight has repaired the correspondence. */
  ghost predicate Repaired(s: State)
    requires s.task.Task?
  {
    match s.task.pc
    case Deploying => true
    case Listing => true
    case Deleting => true
    case Writing(garden) => NulFree(garden.Domains())
    case Patching(None) => s.cert.None?
    case Patching(Some(garden)) => NulFree(garden.Domains()) && HasNames(s, DnsNames(garden.Domains()))
    case Finishing => Agrees(s)
  }

  ghost predicate Invariant(s: State) {
    && |s.gardens| >= 1 && GardensNulFree(s.gardens)
    && if s.task.Task? then Repaired(s) else s.queued || Agrees(s)
  }

  lemma PatchAgrees(s: State, garden: Garden)
    requires NulFree(garden.Domains()) && HasNames(s, DnsNames(garden.Domains()))
    requires s.annotation == Some(HashOf(garden))
    ensures Agrees(s)
  {
    forall domains | NulFree(domains) && s.annotation == Some(Digest(Preimage(domains)))
      ensures HasNames(s, DnsNames(domains))
    {
      PreimageInjective(domains, garden.Domains());
    }
  }

  /** Agreement depends on the certificate's names and the annotation only. */
  lemma AgreesSame(s: State, s': State)
    requires Agrees(s) && s'.cert == s.cert && s'.annotation == s.annotation
    ensures Agrees(s')
  {
  }

  lemma CallInvariant(s: State, fate: Fate)
    requires Invariant(s) && s.task.Task?
    ensures Invariant(CallStep(s, fate))
  {
    match s.task.pc
    case Writing(_) => WritingInvariant(s, fate);
    case Deleting => DeletingInvariant(s, fate);
    case Patching(_) => PatchingInvariant(s, fate);
    case _ => OtherCallInvariant(s, fate);
  }

  lemma WritingInvariant(s: State, fate: Fate)
    requires Invariant(s) && s.task.Task? && s.task.pc.Writing?
    ensures Invariant(CallStep(s, fate))
  {
    hide DnsNames, Preimage, Agrees, Written;
  }

  lemma DeletingInvariant(s: State, fate: Fate)
    requires Invariant(s) && s.task.Task? && s.task.pc.Deleting?
    ensures Invariant(CallStep(s, fate))
  {
    hide DnsNames, Preimage, Agrees;
    NoCertAgrees(CallStep(s, fate));
  }

  lemma PatchingInvariant(s: State, fate: Fate)
    requires Invariant(s) && s.task.Task? && s.task.pc.Patching?
    ensures Invariant(CallStep(s, fate))
  {
    hide DnsNames, Preimage, Agrees;
    var s' := CallStep(s, fate);
    if s.task.pc.hashed.Some? && !fate.Refused? {
      PatchAgrees(s', s.task.pc.hashed.value);
    }
    NoCertAgrees(s');
  }

  lemma OtherCallInvariant(s: State, fate: Fate)
    requires Invariant(s) && s.task.Task? && (s.task.pc.Deploying? || s.task.pc.Listing? || s.task.pc.Finishing?)
    ensures Invariant(CallStep(s, fate))
  {
    hide DnsNames, Preimage, Agrees;
    if s.task.pc.Finishing? {
      AgreesSame(s, CallStep(s, fate));
    }
  }

  lemma NoCertAgrees(s: State)
    ensures s.cert.None? ==> Agrees(s)
  {
  }

  lemma StepInvariant(s: State, a: Action)
    requires Invariant(s) && Sound(a)
    ensures Invariant(Step(s, a))
  {
    hide DnsNames, Preimage, Agrees;
    if a.Call? && s.task.Task? {
      CallInvariant(s, a.fate);
    } else if s.task.Task? {
      if s.task.pc.Finishing? {
        AgreesSame(s, Step(s, a));
      }
    } else if !s.queued {
      AgreesSame(s, Step(s, a));
    }
  }

  /** Over every run with any failures: when no reconcile is in flight or queued, and the annotation is the hash of a
      domain list, then the certificate is absent or has exactly the names of that list. */
  lemma {:induction false} AnnotationTellsNames(s: State, actions: seq<Action>)
    requires Invariant(s)
    requires forall i :: 0 <= i < |actions| ==> Sound(actions[i])
    ensures Invariant(Run(s, actions))
    ensures AtRest(Run(s, actions)) ==> Agrees(Run(s, actions))
    decreases |actions|
  {
    if actions != [] {
      StepInvariant(s, actions[0]);
      AnnotationTellsNames(Step(s, actions[0]), actions[1..]);
    }
  }

  // ----- a freshly created Extension

  /** The controller starts with the Extension queued. */
  function Fresh(garden: Garden): State {
    State([garden], None, None, true, false, true, true, NoTask)
  }

  lemma FreshInvariant(garden: Garden)
    requires NulFree(garden.Domains())
    ensures Invariant(Fresh(garden)) && Tracks(Fresh(garden))
  {
  }

  lemma {:induction false} RunAppend(s: State, a: seq<Action>, b: seq<Action>)
    ensures Run(s, a + b) == Run(Run(s, a), b)
    decreases |a|
  {
    if a == [] {
      assert a + b == b;
    } else {
      assert (a + b)[1..] == a[1..] + b;
      RunAppend(Step(s, a[0]), a[1..], b);
    }
  }

  // ----- the certificate follows the Garden

  /** Nothing is in flight, queued or still to be delivered, and a certificate is wanted. */
  predicate Settled(s: State) {
    AtRest(s) && !s.unseen && s.generate && !s.deleting && |s.gardens| == 1
  }

  /** The certificate is what a reconcile of the current Garden leaves: names, DNS section and all. */
  predicate InSync(s: State)
    requires |s.gardens| == 1
  {
    Fits(s.cert, s.gardens[0])
  }

  /** Dropping a Garden event is right exactly if the certificate exists and shows the DNS section: the annotation tells
      neither. */
  lemma DroppedEventVerdict(s: State)
    requires AtRest(s) && Agrees(s) && |s.gardens| == 1 && GardensNulFree(s.gardens) && s.gardens[0].Domains() != []
    requires AtRest(Step(s, MapGarden(true))) && s.generate && (s.cert.Some? ==> Managed(s.cert.value))
    ensures InSync(s) <==> s.cert.Some? && ShowsDNS(s.cert.value, s.gardens[0])
  {
    hide Written, DnsNames;
    DnsNamesEmpty(s.gardens[0].Domains());
    assert s.annotation == Some(HashOf(s.gardens[0]));
    AgreesOn(s, s.gardens[0].Domains());
    if s.cert.Some? {
      FitsExactly(s.cert.value, s.gardens[0]);
    }
  }

  /** The certificate after a reconcile of the current Garden. */
  function Reconciled(s: State): Option<Certificate>
    requires |s.gardens| == 1
  {
    if DnsNames(s.gardens[0].Domains()) == [] then None else Some(Written(s.cert, s.gardens[0]))
  }

  /** The certificate that there will be if nothing but the calls of the reconcile in flight happens, and they are
      done. */
  function Heading(s: State): Option<Certificate>
    requires |s.gardens| == 1
  {
    if s.task.NoTask? then s.cert
    else
      match s.task.pc
      case Deploying => if s.task.generate then Reconciled(s) else None
      case Listing => Reconciled(s)
      case Writing(garden) => Some(Written(s.cert, garden))
      case Deleting => None
      case Patching(_) => s.cert
      case Finishing => s.cert
  }

  /** Something is still to come that makes up for a wrong heading, or no certificate is wanted. */
  predicate Covered(s: State) {
    s.deleting || s.queued || s.unseen || !s.generate
  }

  /** What the environment is trusted with: there is one Garden, with names that have no NUL bytes. */
  predicate OneGarden(a: Action) {
    Sound(a) && (a.SetGardens? ==> |a.gardens| == 1)
  }

  /** The steps on which the certificate follows the Garden. For an Extension that is not being deleted:
      - a Garden event is not dropped at rest if the Garden has a DNS section that the certificate does not show;
      - one is not dropped while the reconcile in flight heads for a certificate that does not fit the Garden, and
        mapping an event that would have been queued does not fail;
      - the delete handler does not take the place of a reconcile for a Garden with domains;
      - the deletion of the certificate and the removal of an annotation do not come apart. */
  predicate Disciplined(s: State, a: Action) {
    && |s.gardens| == 1 && OneGarden(a)
    && (s.deleting ||
        match a
        case MapGarden(ok) =>
          s.queued || !s.unseen || !s.generate || (ok && (HashDiffers(s) || DroppedWithDNS(s)))
            || Fits(Heading(s), s.gardens[0])
        case Begin(Delete) => s.task.Task? || !s.queued || s.unseen || !s.generate || s.gardens[0].Domains() == []
        case Call(Lost) => !(s.task.Task? && s.task.pc.Deleting? && s.cert.Some? && s.annotation.Some?)
        case Call(Refused) => !(s.task.Task? && s.task.pc == Patching(None) && s.annotation.Some?)
        case _ => true)
  }

  predicate DroppedWithDNS(s: State)
    requires |s.gardens| == 1
  {
    s.task.NoTask? && (s.cert.Some? ==> ShowsDNS(s.cert.value, s.gardens[0]))
  }

  ghost predicate DisciplinedRun(s: State, actions: seq<Action>)
    decreases |actions|
  {
    actions != [] ==> Disciplined(s, actions[0]) && DisciplinedRun(Step(s, actions[0]), actions[1..])
  }

  /** The digest of the domains of some Garden. */
  ghost predicate IsHash(d: Digest) {
    exists domains :: NulFree(domains) && domains != [] && d == Digest(Preimage(domains))
  }

  /** An annotation comes with a certificate. */
  predicate Backed(s: State) {
    s.annotation.Some? ==> s.cert.Some?
  }

  /** What the reconcile in flight has read, and written. */
  predicate InFlight(s: State) {
    match s.task
    case NoTask => true
    case Task(_, _, _, Writing(garden)) => garden.Domains() != []
    case Task(_, _, _, Patching(Some(garden))) => garden.Domains() != [] && s.cert.Some? && Managed(s.cert.value)
    case _ => true
  }

  ghost predicate Tracks(s: State) {
    && Invariant(s) && |s.gardens| == 1
    && InFlight(s)
    && (s.annotation.Some? ==> IsHash(s.annotation.value) && (s.cert.Some? ==> Managed(s.cert.value)))
    && (!s.deleting ==>
        && (s.task.Task? ==> !s.task.deleting && (!s.queued ==> s.task.generate == s.generate))
        && (s.task.Task? && s.task.pc.Listing? ==> s.task.generate)
        && (!(s.task.Task? && s.task.pc == Patching(None)) ==> Backed(s)))
    && (Covered(s) || Fits(Heading(s), s.gardens[0]))
  }

  lemma PreimageEmpty(domains: seq<string>)
    ensures Preimage(domains) == "" <==> domains == []
  {
  }

  lemma CallTracks(s: State, fate: Fate)
    requires Tracks(s) && Disciplined(s, Call(fate)) && s.task.Task?
    ensures Tracks(CallStep(s, fate))
  {
    hide Tracks, Disciplined, CallStep, Invariant;
    CallInvariantOf(s, fate);
    match s.task.pc
    case Writing(_) => WritingTracks(s, fate);
    case Deleting => DeletingTracks(s, fate);
    case Patching(_) => PatchingTracks(s, fate);
    case _ => ReadTracks(s, fate);
  }

  lemma CallInvariantOf(s: State, fate: Fate)
    requires Tracks(s) && s.task.Task?
    ensures Invariant(CallStep(s, fate))
  {
    CallInvariant(s, fate);
  }

  lemma WritingTracks(s: State, fate: Fate)
    requires Tracks(s) && Disciplined(s, Call(fate)) && s.task.Task? && Invariant(CallStep(s, fate))
    requires s.task.pc.Writing?
    ensures Tracks(CallStep(s, fate))
  {
    hide Preimage, DnsNames, Invariant, Written, IsHash, Managed, Fits;
    WrittenShows(s.cert, s.task.pc.garden);
  }

  lemma DeletingTracks(s: State, fate: Fate)
    requires Tracks(s) && Disciplined(s, Call(fate)) && s.task.Task? && Invariant(CallStep(s, fate))
    requires s.task.pc.Deleting?
    ensures Tracks(CallStep(s, fate))
  {
    hide Preimage, DnsNames, Invariant, Written, IsHash, Managed, Fits;
  }

  lemma PatchingTracks(s: State, fate: Fate)
    requires Tracks(s) && Disciplined(s, Call(fate)) && s.task.Task? && Invariant(CallStep(s, fate))
    requires s.task.pc.Patching?
    ensures Tracks(CallStep(s, fate))
  {
    hide Preimage, DnsNames, Invariant, Written, IsHash, Managed, Fits;
    RepairedNow(s);
    if s.task.pc.hashed.Some? {
      GardenHashIsHash(s.task.pc.hashed.value);
    }
  }

  lemma GardenHashIsHash(garden: Garden)
    ensures NulFree(garden.Domains()) && garden.Domains() != [] ==> IsHash(HashOf(garden))
  {
  }

  lemma RepairedNow(s: State)
    requires Invariant(s) && s.task.Task? && s.task.pc.Patching?
    ensures match s.task.pc.hashed {
      case None => s.cert.None?
      case Some(garden) => NulFree(garden.Domains()) && HasNames(s, DnsNames(garden.Domains()))
    }
  {
  }

  lemma ReadTracks(s: State, fate: Fate)
    requires Tracks(s) && Disciplined(s, Call(fate)) && s.task.Task? && Invariant(CallStep(s, fate))
    requires s.task.pc.Deploying? || s.task.pc.Listing? || s.task.pc.Finishing?
    ensures Tracks(CallStep(s, fate))
  {
    hide Preimage, DnsNames, Invariant, IsHash, Written, Managed, Fits;
    DnsNamesEmpty(s.gardens[0].Domains());
  }

  lemma StepTracks(s: State, a: Action)
    requires Tracks(s) && Disciplined(s, a)
    ensures Tracks(Step(s, a))
  {
    hide Preimage, DnsNames, Agrees, IsHash, Written, Managed, Fits, ShowsDNS;
    if a.Call? && s.task.Task? {
      CallTracks(s, a.fate);
    } else {
      StepInvariant(s, a);
      if a.MapGarden? && AtRest(s) && !s.deleting && s.generate && !HashDiffers(s) && DroppedWithDNS(s) {
        DroppedAtRest(s);
      }
      if a.Begin? {
        ReconciledFits(s);
      }
    }
  }

  lemma ReconciledFits(s: State)
    requires |s.gardens| == 1
    ensures Fits(Reconciled(s), s.gardens[0])
    ensures Fits(None, s.gardens[0]) <==> s.gardens[0].Domains() == []
  {
    hide Written, DnsNames;
    DnsNamesEmpty(s.gardens[0].Domains());
    WrittenShows(s.cert, s.gardens[0]);
    FitsExactly(Written(s.cert, s.gardens[0]), s.gardens[0]);
  }

  /** An event that is dropped at rest changes nothing for a certificate that shows the DNS section. */
  lemma DroppedAtRest(s: State)
    requires Tracks(s) && AtRest(s) && !s.deleting && !HashDiffers(s) && DroppedWithDNS(s)
    ensures Fits(Heading(s), s.gardens[0])
  {
    hide Preimage, DnsNames, Agrees, Written, Managed, ShowsDNS;
    var domains := s.gardens[0].Domains();
    assert s.annotation == Some(HashOf(s.gardens[0]));
    var hashed :| NulFree(hashed) && hashed != [] && s.annotation.value == Digest(Preimage(hashed));
    PreimageInjective(hashed, domains);
    DnsNamesEmpty(domains);
    AgreesOn(s, domains);
    FitsExactly(s.cert.value, s.gardens[0]);
  }

  lemma AgreesOn(s: State, domains: seq<string>)
    requires Agrees(s) && NulFree(domains) && s.annotation == Some(Digest(Preimage(domains)))
    ensures s.cert.None? || HasNames(s, DnsNames(domains))
  {
  }

  /** On disciplined runs every settled state has the certificate of the current Garden. */
  lemma {:induction false} CertificateFollowsGarden(s: State, actions: seq<Action>)
    requires Tracks(s) && DisciplinedRun(s, actions)
    ensures Tracks(Run(s, actions))
    ensures Settled(Run(s, actions)) ==> InSync(Run(s, actions))
    decreases |actions|
  {
    if actions != [] {
      StepTracks(s, actions[0]);
      CertificateFollowsGarden(Step(s, actions[0]), actions[1..]);
    }
  }

  /** Both for every run of a new Extension. */
  lemma FromTheBeginning(garden: Garden, actions: seq<Action>)
    requires NulFree(garden.Domains())
    ensures (forall i :: 0 <= i < |actions| ==> Sound(actions[i])) && AtRest(Run(Fresh(garden), actions)) ==>
      Agrees(Run(Fresh(garden), actions))
    ensures DisciplinedRun(Fresh(garden), actions) && Settled(Run(Fresh(garden), actions))
      ==> InSync(Run(Fresh(garden), actions))
  {
    hide Run, DisciplinedRun, Invariant, Tracks, Agrees;
    FreshInvariant(garden);
    if forall i :: 0 <= i < |actions| ==> Sound(actions[i]) {
      AnnotationTellsNames(Fresh(garden), actions);
    }
    if DisciplinedRun(Fresh(garden), actions) {
      CertificateFollowsGarden(Fresh(garden), actions);
    }
  }
}
