/** Concrete runs of the garden certificate protocol that end badly: each breaks one condition of the theorems. */
module GardenRuns {
  import opened GoStrings
  import opened GardenHash
  import opened GardenProtocol

  const DONE: Action := Call(Done)
  const FAIL: Action := Call(Refused)

  lemma Next(s: State, a: Action, rest: seq<Action>)
    ensures Run(s, [a] + rest) == Run(Step(s, a), rest)
  {
    assert ([a] + rest)[1..] == rest;
  }

  lemma Two(s: State, a: Action, b: Action)
    ensures Run(s, [a, b]) == Step(Step(s, a), b)
  {
    hide Step;
    Next(s, a, [b]);
    assert [a] + [b] == [a, b];
    Next(Step(s, a), b, []);
    assert [b] + [] == [b];
  }

  lemma Three(s: State, a: Action, b: Action, c: Action)
    ensures Run(s, [a, b, c]) == Step(Step(Step(s, a), b), c)
  {
    hide Step;
    Next(s, a, [b, c]);
    assert [a] + [b, c] == [a, b, c];
    Two(Step(s, a), b, c);
  }

  // ----- phases of runs

  /** A new Garden whose hash differs from the annotation starts a reconcile. */
  lemma Noticed(s: State, garden: Garden)
    requires AtRest(s) && s.generate && s.annotation != Some(HashOf(garden))
    ensures Run(s, [SetGardens([garden]), MapGarden(true), Begin(Reconcile)]) ==
            s.(gardens := [garden], unseen := false, task := Task(Reconcile, true, s.deleting, Deploying))
  {
    hide Preimage;
    Three(s, SetGardens([garden]), MapGarden(true), Begin(Reconcile));
    assert s.annotation != Some(HashOf([garden][0]));
  }

  /** One whose hash is the annotation is dropped. */
  lemma Dropped(s: State, garden: Garden)
    requires s.annotation == Some(HashOf(garden))
    ensures Run(s, [SetGardens([garden]), MapGarden(true)]) == s.(gardens := [garden], unseen := false)
  {
    hide Preimage;
    Two(s, SetGardens([garden]), MapGarden(true));
  }

  predicate InTask(s: State, pc: Pc) {
    s.task == Task(Reconcile, true, false, pc)
  }

  function At(s: State, pc: Pc): State {
    s.(task := Task(Reconcile, true, false, pc))
  }

  /** The reconcile reads the Garden. */
  lemma Read(s: State, garden: Garden)
    requires InTask(s, Deploying) && s.gardens == [garden]
    ensures Run(s, [DONE, DONE]) == At(s, if garden.Domains() == [] then Deleting else Writing(garden))
  {
    hide DnsNames;
    DnsNamesEmpty(garden.Domains());
    Two(s, DONE, DONE);
  }

  lemma Runs(s: State, a: seq<Action>, t: State, b: seq<Action>, u: State)
    requires Run(s, a) == t && Run(t, b) == u
    ensures Run(s, a + b) == u
  {
    RunAppend(s, a, b);
  }

  predicate AllSound(actions: seq<Action>) {
    forall i :: 0 <= i < |actions| ==> Sound(actions[i])
  }

  predicate NoFailure(actions: seq<Action>) {
    forall i :: 0 <= i < |actions| ==> actions[i].Call? ==> actions[i].fate.Done?
  }

  // ----- the runs

  /** The certificate of the Garden is in place and the annotation is its hash. */
  function Established(garden: Garden): State {
    State([garden], Some(Written(None, garden)), Some(HashOf(garden)), true, false, false, false, NoTask)
  }

  /** This is what the first reconcile of a fresh Extension leads to. */
  lemma EstablishedIsReached(garden: Garden)
    requires garden.Domains() != []
    ensures Run(Fresh(garden), [MapGarden(true), Begin(Reconcile)] + [DONE, DONE] + [DONE, DONE, DONE])
      == Established(garden)
  {
    hide Preimage, Written;
    var s := Fresh(garden);
    Two(s, MapGarden(true), Begin(Reconcile));
    var s1 := At(s.(queued := false, unseen := false), Deploying);
    Read(s1, garden);
    Runs(s, [MapGarden(true), Begin(Reconcile)], s1, [DONE, DONE], At(s1, Writing(garden)));
    Three(At(s1, Writing(garden)), DONE, DONE, DONE);
    Runs(s, [MapGarden(true), Begin(Reconcile)] + [DONE, DONE], At(s1, Writing(garden)), [DONE, DONE, DONE],
      Established(garden));
  }

  /** The Garden loses its domains, the certificate is deleted, and the removal of the annotation fails. The retry finds
      no certificate and returns early, so the annotation stays. */
  lemma ClearFails(s: State, empty: Garden) returns (actions: seq<Action>)
    requires AtRest(s) && s.generate && !s.deleting && s.cert.Some?
    requires empty.Domains() == [] && s.annotation != Some(HashOf(empty))
    ensures AllSound(actions)
    ensures Run(s, actions) == s.(gardens := [empty], unseen := false, cert := None)
  {
    hide Preimage, Written, DnsNames, Run;
    var notice := [SetGardens([empty]), MapGarden(true), Begin(Reconcile)];
    Noticed(s, empty);
    var s1 := At(s.(gardens := [empty], unseen := false), Deploying);
    Read(s1, empty);
    Runs(s, notice, s1, [DONE, DONE], At(s1, Deleting));
    actions := notice + [DONE, DONE];
    Three(At(s1, Deleting), DONE, FAIL, Begin(Reconcile));
    var s2 := s1.(cert := None);
    Runs(s, actions, At(s1, Deleting), [DONE, FAIL, Begin(Reconcile)], s2);
    actions := actions + [DONE, FAIL, Begin(Reconcile)];
    Read(s2, empty);
    Runs(s, actions, s2, [DONE, DONE], At(s2, Deleting));
    actions := actions + [DONE, DONE];
    Two(At(s2, Deleting), DONE, DONE);
    Runs(s, actions, At(s2, Deleting), [DONE, DONE], s2.(task := NoTask));
    actions := actions + [DONE, DONE];
  }

  /** When the Garden then gets its domains back, the event is dropped for good and no certificate is made. */
  lemma StaleAnnotationRun(garden: Garden, empty: Garden) returns (actions: seq<Action>)
    requires NulFree(garden.Domains()) && garden.Domains() != [] && empty.Domains() == []
    ensures AllSound(actions)
    ensures var s := Run(Established(garden), actions);
      Settled(s) && s.gardens == [garden] && s.cert.None? && !InSync(s)
  {
    hide Written, DnsNames, Run;
    PreimageEmpty(garden.Domains());
    PreimageEmpty(empty.Domains());
    DnsNamesEmpty(garden.Domains());
    var s := Established(garden);
    actions := ClearFails(s, empty);
    var s1 := s.(gardens := [empty], cert := None);
    Dropped(s1, garden);
    Runs(s, actions, s1, [SetGardens([garden]), MapGarden(true)], s.(cert := None));
    actions := actions + [SetGardens([garden]), MapGarden(true)];
  }

  /** The Garden changes to b and back to a while the reconcile for b is in flight. The second event is compared with
      the annotation, which still belongs to a, and is dropped; the certificate stays with b. No call fails. */
  lemma RaceRun(a: Garden, b: Garden) returns (actions: seq<Action>)
    requires NulFree(a.Domains()) && NulFree(b.Domains()) && a.Domains() != [] && b.Domains() != []
    requires DnsNames(a.Domains()) != DnsNames(b.Domains())
    ensures AllSound(actions) && NoFailure(actions)
    ensures var s := Run(Established(a), actions);
      Settled(s) && s.gardens == [a] && HasNames(s, DnsNames(b.Domains())) && !InSync(s)
  {
    hide Preimage, Written, DnsNames, Run;
    PreimageInjective(a.Domains(), b.Domains());
    DnsNamesEmpty(a.Domains());
    var s0 := Established(a);
    var notice := [SetGardens([b]), MapGarden(true), Begin(Reconcile)];
    Noticed(s0, b);
    var s1 := At(s0.(gardens := [b]), Deploying);
    Read(s1, b);
    Runs(s0, notice, s1, [DONE, DONE], At(s1, Writing(b)));
    actions := notice + [DONE, DONE];
    Dropped(At(s1, Writing(b)), a);
    var s2 := At(s0, Writing(b));
    Runs(s0, actions, At(s1, Writing(b)), [SetGardens([a]), MapGarden(true)], s2);
    actions := actions + [SetGardens([a]), MapGarden(true)];
    Three(s2, DONE, DONE, DONE);
    var s3 := s0.(cert := Some(Written(s0.cert, b)), annotation := Some(HashOf(b)));
    Runs(s0, actions, s2, [DONE, DONE, DONE], s3);
    actions := actions + [DONE, DONE, DONE];
  }

  /** The Garden changes its DNS section only. The hash does not see it, the event is dropped, and the certificate
      keeps the annotations of the earlier section. No call fails. */
  lemma DNSChangeRun(a: Garden, p: DNSProvider)
    requires NulFree(a.Domains()) && a.Domains() != [] && a.dns != Some(p)
    ensures var b := a.(dns := Some(p));
      var s := Run(Established(a), [SetGardens([b]), MapGarden(true)]);
      && HashOf(a) == HashOf(b)
      && Settled(s) && s.gardens == [b] && s.cert == Some(Written(None, a)) && HasNames(s, DnsNames(b.Domains()))
        && !InSync(s)
  {
    hide Preimage, Written, DnsNames, Fits;
    var b := a.(dns := Some(p));
    assert b.Domains() == a.Domains();
    Dropped(Established(a), b);
    SameHashFits(None, a, b);
    OtherDNS(a, p);
  }

  lemma OtherDNS(a: Garden, p: DNSProvider)
    requires a.dns != Some(p)
    ensures !ShowsDNS(Written(None, a), a.(dns := Some(p)))
  {
    hide DnsNames;
    var annotations := Written(None, a).annotations;
    assert DNSAnnotations(Some(p))[DNSRecordProviderTypeKey] == p.providerType;
    assert DNSAnnotations(Some(p))[DNSRecordSecretRefKey] == p.secretRef;
    if a.dns.Some? {
      assert annotations[DNSRecordProviderTypeKey] == a.dns.value.providerType;
      assert annotations[DNSRecordSecretRefKey] == a.dns.value.secretRef;
    } else {
      assert DNSRecordProviderTypeKey !in annotations;
    }
  }

  /** Mapping an event fails when the Extensions cannot be listed or one of them cannot be decoded. It is not
      retried. */
  lemma LostEventRun(a: Garden, b: Garden)
    requires NulFree(b.Domains()) && b.Domains() != [] && DnsNames(a.Domains()) != DnsNames(b.Domains())
    ensures var s := Run(Established(a), [SetGardens([b]), MapGarden(false)]);
      Settled(s) && !InSync(s)
  {
    hide Preimage, Written, DnsNames;
    DnsNamesEmpty(b.Domains());
    Two(Established(a), SetGardens([b]), MapGarden(false));
  }

  /** The annotation write fails after the certificate write, and before the retry the Garden goes away. With no Garden
      the retry succeeds without repairing anything: the annotation belongs to a, the certificate to b. */
  lemma NoGardenRun(a: Garden, b: Garden) returns (actions: seq<Action>)
    requires NulFree(a.Domains()) && NulFree(b.Domains()) && a.Domains() != [] && b.Domains() != []
    requires DnsNames(a.Domains()) != DnsNames(b.Domains())
    ensures var s := Run(Established(a), actions);
      AtRest(s) && s.annotation == Some(HashOf(a)) && HasNames(s, DnsNames(b.Domains())) && !Agrees(s)
  {
    hide Preimage, Written, DnsNames, Run;
    PreimageInjective(a.Domains(), b.Domains());
    var s0 := Established(a);
    var notice := [SetGardens([b]), MapGarden(true), Begin(Reconcile)];
    Noticed(s0, b);
    var s1 := At(s0.(gardens := [b]), Deploying);
    Read(s1, b);
    Runs(s0, notice, s1, [DONE, DONE], At(s1, Writing(b)));
    actions := notice + [DONE, DONE];
    Three(At(s1, Writing(b)), DONE, FAIL, SetGardens([]));
    var cert := Some(Written(s0.cert, b));
    var s2 := s0.(gardens := [], cert := cert, queued := true, unseen := true);
    Runs(s0, actions, At(s1, Writing(b)), [DONE, FAIL, SetGardens([])], s2);
    actions := actions + [DONE, FAIL, SetGardens([])];
    Two(s2, Begin(Reconcile), DONE);
    var s3 := At(s2.(queued := false), Listing);
    Runs(s0, actions, s2, [Begin(Reconcile), DONE], s3);
    actions := actions + [Begin(Reconcile), DONE];
    Two(s3, DONE, DONE);
    Runs(s0, actions, s3, [DONE, DONE], s3.(task := NoTask));
    actions := actions + [DONE, DONE];
    Disagrees(s3.(task := NoTask), a.Domains());
  }

  lemma Disagrees(s: State, domains: seq<string>)
    requires NulFree(domains) && s.annotation == Some(Digest(Preimage(domains)))
    requires s.cert.Some? && s.cert.value.dnsNames != DnsNames(domains)
    ensures !Agrees(s)
  {
  }
}
