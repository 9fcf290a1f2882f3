/** What the way from validated issuer configs to deployed objects guarantees. */
module IssuerPipeline {
  import opened GoStrings
  import opened ServiceTypes
  import opened DeployerValues
  import opened Issuers
  import V = ServiceValidation

  /** The values that the shoot actuator makes from a config and the shoot's resources. */
  predicate ForShoot(v: Values, config: CertConfig, cluster: V.Cluster) {
    v.shootDeployment && v.certConfig == config && cluster.shoot == Some(v.resources)
  }

  // ----- validation is sound for the translation

  /** A config without validation errors never makes collectIssuers fail, and each secret name is the copy of the first
      resource with the referenced name. */
  lemma ValidationSound(v: Values, cluster: V.Cluster, checks: V.Checks)
    requires ForShoot(v, v.certConfig, cluster) && V.ShootConfig(v.certConfig, cluster, checks)
    ensures AllResolve(v, Deployed(v))
    ensures forall c :: c in Elems(v.certConfig.issuers) && c.privateKeySecretName.Some? ==>
      Translated(v, c).acme.value.privateKeySecretName ==
        "ref-" + FirstNamed(v.resources, c.privateKeySecretName.value).value.resourceName
    ensures forall c :: c in Elems(v.certConfig.issuers) && c.externalAccountBinding.Some? ==>
      Translated(v, c).acme.value.externalAccountBinding.value.keySecretName ==
        "ref-" + FirstNamed(v.resources, c.externalAccountBinding.value.keySecretName).value.resourceName
  {
    OwnExactly(v.extensionConfig.issuerName, Elems(v.certConfig.issuers));
    forall c | c in Elems(v.certConfig.issuers)
      ensures Resolves(v, c)
    {
      ValidResolves(v, cluster, checks, c);
    }
  }

  lemma ValidResolves(v: Values, cluster: V.Cluster, checks: V.Checks, c: IssuerConfig)
    requires v.shootDeployment && cluster.shoot == Some(v.resources)
    requires V.WellFormed(cluster, checks, Elems(v.certConfig.issuers)) && c in Elems(v.certConfig.issuers)
    ensures Resolves(v, c) && V.ValidIssuer(cluster, checks, c)
  {
    var i :| 0 <= i < |Elems(v.certConfig.issuers)| && Elems(v.certConfig.issuers)[i] == c;
    assert V.ValidIssuer(cluster, checks, Elems(v.certConfig.issuers)[i]);
  }

  // ----- different names

  /** All collected issuers have different names, the default issuer included. */
  lemma CollectedNamesDistinct(v: Values)
    requires V.DistinctNames(Elems(v.certConfig.issuers)) && AllResolve(v, Deployed(v))
    ensures forall i, j :: 0 <= i < j < |Collected(v)| ==> Collected(v)[i].name != Collected(v)[j].name
  {
    hide Translated, Resolves, Own, Collected;
    OwnExactly(v.extensionConfig.issuerName, Elems(v.certConfig.issuers));
    forall i, j | 0 <= i < j < |Collected(v)|
      ensures Collected(v)[i].name != Collected(v)[j].name
    {
      CollectedAt(v, j);
      CollectedAt(v, i);
    }
  }

  // ----- nothing is lost

  /** An issuer config up to normalisation: nil is false is empty, and references are resolved. */
  datatype NormalIssuer = NormalIssuer(
    name: string,
    server: string,
    email: string,
    quota: Option<int>,
    keySecret: Option<string>,
    binding: Option<ExternalAccountBinding>,
    skip: bool,
    domains: Option<(seq<string>, seq<string>)>,
    nameservers: seq<string>)

  function NormalDomains(include_: Slice<string>, exclude: Slice<string>): Option<(seq<string>, seq<string>)> {
    if Elems(include_) == [] && Elems(exclude) == [] then None else Some((Elems(include_), Elems(exclude)))
  }

  function Normal(v: Values, c: IssuerConfig): NormalIssuer
    requires Resolves(v, c)
  {
    NormalIssuer(
      c.name,
      c.server,
      c.email,
      c.requestsPerDayQuota,
      if c.privateKeySecretName.None? then None else Some(Lookup(v, c.privateKeySecretName.value).value),
      if c.externalAccountBinding.None? then None
      else Some(ExternalAccountBinding(c.externalAccountBinding.value.keyID,
                                       Lookup(v, c.externalAccountBinding.value.keySecretName).value)),
      c.skipDNSChallengeValidation == Some(true),
      if c.domains.None? then None else NormalDomains(c.domains.value.include_, c.domains.value.exclude),
      Elems(c.precheckNameservers))
  }

  /** Reads an issuer back from the deployed object alone. */
  function Recovered(o: Object): Option<NormalIssuer> {
    if !o.IssuerObject? || o.spec.acme.None? then None
    else
      var a := o.spec.acme.value;
      Some(NormalIssuer(
        o.name,
        a.server,
        a.email,
        o.spec.requestsPerDayQuota,
        if a.autoRegistration then None else Some(a.privateKeySecretRef.name),
        if a.externalAccountBinding.None? then None
        else Some(ExternalAccountBinding(a.externalAccountBinding.value.keyID,
          a.externalAccountBinding.value.keySecretRef.name)),
        a.skipDNSChallengeValidation == Some(true),
        if a.domains.None? then None else NormalDomains(a.domains.value.include_, a.domains.value.exclude),
        Elems(a.precheckNameservers)))
  }

  /** For one issuer nothing is lost exactly if its quota is absent or positive: 0 stands for absent on the way. */
  lemma TranslationLossless(v: Values, c: IssuerConfig)
    requires Resolves(v, c)
    ensures Recovered(CreateIssuer(v, Translated(v, c))) == Some(Normal(v, c)) <==>
      (c.requestsPerDayQuota.Some? ==> c.requestsPerDayQuota.value > 0)
  {
    if c.privateKeySecretName.Some? {
      assert Lookup(v, c.privateKeySecretName.value).value[0] == 'r';
    }
  }

  function IssuerObjects(objects: seq<Object>): seq<Object> {
    if objects == [] then []
    else
      var n := |objects| - 1;
      IssuerObjects(objects[..n]) + if objects[n].IssuerObject? then [objects[n]] else []
  }

  lemma {:induction false} IssuerObjectsAppend(a: seq<Object>, b: seq<Object>)
    ensures IssuerObjects(a + b) == IssuerObjects(a) + IssuerObjects(b)
  {
    if b == [] {
      assert a + b == a;
    } else {
      var n := |b| - 1;
      IssuerObjectsAppend(a, b[..n]);
      assert (a + b)[..|a + b| - 1] == a + b[..n];
    }
  }

  lemma IssuerObjectsOf(v: Values, issuer: Issuer)
    ensures IssuerObjects(ObjectsOf(v, issuer)) == [CreateIssuer(v, issuer)]
  {
    hide CreateIssuer, SecretACME, SecretCA, IssuerObjects;
    var secretACME := if issuer.acme.Some? && issuer.acme.value.privateKey.Some? then [SecretACME(v, issuer)] else [];
    var secretCA := if issuer.ca.Some? then [SecretCA(v, issuer)] else [];
    NotSecret(v, issuer);
    AreSecrets(v, issuer);
    IssuerObjectsAppend(secretACME + secretCA, [CreateIssuer(v, issuer)]);
    OnlySecrets(secretACME + secretCA);
    OneIssuerObject(CreateIssuer(v, issuer));
  }

  lemma AreSecrets(v: Values, issuer: Issuer)
    ensures issuer.acme.Some? && issuer.acme.value.privateKey.Some? ==> SecretACME(v, issuer).Secret?
    ensures issuer.ca.Some? ==> SecretCA(v, issuer).Secret?
  {
  }

  lemma OneIssuerObject(o: Object)
    requires o.IssuerObject?
    ensures IssuerObjects([o]) == [o]
  {
    assert [o][..0] == [];
  }

  lemma NotSecret(v: Values, issuer: Issuer)
    ensures CreateIssuer(v, issuer).IssuerObject?
  {
  }

  lemma {:induction false} OnlySecrets(objects: seq<Object>)
    requires forall o :: o in objects ==> o.Secret?
    ensures IssuerObjects(objects) == []
  {
    if objects != [] {
      var n := |objects| - 1;
      assert objects[n] in objects;
      assert forall o :: o in objects[..n] ==> o in objects;
      OnlySecrets(objects[..n]);
    }
  }

  /** The Issuer objects of a deployment are those of its issuers, in order. */
  lemma {:induction false} IssuerObjectsAt(v: Values, issuers: seq<Issuer>)
    ensures |IssuerObjects(AllObjects(v, issuers))| == |issuers|
    ensures forall i :: 0 <= i < |issuers| ==> IssuerObjects(AllObjects(v, issuers))[i] == CreateIssuer(v, issuers[i])
  {
    hide CreateIssuer, ObjectsOf;
    if issuers != [] {
      var n := |issuers| - 1;
      IssuerObjectsAt(v, issuers[..n]);
      IssuerObjectsAppend(AllObjects(v, issuers[..n]), ObjectsOf(v, issuers[n]));
      IssuerObjectsOf(v, issuers[n]);
    }
  }

  /** For a validated config the deployed objects give back every issuer config that does not have the default name, in
      order and up to normalisation. The default issuer comes first. */
  lemma PipelineLossless(v: Values, cluster: V.Cluster, checks: V.Checks)
    requires ForShoot(v, v.certConfig, cluster) && V.ShootConfig(v.certConfig, cluster, checks)
    ensures AllResolve(v, Deployed(v))
    ensures var deployed := IssuerObjects(AllObjects(v, Collected(v)));
      && |deployed| == |Deployed(v)| + 1
      && deployed[0].name == v.extensionConfig.issuerName
      && forall i :: 0 <= i < |Deployed(v)| ==> Recovered(deployed[i + 1]) == Some(Normal(v, Deployed(v)[i]))
  {
    hide Translated, Resolves, Own, Collected, CreateIssuer, Recovered, Normal, V.WellFormed, IssuerObjects, AllObjects;
    ValidationSound(v, cluster, checks);
    IssuerObjectsAt(v, Collected(v));
    CollectedAt(v, 0);
    CreatedName(v, Collected(v)[0]);
    OwnExactly(v.extensionConfig.issuerName, Elems(v.certConfig.issuers));
    forall i | 0 <= i < |Deployed(v)|
      ensures Recovered(CreateIssuer(v, Collected(v)[i + 1])) == Some(Normal(v, Deployed(v)[i]))
    {
      CollectedAt(v, i + 1);
      assert Deployed(v)[i] in Deployed(v);
      ValidResolves(v, cluster, checks, Deployed(v)[i]);
      ValidQuota(cluster, checks, Deployed(v)[i]);
      TranslationLossless(v, Deployed(v)[i]);
    }
  }

  lemma CreatedName(v: Values, issuer: Issuer)
    ensures CreateIssuer(v, issuer).name == issuer.name
  {
  }

  lemma ValidQuota(cluster: V.Cluster, checks: V.Checks, c: IssuerConfig)
    requires V.ValidIssuer(cluster, checks, c)
    ensures c.requestsPerDayQuota.Some? ==> c.requestsPerDayQuota.value > 0
  {
  }

  // ----- where the objects are

  /** Object and Secrets are in the namespace of the deployment. The Issuer has the class of the deployment, if there is
      one, and a name for the key that registration makes. */
  predicate InPlace(v: Values, o: Object) {
    && o.namespace == v.namespace
    && (o.IssuerObject? ==>
          && o.classAnnotation == (if v.certClass == "" then None else Some(v.certClass))
          && (o.spec.caSecretRef.Some? ==>
                o.spec.caSecretRef.value
                == SecretReference("extension-shoot-cert-service-issuer-" + o.name + "-ca", v.namespace))
          && (o.spec.acme.Some? ==> ACMEInPlace(v, o.name, o.spec.acme.value)))
  }

  predicate ACMEInPlace(v: Values, name: string, acme: ACMESpec) {
    && acme.privateKeySecretRef.namespace == v.namespace
    && (acme.autoRegistration ==> acme.privateKeySecretRef.name == "extension-shoot-cert-service-issuer-" + name)
    && (acme.externalAccountBinding.Some? ==> acme.externalAccountBinding.value.keySecretRef.namespace == v.namespace)
  }

  lemma {:induction false} AllInPlace(v: Values, issuers: seq<Issuer>)
    ensures forall o :: o in AllObjects(v, issuers) ==> InPlace(v, o)
  {
    hide InPlace, ObjectsOf;
    if issuers != [] {
      var n := |issuers| - 1;
      AllInPlace(v, issuers[..n]);
      OneInPlace(v, issuers[n]);
    }
  }

  lemma OneInPlace(v: Values, issuer: Issuer)
    ensures forall o :: o in ObjectsOf(v, issuer) ==> InPlace(v, o)
  {
  }

  // ----- the default issuer

  datatype DefaultACME = DefaultACME(email: string, server: string, privateKey: Option<string>, skip: bool)

  datatype DefaultIssuer = DefaultIssuer(name: string, acme: Option<DefaultACME>, ca: Option<CAConfig>)

  /** The default issuer as the service configuration has it. */
  function Configured(c: Configuration): DefaultIssuer {
    DefaultIssuer(
      c.issuerName,
      if c.acme.None? then None
      else Some(DefaultACME(c.acme.value.email, c.acme.value.server, c.acme.value.privateKey,
                            c.acme.value.skipDNSChallengeValidation.GetOr(false))),
      c.ca)
  }

  /** The first Secret that a reference leads to. */
  function SecretData(objects: seq<Object>, ref: SecretReference): Option<map<string, string>> {
    if objects == [] then None
    else if objects[0].Secret? && objects[0].name == ref.name && objects[0].namespace == ref.namespace
      then Some(objects[0].data)
    else SecretData(objects[1..], ref)
  }

  function Entry(data: Option<map<string, string>>, key: string): Option<string> {
    if data.Some? && key in data.value then Some(data.value[key]) else None
  }

  /** Reads the default issuer back from the deployed objects: its Issuer comes first, its keys are in Secrets. */
  function RecoveredDefault(objects: seq<Object>): Option<DefaultIssuer> {
    if IssuerObjects(objects) == [] || !IssuerObjects(objects)[0].IssuerObject? then None
    else
      var o := IssuerObjects(objects)[0];
      Some(DefaultIssuer(
        o.name,
        if o.spec.acme.None? then None
        else
          var acme := o.spec.acme.value;
          Some(DefaultACME(acme.email, acme.server, Entry(SecretData(objects, acme.privateKeySecretRef), "privateKey"),
                           acme.skipDNSChallengeValidation.GetOr(false))),
        if o.spec.caSecretRef.None? then None
        else
          var data := SecretData(objects, o.spec.caSecretRef.value);
          Some(CAConfig(Entry(data, "tls.crt").GetOr(""), Entry(data, "tls.key").GetOr("")))))
  }

  /** No quota, no account binding, and neither domains nor nameservers of its own. */
  predicate Unrestricted(spec: IssuerSpec) {
    && spec.requestsPerDayQuota == None
    && (spec.acme.Some? ==>
          && spec.acme.value.externalAccountBinding == None && spec.acme.value.domains == None
          && spec.acme.value.precheckNameservers == None)
  }

  /** The deployed objects give back the default issuer of the service configuration, whatever issuers a shoot adds.
      The Secret of its key also has its email. */
  lemma DefaultIssuerRecovered(v: Values)
    requires AllResolve(v, Deployed(v))
    ensures RecoveredDefault(AllObjects(v, Collected(v))) == Some(Configured(v.extensionConfig))
    ensures var objects := IssuerObjects(AllObjects(v, Collected(v)));
      objects != [] && objects[0].IssuerObject? && Unrestricted(objects[0].spec)
    ensures v.extensionConfig.acme.Some? && v.extensionConfig.acme.value.privateKey.Some? ==>
      Entry(SecretData(AllObjects(v, Collected(v)), CreateACMESpec(v, Collected(v)[0]).value.privateKeySecretRef),
        "email")
        == Some(v.extensionConfig.acme.value.email)
  {
    hide AllObjects, ObjectsOf, SecretData, IssuerObjects, TranslatedAll;
    var garden := GardenIssuer(v.extensionConfig);
    IssuerObjectsAt(v, Collected(v));
    assert Collected(v)[0] == garden;
    NotSecret(v, garden);
    if garden.acme.Some? {
      var ref := CreateACMESpec(v, garden).value.privateKeySecretRef;
      DataInDeployment(v, ref, |Collected(v)|);
      assert Collected(v)[..|Collected(v)|] == Collected(v);
      KeyOfOne(v, garden, ref);
    }
    if garden.ca.Some? {
      var ref := CreateIssuer(v, garden).spec.caSecretRef.value;
      DataInDeployment(v, ref, |Collected(v)|);
      assert Collected(v)[..|Collected(v)|] == Collected(v);
      CertificateOfOne(v, garden, ref);
    }
  }

  lemma {:induction false} DataAppend(a: seq<Object>, b: seq<Object>, ref: SecretReference)
    ensures SecretData(a + b, ref) == if SecretData(a, ref).Some? then SecretData(a, ref) else SecretData(b, ref)
  {
    if a == [] {
      assert a + b == b;
    } else {
      assert (a + b)[1..] == a[1..] + b;
      DataAppend(a[1..], b, ref);
    }
  }

  /** Only the default issuer comes with Secrets. */
  lemma {:induction false} DataInDeployment(v: Values, ref: SecretReference, n: nat)
    requires AllResolve(v, Deployed(v)) && 1 <= n <= |Collected(v)|
    ensures SecretData(AllObjects(v, Collected(v)[..n]), ref)
      == SecretData(ObjectsOf(v, GardenIssuer(v.extensionConfig)), ref)
  {
    hide SecretData, GardenIssuer, TranslatedAll, Translated, CreateIssuer;
    var issuers := Collected(v)[..n];
    assert issuers[..n - 1] == Collected(v)[..n - 1] && issuers[n - 1] == Collected(v)[n - 1];
    DataAppend(AllObjects(v, issuers[..n - 1]), ObjectsOf(v, issuers[n - 1]), ref);
    if n == 1 {
      NoData(ref);
    } else {
      DataInDeployment(v, ref, n - 1);
      CollectedAt(v, n - 1);
      OwnWithoutSecrets(v, Deployed(v)[n - 2], ref);
    }
  }

  lemma NoData(ref: SecretReference)
    ensures SecretData([], ref) == None
  {
  }

  lemma OwnWithoutSecrets(v: Values, c: IssuerConfig, ref: SecretReference)
    requires Resolves(v, c)
    ensures SecretData(ObjectsOf(v, Translated(v, c)), ref) == None
  {
    hide CreateIssuer;
    NotSecret(v, Translated(v, c));
    assert ObjectsOf(v, Translated(v, c)) == [CreateIssuer(v, Translated(v, c))];
    NoData(ref);
  }

  lemma KeyOfOne(v: Values, issuer: Issuer, ref: SecretReference)
    requires issuer.acme.Some? && ref == SecretReference(ISSUER_SECRET_PREFIX + issuer.name, v.namespace)
    ensures Entry(SecretData(ObjectsOf(v, issuer), ref), "privateKey") == issuer.acme.value.privateKey
    ensures issuer.acme.value.privateKey.Some?
      ==> Entry(SecretData(ObjectsOf(v, issuer), ref), "email") == Some(issuer.acme.value.email)
  {
    hide CreateIssuer;
    NotSecret(v, issuer);
    assert |ref.name| != |ref.name + CA_SUFFIX|;
    var rest := (if issuer.ca.Some? then [SecretCA(v, issuer)] else []) + [CreateIssuer(v, issuer)];
    NoMatch(rest, ref);
    if issuer.acme.value.privateKey.Some? {
      assert ObjectsOf(v, issuer)[0] == SecretACME(v, issuer);
    } else {
      assert ObjectsOf(v, issuer) == rest;
    }
  }

  lemma {:induction false} NoMatch(objects: seq<Object>, ref: SecretReference)
    requires forall i :: 0 <= i < |objects| ==> objects[i].Secret? ==> objects[i].name != ref.name
    ensures SecretData(objects, ref) == None
  {
    if objects != [] {
      NoMatch(objects[1..], ref);
    }
  }

  lemma CertificateOfOne(v: Values, issuer: Issuer, ref: SecretReference)
    requires issuer.ca.Some? && ref == SecretReference(ISSUER_SECRET_PREFIX + issuer.name + CA_SUFFIX, v.namespace)
    ensures var data := SecretData(ObjectsOf(v, issuer), ref);
      Entry(data, "tls.crt") == Some(issuer.ca.value.certificate)
        && Entry(data, "tls.key") == Some(issuer.ca.value.certificateKey)
  {
    hide CreateIssuer;
    assert |ISSUER_SECRET_PREFIX + issuer.name| != |ref.name|;
    var rest := [SecretCA(v, issuer)] + [CreateIssuer(v, issuer)];
    if issuer.acme.Some? && issuer.acme.value.privateKey.Some? {
      assert ObjectsOf(v, issuer) == [SecretACME(v, issuer)] + rest;
      assert ObjectsOf(v, issuer)[1..] == rest;
    } else {
      assert ObjectsOf(v, issuer) == rest;
    }
  }

  // ----- private keys

  /** A Secret of the given name is among the objects. */
  predicate Emitted(objects: seq<Object>, ref: SecretReference) {
    exists i :: 0 <= i < |objects| && objects[i].Secret? && objects[i].name == ref.name
      && objects[i].namespace == ref.namespace
  }

  lemma {:induction false} EmittedBy(v: Values, issuers: seq<Issuer>, ref: SecretReference)
    ensures Emitted(AllObjects(v, issuers), ref) <==>
      exists k :: 0 <= k < |issuers| && Emitted(ObjectsOf(v, issuers[k]), ref)
  {
    hide ObjectsOf;
    if issuers != [] {
      var n := |issuers| - 1;
      var init, last := AllObjects(v, issuers[..n]), ObjectsOf(v, issuers[n]);
      EmittedBy(v, issuers[..n], ref);
      assert Emitted(init + last, ref) <==> Emitted(init, ref) || Emitted(last, ref) by {
        if Emitted(last, ref) {
          var i :| 0 <= i < |last| && last[i].Secret? && last[i].name == ref.name && last[i].namespace == ref.namespace;
          assert (init + last)[|init| + i] == last[i];
        }
        if Emitted(init, ref) {
          var i :| 0 <= i < |init| && init[i].Secret? && init[i].name == ref.name && init[i].namespace == ref.namespace;
          assert (init + last)[i] == init[i];
        }
      }
      assert forall k :: 0 <= k < n ==> issuers[..n][k] == issuers[k];
    }
  }

  /** Which Secrets one issuer contributes. */
  lemma EmittedByOne(v: Values, issuer: Issuer, ref: SecretReference)
    ensures Emitted(ObjectsOf(v, issuer), ref) <==>
      ref.namespace == v.namespace &&
      ((issuer.acme.Some? && issuer.acme.value.privateKey.Some? && ref.name == ISSUER_SECRET_PREFIX + issuer.name)
       || (issuer.ca.Some? && ref.name == ISSUER_SECRET_PREFIX + issuer.name + CA_SUFFIX))
  {
    hide CreateIssuer;
    NotSecret(v, issuer);
    var objects := ObjectsOf(v, issuer);
    if issuer.acme.Some? && issuer.acme.value.privateKey.Some? {
      assert objects[0] == SecretACME(v, issuer);
      if issuer.ca.Some? {
        assert objects[1] == SecretCA(v, issuer);
      }
    } else if issuer.ca.Some? {
      assert objects[0] == SecretCA(v, issuer);
    }
  }

  /** Only the default issuer comes with Secrets. */
  lemma EmittedInDeployment(v: Values, ref: SecretReference)
    requires AllResolve(v, Deployed(v))
    ensures Emitted(AllObjects(v, Collected(v)), ref) <==> Emitted(ObjectsOf(v, GardenIssuer(v.extensionConfig)), ref)
  {
    hide ObjectsOf, GardenIssuer, Emitted;
    EmittedBy(v, Collected(v), ref);
    forall k | 1 <= k < |Collected(v)|
      ensures !Emitted(ObjectsOf(v, Collected(v)[k]), ref)
    {
      EmittedByOne(v, Collected(v)[k], ref);
    }
    assert Collected(v)[0] == GardenIssuer(v.extensionConfig);
  }

  predicate KeyEmitted(objects: seq<Object>, spec: ACMESpec) {
    Emitted(objects, spec.privateKeySecretRef)
  }

  predicate KeyReferenced(spec: ACMESpec) {
    HasPrefix(spec.privateKeySecretRef.name, REFERENCED_RESOURCES_PREFIX)
  }

  /** The private key of an issuer is a Secret that is deployed with it, or a referenced one, or it is to be made by
      registration, and never both of the first two. It is exactly one of the three for the default issuer, and for
      another one exactly unless its config has no key, there is a CA section, and it is named like the CA Secret. */
  lemma PrivateKeyOrigin(v: Values, k: nat)
    requires AllResolve(v, Deployed(v)) && k < |Collected(v)| && Collected(v)[k].acme.Some?
    ensures |Collected(v)| == |Deployed(v)| + 1
    ensures var spec := CreateACMESpec(v, Collected(v)[k]).value;
      var emitted := KeyEmitted(AllObjects(v, Collected(v)), spec);
      && (emitted || KeyReferenced(spec) || spec.autoRegistration) && !(emitted && KeyReferenced(spec))
      && ((spec.autoRegistration <==> !emitted && !KeyReferenced(spec)) <==>
            k == 0 || !(Deployed(v)[k - 1].privateKeySecretName.None? && v.extensionConfig.ca.Some?
                        && Deployed(v)[k - 1].name == v.extensionConfig.issuerName + "-ca"))
  {
    hide Emitted, AllObjects, ObjectsOf, TranslatedAll;
    var issuer := Collected(v)[k];
    var garden := GardenIssuer(v.extensionConfig);
    var ref := CreateACMESpec(v, issuer).value.privateKeySecretRef;
    EmittedInDeployment(v, ref);
    EmittedByOne(v, garden, ref);
    assert REFERENCED_RESOURCES_PREFIX[0] == 'r' && ISSUER_SECRET_PREFIX[0] == 'e';
    SecretNames(v, issuer.name);
    CollectedAt(v, k);
  }

  /** A default issuer "d" with a CA, and a shoot issuer "d-ca" without a key. */
  function CollidingValues(): Values {
    var issuer := IssuerConfig("d-ca", "https://acme", "a@b.c", None, None, None, None, None, None);
    Values(Configuration("d", None, None, None, Some(CAConfig("crt", "key")), None, map[]),
           CertConfig(Some([issuer]), None, None, None, None, None), "shoot--a--b", "kubeconfig", "", [], true, "",
             false)
  }

  /** The input on which the origin is not unique: a key to be registered whose Secret is deployed as the CA's. */
  lemma CollidingKey()
    ensures var v := CollidingValues();
      && AllResolve(v, Deployed(v)) && |Collected(v)| == 2 && Collected(v)[1].name == "d-ca"
      && var acme := CreateACMESpec(v, Collected(v)[1]);
      && acme.Some? && acme.value.autoRegistration
      && Emitted(AllObjects(v, Collected(v)), acme.value.privateKeySecretRef)
  {
    hide Emitted, AllObjects, CreateACMESpec, Collected, Deployed, AllResolve, HasPrefix;
    var v := CollidingValues();
    CollidingCollected();
    CollidingDeployed();
    assert v.extensionConfig.issuerName + "-ca" == "d-ca";
    PrivateKeyOrigin(v, 1);
  }

  lemma CollidingCollected()
    ensures var v := CollidingValues();
      && AllResolve(v, Deployed(v)) && |Collected(v)| == 2 && Collected(v)[1].name == "d-ca"
        && Collected(v)[1].acme.Some?
      && var acme := CreateACMESpec(v, Collected(v)[1]);
      && acme.Some? && acme.value.autoRegistration
        && !HasPrefix(acme.value.privateKeySecretRef.name, REFERENCED_RESOURCES_PREFIX)
  {
    hide TranslatedAll, Collected;
    var v := CollidingValues();
    CollidingDeployed();
    CollectedAt(v, 1);
    assert REFERENCED_RESOURCES_PREFIX[0] == 'r' && ISSUER_SECRET_PREFIX[0] == 'e';
  }

  lemma CollidingDeployed()
    ensures var v := CollidingValues();
      Deployed(v) == v.certConfig.issuers.value && AllResolve(v, Deployed(v))
  {
    hide Own;
    var issuers := CollidingValues().certConfig.issuers.value;
    OwnNext("d", issuers, 0);
    assert issuers[..1] == issuers && issuers[..0] == [];
    OwnNothing("d");
  }

  /** The default issuer is first, the others follow in the order of their configs. */
  lemma CollectedAt(v: Values, k: nat)
    requires AllResolve(v, Deployed(v))
    ensures |Collected(v)| == |Deployed(v)| + 1
    ensures k == 0 ==>
      Collected(v)[k] == GardenIssuer(v.extensionConfig) && Collected(v)[k].name == v.extensionConfig.issuerName
    ensures 0 < k < |Collected(v)| ==>
      && Collected(v)[k] == Translated(v, Deployed(v)[k - 1])
      && Collected(v)[k].name == Deployed(v)[k - 1].name != v.extensionConfig.issuerName
  {
    hide Resolves, Own;
    OwnExactly(v.extensionConfig.issuerName, Elems(v.certConfig.issuers));
    if 0 < k < |Collected(v)| {
      assert Deployed(v)[k - 1] in Deployed(v);
    }
  }

  /** Generated secret names are equal exactly if the names behind them are. */
  lemma SecretNames(v: Values, name: string)
    ensures ISSUER_SECRET_PREFIX + name == ISSUER_SECRET_PREFIX + v.extensionConfig.issuerName
      <==> name == v.extensionConfig.issuerName
    ensures ISSUER_SECRET_PREFIX + name == ISSUER_SECRET_PREFIX + v.extensionConfig.issuerName + CA_SUFFIX
       <==> name == v.extensionConfig.issuerName + CA_SUFFIX
    ensures v.extensionConfig.issuerName + CA_SUFFIX != v.extensionConfig.issuerName
  {
    var n := |ISSUER_SECRET_PREFIX|;
    assert (ISSUER_SECRET_PREFIX + name)[n..] == name;
    assert (ISSUER_SECRET_PREFIX + v.extensionConfig.issuerName)[n..] == v.extensionConfig.issuerName;
    assert (ISSUER_SECRET_PREFIX + v.extensionConfig.issuerName + CA_SUFFIX)[n..]
      == v.extensionConfig.issuerName + CA_SUFFIX;
    assert ISSUER_SECRET_PREFIX + (v.extensionConfig.issuerName + CA_SUFFIX)
        == ISSUER_SECRET_PREFIX + v.extensionConfig.issuerName + CA_SUFFIX;
    assert |v.extensionConfig.issuerName + CA_SUFFIX| == |v.extensionConfig.issuerName| + 3;
  }
}
