/** From issuer configs to deployed Issuer and Secret objects (pkg/controller/extension/shared/deployer_issuers.go). */
module Issuers {
  import opened GoStrings
  import opened ServiceTypes
  import opened DeployerValues
  import V = ServiceValidation

  // ----- the internal model: "" and 0 stand for absent

  datatype Domains = Domains(include_: Slice<string>, exclude: Slice<string>)

  datatype ACME = ACME(
    email: string,
    server: string,
    privateKey: Option<string>,
    privateKeySecretName: string,
    externalAccountBinding: Option<ExternalAccountBinding>,
    skipDNSChallengeValidation: bool,
    domains: Option<Domains>)

  datatype Issuer = Issuer(
    name: string,
    acme: Option<ACME>,
    ca: Option<CAConfig>,
    requestsPerDayQuota: int,
    precheckNameservers: Slice<string>)

  datatype Result<T> = Ok(value: T) | Err(refname: string)

  const REFERENCED_RESOURCES_PREFIX := "ref-"
  const ISSUER_SECRET_PREFIX := "extension-shoot-cert-service-issuer-"
  const CA_SUFFIX := "-ca"

  /** The name of the copy of the referenced Secret in the control plane namespace. */
  function ReferencedSecret(resources: seq<ResourceReference>, refname: string): string
    requires ToSecret(resources, refname)
  {
    REFERENCED_RESOURCES_PREFIX + FirstNamed(resources, refname).value.resourceName
  }

  function Lookup(v: Values, refname: string): Result<string> {
    if v.shootDeployment && ToSecret(v.resources, refname) then Ok(ReferencedSecret(v.resources, refname))
      else Err(refname)
  }

  /** The first resource with the name leads to a Secret: its copy has the resource's name after a prefix. */
  method LookupReferencedSecret(v: Values, refname: string) returns (result: Result<string>)
    ensures result == Lookup(v, refname)
    ensures result.Ok? <==> v.shootDeployment && exists i :: SecretAt(v.resources, refname, i)
    ensures forall i :: result.Ok? && SecretAt(v.resources, refname, i) ==>
      result.value == "ref-" + v.resources[i].resourceName
    ensures result.Err? ==> result.refname == refname
  {
    if !v.shootDeployment {
      return Err(refname);
    }
    for i := 0 to |v.resources|
      invariant forall j :: 0 <= j < i ==> v.resources[j].name != refname
    {
      if v.resources[i].name == refname {
        FirstNamedAt(v.resources, i);
        if v.resources[i].kind != KIND_SECRET {
          return Err(refname);
        }
        assert SecretAt(v.resources, refname, i);
        return Ok(REFERENCED_RESOURCES_PREFIX + v.resources[i].resourceName);
      }
    }
    return Err(refname);
  }

  // ----- collectIssuers

  function GardenIssuer(c: Configuration): Issuer {
    Issuer(
      c.issuerName,
      if c.acme.None? then None
      else Some(ACME(c.acme.value.email, c.acme.value.server, c.acme.value.privateKey, "", None,
                     c.acme.value.skipDNSChallengeValidation.GetOr(false), None)),
      c.ca,
      0,
      None)
  }

  predicate KeyResolves(v: Values, issuer: IssuerConfig) {
    issuer.privateKeySecretName.Some? ==> Lookup(v, issuer.privateKeySecretName.value).Ok?
  }

  predicate BindingResolves(v: Values, issuer: IssuerConfig) {
    issuer.externalAccountBinding.Some? ==> Lookup(v, issuer.externalAccountBinding.value.keySecretName).Ok?
  }

  predicate Resolves(v: Values, issuer: IssuerConfig) {
    KeyResolves(v, issuer) && BindingResolves(v, issuer)
  }

  function Translated(v: Values, issuer: IssuerConfig): Issuer
    requires Resolves(v, issuer)
  {
    Issuer(
      issuer.name,
      Some(ACME(
        issuer.email,
        issuer.server,
        None,
        if issuer.privateKeySecretName.Some? then Lookup(v, issuer.privateKeySecretName.value).value else "",
        if issuer.externalAccountBinding.None? then None
        else Some(ExternalAccountBinding(
          issuer.externalAccountBinding.value.keyID,
          Lookup(v, issuer.externalAccountBinding.value.keySecretName).value)),
        issuer.skipDNSChallengeValidation.GetOr(false),
        if issuer.domains.Some? && |Elems(issuer.domains.value.include_)| + |Elems(issuer.domains.value.exclude)| > 0
        then Some(Domains(issuer.domains.value.include_, issuer.domains.value.exclude)) else None)),
      None,
      issuer.requestsPerDayQuota.GetOr(0),
      if |Elems(issuer.precheckNameservers)| > 0 then issuer.precheckNameservers else None)
  }

  /** The issuers that do not have the name of the default issuer. */
  function Own(defaultName: string, issuers: seq<IssuerConfig>): seq<IssuerConfig> {
    if issuers == [] then []
    else
      var n := |issuers| - 1;
      Own(defaultName, issuers[..n]) + if issuers[n].name == defaultName then [] else [issuers[n]]
  }

  predicate AllResolve(v: Values, issuers: seq<IssuerConfig>) {
    forall i :: 0 <= i < |issuers| ==> Resolves(v, issuers[i])
  }

  function TranslatedAll(v: Values, issuers: seq<IssuerConfig>): (r: seq<Issuer>)
    requires AllResolve(v, issuers)
    ensures |r| == |issuers| && forall i :: 0 <= i < |r| ==> r[i] == Translated(v, issuers[i])
  {
    seq(|issuers|, i requires 0 <= i < |issuers| => Translated(v, issuers[i]))
  }

  /** The user's issuers that are deployed. */
  function Deployed(v: Values): seq<IssuerConfig> {
    if v.shootDeployment then Own(v.extensionConfig.issuerName, Elems(v.certConfig.issuers)) else []
  }

  /** Own goes through the issuers one by one, in order. */
  lemma {:induction false} OwnInOrder(defaultName: string, a: seq<IssuerConfig>, b: seq<IssuerConfig>)
    ensures Own(defaultName, a + b) == Own(defaultName, a) + Own(defaultName, b)
    ensures forall c :: Own(defaultName, [c]) == if c.name == defaultName then [] else [c]
  {
    hide Own;
    forall c
      ensures Own(defaultName, [c]) == if c.name == defaultName then [] else [c]
    {
      OwnOfOne(defaultName, c);
    }
    if b == [] {
      assert a + b == a;
      OwnNothing(defaultName);
    } else {
      var n := |b| - 1;
      OwnInOrder(defaultName, a, b[..n]);
      OwnNext(defaultName, a + b, |a| + n);
      OwnNext(defaultName, b, n);
      assert (a + b)[..|a| + n] == a + b[..n] && (a + b)[..|a + b|] == a + b && b[..|b|] == b;
    }
  }

  lemma OwnOfOne(defaultName: string, c: IssuerConfig)
    ensures Own(defaultName, [c]) == if c.name == defaultName then [] else [c]
  {
    assert [c][..0] == [];
  }

  lemma OwnNext(defaultName: string, issuers: seq<IssuerConfig>, i: nat)
    requires i < |issuers|
    ensures Own(defaultName, issuers[..i + 1]) ==
            Own(defaultName, issuers[..i]) + if issuers[i].name == defaultName then [] else [issuers[i]]
  {
    assert issuers[..i + 1][..i] == issuers[..i];
  }

  /** Own keeps exactly the other names, and keeps names apart. */
  lemma {:induction false} OwnExactly(defaultName: string, issuers: seq<IssuerConfig>)
    ensures forall c :: c in Own(defaultName, issuers) <==> c in issuers && c.name != defaultName
    ensures V.DistinctNames(issuers) ==> V.DistinctNames(Own(defaultName, issuers))
  {
    if issuers != [] {
      var n := |issuers| - 1;
      OwnExactly(defaultName, issuers[..n]);
      assert issuers == issuers[..n] + [issuers[n]];
      var own := Own(defaultName, issuers[..n]);
      if V.DistinctNames(issuers) {
        forall i | 0 <= i < |own|
          ensures own[i].name != issuers[n].name
        {
          assert own[i] in issuers[..n];
        }
      }
    }
  }

  /** The loop body of collectIssuers for one issuer. */
  method TranslateIssuer(v: Values, issuer: IssuerConfig) returns (result: Result<Issuer>)
    ensures result.Ok? <==> Resolves(v, issuer)
    ensures result.Ok? ==> result.value == Translated(v, issuer)
    ensures result.Err? ==>
      result.refname == if !KeyResolves(v, issuer) then issuer.privateKeySecretName.value
                        else if issuer.externalAccountBinding.Some?
                          then issuer.externalAccountBinding.value.keySecretName else ""
  {
    var acme := ACME(issuer.email, issuer.server, None, "", None, false, None);
    if issuer.privateKeySecretName.Some? {
      var secretName := LookupReferencedSecret(v, issuer.privateKeySecretName.value);
      if secretName.Err? {
        return Err(secretName.refname);
      }
      acme := acme.(privateKeySecretName := secretName.value);
    }
    if issuer.externalAccountBinding.Some? {
      var binding := issuer.externalAccountBinding.value;
      var secretName := LookupReferencedSecret(v, binding.keySecretName);
      if secretName.Err? {
        return Err(secretName.refname);
      }
      acme := acme.(externalAccountBinding := Some(ExternalAccountBinding(binding.keyID, secretName.value)));
    }
    if issuer.skipDNSChallengeValidation.Some? && issuer.skipDNSChallengeValidation.value {
      acme := acme.(skipDNSChallengeValidation := true);
    }
    if issuer.domains.Some? && |Elems(issuer.domains.value.include_)| + |Elems(issuer.domains.value.exclude)| > 0 {
      var domains := Domains(None, None);
      if issuer.domains.value.include_.Some? {
        domains := domains.(include_ := issuer.domains.value.include_);
      }
      if issuer.domains.value.exclude.Some? {
        domains := domains.(exclude := issuer.domains.value.exclude);
      }
      acme := acme.(domains := Some(domains));
    }
    var modelIssuer := Issuer(issuer.name, Some(acme), None, 0, None);
    if issuer.requestsPerDayQuota.Some? {
      modelIssuer := modelIssuer.(requestsPerDayQuota := issuer.requestsPerDayQuota.value);
    }
    if |Elems(issuer.precheckNameservers)| > 0 {
      modelIssuer := modelIssuer.(precheckNameservers := issuer.precheckNameservers);
    }
    return Ok(modelIssuer);
  }

  lemma OwnNothing(defaultName: string)
    ensures Own(defaultName, []) == []
  {
  }

  /** The default issuer, built at the beginning of collectIssuers. */
  method BuildGardenIssuer(config: Configuration) returns (gardenIssuer: Issuer)
    ensures gardenIssuer == GardenIssuer(config)
  {
    gardenIssuer := Issuer(config.issuerName, None, None, 0, None);
    if config.acme.Some? {
      var acme := config.acme.value;
      gardenIssuer := gardenIssuer.(acme := Some(ACME(acme.email, acme.server, acme.privateKey, "", None,
                                                      acme.skipDNSChallengeValidation.GetOr(false), None)));
    }
    if config.ca.Some? {
      gardenIssuer := gardenIssuer.(ca := Some(CAConfig(config.ca.value.certificate, config.ca.value.certificateKey)));
    }
  }

  /** collectIssuers succeeds exactly if all references of the deployed issuers resolve. */
  method CollectIssuers(v: Values) returns (result: Result<seq<Issuer>>)
    ensures result.Ok? <==> AllResolve(v, Deployed(v))
    ensures result.Ok? ==> result.value == [GardenIssuer(v.extensionConfig)] + TranslatedAll(v, Deployed(v))
  {
    hide Translated, Resolves, Own, GardenIssuer;
    OwnNothing(v.extensionConfig.issuerName);
    var config := v.extensionConfig;
    var gardenIssuer := BuildGardenIssuer(config);
    var issuerList := [gardenIssuer];
    if !v.shootDeployment {
      return Ok(issuerList);
    }
    var issuers := Elems(v.certConfig.issuers);
    for i := 0 to |issuers|
      invariant AllResolve(v, Own(config.issuerName, issuers[..i]))
      invariant issuerList == [GardenIssuer(config)] + TranslatedAll(v, Own(config.issuerName, issuers[..i]))
    {
      OwnNext(config.issuerName, issuers, i);
      if issuers[i].name == config.issuerName {
        continue;
      }
      var translated := TranslateIssuer(v, issuers[i]);
      if translated.Err? {
        OwnExactly(config.issuerName, issuers);
        assert issuers[i] in Own(config.issuerName, issuers);
        return Err(translated.refname);
      }
      issuerList := issuerList + [translated.value];
    }
    assert issuers[..|issuers|] == issuers;
    return Ok(issuerList);
  }

  // ----- the deployed objects

  datatype SecretReference = SecretReference(name: string, namespace: string)

  datatype BindingSpec = BindingSpec(keyID: string, keySecretRef: SecretReference)

  datatype ACMESpec = ACMESpec(
    email: string,
    server: string,
    privateKeySecretRef: SecretReference,
    autoRegistration: bool,
    precheckNameservers: Slice<string>,
    externalAccountBinding: Option<BindingSpec>,
    skipDNSChallengeValidation: Option<bool>,
    domains: Option<DNSSelection>)

  datatype IssuerSpec = IssuerSpec(acme: Option<ACMESpec>, caSecretRef: Option<SecretReference>,
    requestsPerDayQuota: Option<int>)

  datatype Object =
    | Secret(name: string, namespace: string, data: map<string, string>)
    | IssuerObject(name: string, namespace: string, classAnnotation: Option<string>, spec: IssuerSpec)

  function CreateACMESpec(v: Values, issuer: Issuer): Option<ACMESpec> {
    if issuer.acme.None? then None
    else
      var input := issuer.acme.value;
      Some(ACMESpec(
        input.email,
        input.server,
        SecretReference(
          if input.privateKeySecretName == "" then ISSUER_SECRET_PREFIX + issuer.name else input.privateKeySecretName,
          v.namespace),
        input.privateKeySecretName == "" && input.privateKey.None?,
        issuer.precheckNameservers,
        if input.externalAccountBinding.None? then None
        else Some(BindingSpec(
          input.externalAccountBinding.value.keyID,
          SecretReference(input.externalAccountBinding.value.keySecretName, v.namespace))),
        if input.skipDNSChallengeValidation then Some(true) else None,
        if input.domains.None? then None
        else Some(DNSSelection(input.domains.value.include_, input.domains.value.exclude))))
  }

  function CreateIssuer(v: Values, issuer: Issuer): Object {
    IssuerObject(
      issuer.name,
      v.namespace,
      if v.certClass == "" then None else Some(v.certClass),
      IssuerSpec(
        CreateACMESpec(v, issuer),
        if issuer.ca.None? then None
        else Some(SecretReference(ISSUER_SECRET_PREFIX + issuer.name + CA_SUFFIX, v.namespace)),
        if issuer.requestsPerDayQuota > 0 then Some(issuer.requestsPerDayQuota) else None))
  }

  function SecretACME(v: Values, issuer: Issuer): Object
    requires issuer.acme.Some? && issuer.acme.value.privateKey.Some?
  {
    Secret(ISSUER_SECRET_PREFIX + issuer.name, v.namespace,
           map["email" := issuer.acme.value.email, "privateKey" := issuer.acme.value.privateKey.value])
  }

  function SecretCA(v: Values, issuer: Issuer): Object
    requires issuer.ca.Some?
  {
    Secret(ISSUER_SECRET_PREFIX + issuer.name + CA_SUFFIX, v.namespace,
           map["tls.crt" := issuer.ca.value.certificate, "tls.key" := issuer.ca.value.certificateKey])
  }

  function ObjectsOf(v: Values, issuer: Issuer): seq<Object> {
    (if issuer.acme.Some? && issuer.acme.value.privateKey.Some? then [SecretACME(v, issuer)] else [])
    + (if issuer.ca.Some? then [SecretCA(v, issuer)] else [])
    + [CreateIssuer(v, issuer)]
  }

  function AllObjects(v: Values, issuers: seq<Issuer>): seq<Object> {
    if issuers == [] then []
    else AllObjects(v, issuers[..|issuers| - 1]) + ObjectsOf(v, issuers[|issuers| - 1])
  }

  /** The issuers of a deployment whose references resolve. */
  function Collected(v: Values): seq<Issuer>
    requires AllResolve(v, Deployed(v))
  {
    [GardenIssuer(v.extensionConfig)] + TranslatedAll(v, Deployed(v))
  }

  method CreateIssuers(v: Values) returns (result: Result<(seq<Object>, seq<Issuer>)>)
    ensures result.Ok? <==> AllResolve(v, Deployed(v))
    ensures result.Ok? ==> result.value == (AllObjects(v, Collected(v)), Collected(v))
  {
    hide GardenIssuer, TranslatedAll, CreateIssuer, SecretACME, SecretCA;
    var objects: seq<Object> := [];
    var issuers := CollectIssuers(v);
    if issuers.Err? {
      return Err(issuers.refname);
    }
    for i := 0 to |issuers.value|
      invariant objects == AllObjects(v, issuers.value[..i])
    {
      var issuer := issuers.value[i];
      assert issuers.value[..i + 1][..i] == issuers.value[..i];
      ghost var before := objects;
      if issuer.acme.Some? && issuer.acme.value.privateKey.Some? {
        objects := objects + [SecretACME(v, issuer)];
      }
      if issuer.ca.Some? {
        objects := objects + [SecretCA(v, issuer)];
      }
      objects := objects + [CreateIssuer(v, issuer)];
      assert objects == before + ObjectsOf(v, issuer);
    }
    assert issuers.value[..|issuers.value|] == issuers.value;
    return Ok((objects, issuers.value));
  }
}
