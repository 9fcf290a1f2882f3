/** The configuration types of pkg/apis/service and pkg/apis/config as values. A slice that may be nil is an option. */
module ServiceTypes {
  import opened GoStrings

  type Slice<T> = Option<seq<T>>

  /** What a loop over the slice sees: nil is empty. */
  function Elems<T>(s: Slice<T>): seq<T> {
    if s.Some? then s.value else []
  }

  // ----- pkg/apis/service

  datatype ExternalAccountBinding = ExternalAccountBinding(keyID: string, keySecretName: string)

  datatype DNSSelection = DNSSelection(include_: Slice<string>, exclude: Slice<string>)

  datatype IssuerConfig = IssuerConfig(
    name: string,
    server: string,
    email: string,
    requestsPerDayQuota: Option<int>,
    privateKeySecretName: Option<string>,
    externalAccountBinding: Option<ExternalAccountBinding>,
    skipDNSChallengeValidation: Option<bool>,
    domains: Option<DNSSelection>,
    precheckNameservers: Slice<string>)

  datatype DNSChallengeOnShoot = DNSChallengeOnShoot(enabled: bool, namespace: string, dnsClass: Option<string>)

  datatype ShootIssuers = ShootIssuers(enabled: bool)

  datatype Alerting = Alerting(certExpirationAlertDays: Option<int>)

  datatype CertConfig = CertConfig(
    issuers: Slice<IssuerConfig>,
    dnsChallengeOnShoot: Option<DNSChallengeOnShoot>,
    shootIssuers: Option<ShootIssuers>,
    precheckNameservers: Option<string>,
    alerting: Option<Alerting>,
    generateControlPlaneCertificate: Option<bool>)

  // ----- pkg/apis/config

  datatype ACMEConfig = ACMEConfig(
    email: string,
    server: string,
    privateKey: Option<string>,
    propagationTimeout: Option<string>,
    precheckNameservers: Option<string>,
    caCertificates: Option<string>,
    deactivateAuthorizations: Option<bool>,
    skipDNSChallengeValidation: Option<bool>)

  datatype CAConfig = CAConfig(certificate: string, certificateKey: string)

  datatype PrivateKeyDefaults = PrivateKeyDefaults(algorithm: Option<string>, sizeRSA: Option<int>,
    sizeECDSA: Option<int>)

  datatype Configuration = Configuration(
    issuerName: string,
    restrictIssuer: Option<bool>,
    defaultRequestsPerDayQuota: Option<int>,
    acme: Option<ACMEConfig>,
    ca: Option<CAConfig>,
    privateKeyDefaults: Option<PrivateKeyDefaults>,
    inClusterACMEServerNamespaceMatchLabel: map<string, string>)

  // ----- resources that a shoot refers to

  const KIND_SECRET := "Secret"

  datatype ResourceReference = ResourceReference(name: string, kind: string, resourceName: string)

  /** The first resource with the name. */
  function FirstNamed(resources: seq<ResourceReference>, refname: string): (r: Option<ResourceReference>)
    ensures r.None? <==> forall i :: 0 <= i < |resources| ==> resources[i].name != refname
    ensures r.Some? ==> exists i :: 0 <= i < |resources| && resources[i] == r.value && r.value.name == refname &&
                          forall j :: 0 <= j < i ==> resources[j].name != refname
  {
    if resources == [] then None
    else if resources[0].name == refname then Some(resources[0])
    else
      var r := FirstNamed(resources[1..], refname);
      assert forall i :: 0 <= i < |resources[1..]| ==> resources[1..][i] == resources[i + 1];
      r
  }

  /** The reference leads to a Secret. */
  predicate ToSecret(resources: seq<ResourceReference>, refname: string) {
    var first := FirstNamed(resources, refname);
    first.Some? && first.value.kind == KIND_SECRET
  }

  /** The resource at i is the first with the name, and a Secret. */
  predicate SecretAt(resources: seq<ResourceReference>, refname: string, i: int) {
    && 0 <= i < |resources| && resources[i].name == refname && resources[i].kind == "Secret"
    && forall j :: 0 <= j < i ==> resources[j].name != refname
  }

  lemma FirstNamedAt(resources: seq<ResourceReference>, i: nat)
    requires i < |resources| && forall j :: 0 <= j < i ==> resources[j].name != resources[i].name
    ensures FirstNamed(resources, resources[i].name) == Some(resources[i])
  {
  }
}
