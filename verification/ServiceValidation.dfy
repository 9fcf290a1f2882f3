/** Validation of the CertConfig of a shoot, seed or garden Extension (pkg/apis/service/validation). */
module ServiceValidation {
  import opened GoStrings
  import opened ServiceTypes
  import Nameserver
  import NameserverLists

  /** Checks done by foreign code. */
  datatype Checks = Checks(requestURI: string -> bool, email: string -> bool)

  datatype Cluster = Cluster(shoot: Option<seq<ResourceReference>>)

  // ----- references

  datatype RefCheck = RefOk | ShootNotSet | NotASecret | NotFound

  predicate RefResolves(cluster: Cluster, refname: string) {
    cluster.shoot.Some? && ToSecret(cluster.shoot.value, refname)
  }

  function RefVerdict(cluster: Cluster, refname: string): (r: RefCheck)
    ensures r.RefOk? <==> RefResolves(cluster, refname)
  {
    if cluster.shoot.None? then ShootNotSet
    else
      var first := FirstNamed(cluster.shoot.value, refname);
      if first.None? then NotFound else if first.value.kind == KIND_SECRET then RefOk else NotASecret
  }

  method CheckReferencedResource(cluster: Cluster, refname: string) returns (detail: RefCheck)
    ensures detail == RefVerdict(cluster, refname)
    ensures detail == RefOk <==> cluster.shoot.Some? && exists i :: SecretAt(cluster.shoot.value, refname, i)
    ensures detail == NotFound <==>
      cluster.shoot.Some? && forall i :: 0 <= i < |cluster.shoot.value| ==> cluster.shoot.value[i].name != refname
    ensures detail == ShootNotSet <==> cluster.shoot.None?
  {
    if cluster.shoot.None? {
      return ShootNotSet;
    }
    var resources := cluster.shoot.value;
    for i := 0 to |resources|
      invariant forall j :: 0 <= j < i ==> resources[j].name != refname
    {
      if resources[i].name == refname {
        FirstNamedAt(resources, i);
        if resources[i].kind != KIND_SECRET {
          return NotASecret;
        }
        assert SecretAt(resources, refname, i);
        return RefOk;
      }
    }
    return NotFound;
  }

  // ----- one issuer

  datatype Field =
    | EmptyName
    | DuplicateName
    | Server
    | Email
    | PrivateKeySecretName(detail: RefCheck)
    | KeyID
    | KeySecretName(detail: RefCheck)
    | SkipDNSChallengeValidation
    | RequestsPerDayQuota
    | PrecheckNameserver(position: nat)

  /** The order in which the checks of one issuer are made. */
  function Rank(f: Field): nat {
    match f
    case EmptyName => 0
    case DuplicateName => 1
    case Server => 2
    case Email => 3
    case PrivateKeySecretName(_) => 4
    case KeyID => 5
    case KeySecretName(_) => 6
    case SkipDNSChallengeValidation => 7
    case RequestsPerDayQuota => 8
    case PrecheckNameserver(j) => 9 + j
  }

  datatype Issue = Issue(index: nat, field: Field)

  predicate Before(a: Issue, b: Issue) {
    a.index < b.index || (a.index == b.index && Rank(a.field) < Rank(b.field))
  }

  /** In order, so without repetitions. */
  predicate Ordered(errs: seq<Issue>) {
    forall a, b :: 0 <= a < b < |errs| ==> Before(errs[a], errs[b])
  }

  /** What is wrong with an issuer, apart from its name being taken. */
  ghost predicate Wrong(cluster: Cluster, checks: Checks, issuer: IssuerConfig, f: Field) {
    match f
    case EmptyName => issuer.name == ""
    case DuplicateName => false
    case Server => !checks.requestURI(issuer.server)
    case Email => !checks.email(issuer.email)
    case PrivateKeySecretName(d) =>
      issuer.privateKeySecretName.Some? && d == RefVerdict(cluster, issuer.privateKeySecretName.value) && d != RefOk
    case KeyID => issuer.externalAccountBinding.Some? && issuer.externalAccountBinding.value.keyID == ""
    case KeySecretName(d) =>
      issuer.externalAccountBinding.Some?
      && d == RefVerdict(cluster, issuer.externalAccountBinding.value.keySecretName) && d != RefOk
    case SkipDNSChallengeValidation =>
      issuer.skipDNSChallengeValidation == Some(true) && issuer.externalAccountBinding.None?
    case RequestsPerDayQuota => issuer.requestsPerDayQuota.Some? && issuer.requestsPerDayQuota.value < 1
    case PrecheckNameserver(j) =>
      j < |Elems(issuer.precheckNameservers)| && !Nameserver.IsNameserver(Elems(issuer.precheckNameservers)[j])
  }

  /** The name occurs earlier in the list. */
  predicate TakenBefore(issuers: seq<IssuerConfig>, i: nat)
    requires i < |issuers|
  {
    exists j :: 0 <= j < i && issuers[j].name == issuers[i].name
  }

  /** What the validation complains about. */
  ghost predicate Complaint(cluster: Cluster, checks: Checks, issuers: seq<IssuerConfig>, e: Issue) {
    e.index < |issuers| &&
    if e.field.DuplicateName? then TakenBefore(issuers, e.index) else Wrong(cluster, checks, issuers[e.index], e.field)
  }

  /** The complaints about an issuer that are checked before the given rank, in order. */
  ghost predicate CheckedUpTo(cluster: Cluster, checks: Checks, issuer: IssuerConfig, taken: bool, i: nat, rank: nat,
    errs: seq<Issue>) {
    && Ordered(errs)
    && forall e :: e in errs <==>
         e.index == i && Rank(e.field) < rank &&
         if e.field.DuplicateName? then taken else Wrong(cluster, checks, issuer, e.field)
  }

  lemma Checked(cluster: Cluster, checks: Checks, issuer: IssuerConfig, taken: bool, i: nat, rank: nat,
    errs: seq<Issue>, f: Field)
    requires CheckedUpTo(cluster, checks, issuer, taken, i, rank, errs) && Rank(f) == rank
    requires forall g :: Rank(g) == rank && g != f ==>
      !if g.DuplicateName? then taken else Wrong(cluster, checks, issuer, g)
    ensures if if f.DuplicateName? then taken else Wrong(cluster, checks, issuer, f)
      then CheckedUpTo(cluster, checks, issuer, taken, i, rank + 1, errs + [Issue(i, f)])
      else CheckedUpTo(cluster, checks, issuer, taken, i, rank + 1, errs)
  {
    hide Wrong;
    var errs' := errs + [Issue(i, f)];
    forall a, b | 0 <= a < b < |errs'|
      ensures Before(errs'[a], errs'[b])
    {
      assert errs'[a] in errs;
    }
  }

  /** One round of the loop in validateIssuers: every check adds at most one error. */
  method ValidateIssuer(cluster: Cluster, checks: Checks, issuer: IssuerConfig, taken: bool, i: nat)
    returns (errs: seq<Issue>)
    ensures CheckedUpTo(cluster, checks, issuer, taken, i, 9 + |Elems(issuer.precheckNameservers)|, errs)
  {
    hide CheckedUpTo, RefVerdict, Nameserver.IsNameserver;
    errs := [];
    NothingChecked(cluster, checks, issuer, taken, i);
    Checked(cluster, checks, issuer, taken, i, 0, errs, EmptyName);
    if issuer.name == "" {
      errs := errs + [Issue(i, EmptyName)];
    }
    Checked(cluster, checks, issuer, taken, i, 1, errs, DuplicateName);
    if taken {
      errs := errs + [Issue(i, DuplicateName)];
    }
    Checked(cluster, checks, issuer, taken, i, 2, errs, Server);
    if !checks.requestURI(issuer.server) {
      errs := errs + [Issue(i, Server)];
    }
    Checked(cluster, checks, issuer, taken, i, 3, errs, Email);
    if !checks.email(issuer.email) {
      errs := errs + [Issue(i, Email)];
    }
    errs := ValidateReferences(cluster, checks, issuer, taken, i, errs);
    Checked(cluster, checks, issuer, taken, i, 7, errs, SkipDNSChallengeValidation);
    if issuer.skipDNSChallengeValidation.Some? && issuer.skipDNSChallengeValidation.value
      && issuer.externalAccountBinding.None? {
      errs := errs + [Issue(i, SkipDNSChallengeValidation)];
    }
    Checked(cluster, checks, issuer, taken, i, 8, errs, RequestsPerDayQuota);
    if issuer.requestsPerDayQuota.Some? && issuer.requestsPerDayQuota.value < 1 {
      errs := errs + [Issue(i, RequestsPerDayQuota)];
    }
    var servers := Elems(issuer.precheckNameservers);
    for j := 0 to |servers|
      invariant CheckedUpTo(cluster, checks, issuer, taken, i, 9 + j, errs)
    {
      Checked(cluster, checks, issuer, taken, i, 9 + j, errs, PrecheckNameserver(j));
      var err := Nameserver.ValidateNameserver(servers[j]);
      if err.Some? {
        errs := errs + [Issue(i, PrecheckNameserver(j))];
      }
    }
  }

  /** The checks of the private key and the external account binding. */
  method ValidateReferences(cluster: Cluster, checks: Checks, issuer: IssuerConfig, taken: bool, i: nat,
    before: seq<Issue>)
    returns (errs: seq<Issue>)
    requires CheckedUpTo(cluster, checks, issuer, taken, i, 4, before)
    ensures CheckedUpTo(cluster, checks, issuer, taken, i, 7, errs)
  {
    hide CheckedUpTo, RefVerdict, Nameserver.IsNameserver;
    errs := before;
    var detail := RefOk;
    if issuer.privateKeySecretName.Some? {
      detail := CheckReferencedResource(cluster, issuer.privateKeySecretName.value);
    }
    Checked(cluster, checks, issuer, taken, i, 4, errs, PrivateKeySecretName(detail));
    if detail != RefOk {
      errs := errs + [Issue(i, PrivateKeySecretName(detail))];
    }
    Checked(cluster, checks, issuer, taken, i, 5, errs, KeyID);
    if issuer.externalAccountBinding.Some? && issuer.externalAccountBinding.value.keyID == "" {
      errs := errs + [Issue(i, KeyID)];
    }
    detail := RefOk;
    if issuer.externalAccountBinding.Some? {
      detail := CheckReferencedResource(cluster, issuer.externalAccountBinding.value.keySecretName);
    }
    Checked(cluster, checks, issuer, taken, i, 6, errs, KeySecretName(detail));
    if detail != RefOk {
      errs := errs + [Issue(i, KeySecretName(detail))];
    }
  }

  lemma NothingChecked(cluster: Cluster, checks: Checks, issuer: IssuerConfig, taken: bool, i: nat)
    ensures CheckedUpTo(cluster, checks, issuer, taken, i, 0, [])
  {
  }

  // ----- all issuers

  /** The complaints about the first n issuers, in order. */
  ghost predicate AllChecked(cluster: Cluster, checks: Checks, issuers: seq<IssuerConfig>, n: nat, errs: seq<Issue>) {
    && Ordered(errs)
    && forall e :: e in errs <==> e.index < n && Complaint(cluster, checks, issuers, e)
  }

  lemma NextChecked(cluster: Cluster, checks: Checks, issuers: seq<IssuerConfig>, n: nat, errs: seq<Issue>,
    more: seq<Issue>)
    requires n < |issuers| && AllChecked(cluster, checks, issuers, n, errs)
    requires CheckedUpTo(cluster, checks, issuers[n], TakenBefore(issuers, n), n,
                         9 + |Elems(issuers[n].precheckNameservers)|, more)
    ensures AllChecked(cluster, checks, issuers, n + 1, errs + more)
  {
    hide RefVerdict, Nameserver.IsNameserver;
    var all := errs + more;
    forall a, b | 0 <= a < b < |all|
      ensures Before(all[a], all[b])
    {
      assert a < |errs| ==> all[a] in errs;
      assert b >= |errs| ==> all[b] in more;
    }
    forall e
      ensures e in all <==> e.index < n + 1 && Complaint(cluster, checks, issuers, e)
    {
      assert e in all <==> e in errs || e in more;
    }
  }

  /** validateIssuers: exactly the complaints, in order. A name counts as taken exactly if it occurs earlier. */
  method ValidateIssuers(cluster: Cluster, checks: Checks, issuers: seq<IssuerConfig>) returns (errs: seq<Issue>)
    ensures Ordered(errs)
    ensures forall e :: e in errs <==> Complaint(cluster, checks, issuers, e)
    ensures forall i: nat :: Issue(i, DuplicateName) in errs <==> i < |issuers| && TakenBefore(issuers, i)
    ensures errs == [] <==> WellFormed(cluster, checks, issuers)
  {
    hide CheckedUpTo, AllChecked, Complaint, WellFormed;
    errs := [];
    var names: set<string> := {};
    NoIssuersChecked(cluster, checks, issuers);
    for i := 0 to |issuers|
      invariant AllChecked(cluster, checks, issuers, i, errs)
      invariant forall name :: name in names <==> exists j :: 0 <= j < i && issuers[j].name == name
    {
      var more := ValidateIssuer(cluster, checks, issuers[i], issuers[i].name in names, i);
      NextChecked(cluster, checks, issuers, i, errs, more);
      errs := errs + more;
      names := names + {issuers[i].name};
    }
    FullyChecked(cluster, checks, issuers, errs);
  }

  lemma NoIssuersChecked(cluster: Cluster, checks: Checks, issuers: seq<IssuerConfig>)
    ensures AllChecked(cluster, checks, issuers, 0, [])
  {
  }

  lemma FullyChecked(cluster: Cluster, checks: Checks, issuers: seq<IssuerConfig>, errs: seq<Issue>)
    requires AllChecked(cluster, checks, issuers, |issuers|, errs)
    ensures Ordered(errs)
    ensures forall e :: e in errs <==> Complaint(cluster, checks, issuers, e)
    ensures forall i: nat :: Issue(i, DuplicateName) in errs <==> i < |issuers| && TakenBefore(issuers, i)
    ensures errs == [] <==> WellFormed(cluster, checks, issuers)
  {
    hide RefVerdict, Nameserver.IsNameserver, WellFormed;
    NoComplaint(cluster, checks, issuers);
    if errs != [] {
      assert errs[0] in errs;
    }
  }

  /** An issuer by itself is in order. */
  ghost predicate ValidIssuer(cluster: Cluster, checks: Checks, issuer: IssuerConfig) {
    && issuer.name != ""
    && checks.requestURI(issuer.server) && checks.email(issuer.email)
    && (issuer.privateKeySecretName.Some? ==> RefResolves(cluster, issuer.privateKeySecretName.value))
    && (issuer.externalAccountBinding.Some? ==>
          issuer.externalAccountBinding.value.keyID != "" &&
          RefResolves(cluster, issuer.externalAccountBinding.value.keySecretName))
    && (issuer.skipDNSChallengeValidation == Some(true) ==> issuer.externalAccountBinding.Some?)
    && (issuer.requestsPerDayQuota.Some? ==> issuer.requestsPerDayQuota.value >= 1)
    && forall j :: 0 <= j < |Elems(issuer.precheckNameservers)| ==>
         Nameserver.IsNameserver(Elems(issuer.precheckNameservers)[j])
  }

  predicate DistinctNames(issuers: seq<IssuerConfig>) {
    forall i, j :: 0 <= i < j < |issuers| ==> issuers[i].name != issuers[j].name
  }

  /** The issuers are in order and have different names. */
  ghost predicate WellFormed(cluster: Cluster, checks: Checks, issuers: seq<IssuerConfig>) {
    DistinctNames(issuers) && forall i :: 0 <= i < |issuers| ==> ValidIssuer(cluster, checks, issuers[i])
  }

  lemma NothingWrong(cluster: Cluster, checks: Checks, issuer: IssuerConfig)
    ensures ValidIssuer(cluster, checks, issuer) <==> forall f :: !Wrong(cluster, checks, issuer, f)
  {
    hide Nameserver.IsNameserver, RefResolves;
    var servers := Elems(issuer.precheckNameservers);
    if ValidIssuer(cluster, checks, issuer) {
      forall f ensures !Wrong(cluster, checks, issuer, f) {
      }
    } else {
      var f :=
        if issuer.name == "" then EmptyName
        else if !checks.requestURI(issuer.server) then Server
        else if !checks.email(issuer.email) then Email
        else if issuer.privateKeySecretName.Some? && !RefResolves(cluster, issuer.privateKeySecretName.value) then
          PrivateKeySecretName(RefVerdict(cluster, issuer.privateKeySecretName.value))
        else if issuer.externalAccountBinding.Some? && issuer.externalAccountBinding.value.keyID == "" then KeyID
        else if issuer.externalAccountBinding.Some?
          && !RefResolves(cluster, issuer.externalAccountBinding.value.keySecretName) then
          KeySecretName(RefVerdict(cluster, issuer.externalAccountBinding.value.keySecretName))
        else if issuer.skipDNSChallengeValidation == Some(true) && issuer.externalAccountBinding.None?
          then SkipDNSChallengeValidation
        else if issuer.requestsPerDayQuota.Some? && issuer.requestsPerDayQuota.value < 1 then RequestsPerDayQuota
        else PrecheckNameserver(FirstBad(servers));
      assert Wrong(cluster, checks, issuer, f);
    }
  }

  ghost function FirstBad(servers: seq<string>): (j: nat)
    ensures (exists i :: 0 <= i < |servers| && !Nameserver.IsNameserver(servers[i])) ==>
      j < |servers| && !Nameserver.IsNameserver(servers[j])
  {
    if i: nat :| i < |servers| && !Nameserver.IsNameserver(servers[i]) then i else 0
  }

  lemma NoComplaint(cluster: Cluster, checks: Checks, issuers: seq<IssuerConfig>)
    ensures WellFormed(cluster, checks, issuers) <==> forall e :: !Complaint(cluster, checks, issuers, e)
  {
    hide ValidIssuer, Wrong;
    forall i | 0 <= i < |issuers|
      ensures ValidIssuer(cluster, checks, issuers[i]) <==> forall f :: !Wrong(cluster, checks, issuers[i], f)
    {
      NothingWrong(cluster, checks, issuers[i]);
    }
    if !DistinctNames(issuers) {
      var i, j :| 0 <= i < j < |issuers| && issuers[i].name == issuers[j].name;
      assert Complaint(cluster, checks, issuers, Issue(j, DuplicateName));
    } else if i :| 0 <= i < |issuers| && !ValidIssuer(cluster, checks, issuers[i]) {
      var f :| Wrong(cluster, checks, issuers[i], f);
      NeverDuplicate(cluster, checks, issuers[i]);
      assert Complaint(cluster, checks, issuers, Issue(i, f));
    }
  }

  lemma NeverDuplicate(cluster: Cluster, checks: Checks, issuer: IssuerConfig)
    ensures !Wrong(cluster, checks, issuer, DuplicateName)
  {
  }

  // ----- the whole config

  datatype Section = IssuersSection | NameserversSection | DNSChallengeSection | ShootIssuersSection | AlertingSection

  datatype ConfigError =
    | Forbidden(section: Section)
    | IssuerError(issue: Issue)
    | NamespaceRequired
    | NameserversError(error: NameserverLists.ListError)

  function IssuerErrors(issues: seq<Issue>): (errs: seq<ConfigError>)
    ensures |errs| == |issues|
    ensures forall e :: e in errs <==> e.IssuerError? && e.issue in issues
  {
    if issues == [] then [] else [IssuerError(issues[0])] + IssuerErrors(issues[1..])
  }

  function NameserversErrors(errors: seq<NameserverLists.ListError>): (errs: seq<ConfigError>)
    ensures |errs| == |errors|
    ensures forall e :: e in errs <==> e.NameserversError? && e.error in errors
  {
    if errors == [] then [] else [NameserversError(errors[0])] + NameserversErrors(errors[1..])
  }

  predicate Present(config: CertConfig, section: Section) {
    match section
    case IssuersSection => Elems(config.issuers) != []
    case NameserversSection => config.precheckNameservers.Some?
    case DNSChallengeSection => config.dnsChallengeOnShoot.Some?
    case ShootIssuersSection => config.shootIssuers.Some?
    case AlertingSection => config.alerting.Some?
  }

  /** Nothing but the switch for the certificate is allowed outside of shoots. */
  ghost predicate RuntimeConfig(config: CertConfig) {
    forall section: Section :: !Present(config, section)
  }

  ghost predicate ShootConfig(config: CertConfig, cluster: Cluster, checks: Checks) {
    && WellFormed(cluster, checks, Elems(config.issuers))
    && (config.dnsChallengeOnShoot.Some? && config.dnsChallengeOnShoot.value.enabled ==>
          config.dnsChallengeOnShoot.value.namespace != "")
    && (config.precheckNameservers.Some? ==> NameserverLists.IsNameserverList(config.precheckNameservers.value))
  }

  /** What the validation of a shoot's config complains about. */
  ghost predicate ShootComplaint(config: CertConfig, cluster: Cluster, checks: Checks, e: ConfigError) {
    match e
    case Forbidden(_) => false
    case IssuerError(issue) => Complaint(cluster, checks, Elems(config.issuers), issue)
    case NamespaceRequired =>
      config.dnsChallengeOnShoot.Some? && config.dnsChallengeOnShoot.value.enabled
        && config.dnsChallengeOnShoot.value.namespace == ""
    case NameserversError(error) => error in NameserverLists.ListErrors(config.precheckNameservers)
  }

  /** The part of ValidateCertConfig for the runtime cluster. */
  method ValidateRuntimeConfig(config: CertConfig) returns (errs: seq<ConfigError>)
    ensures errs == [] <==> RuntimeConfig(config)
    ensures errs == [] <==>
      && (config.issuers.None? || config.issuers.value == []) && config.precheckNameservers.None?
      && config.dnsChallengeOnShoot.None? && config.shootIssuers.None? && config.alerting.None?
    ensures forall e :: e in errs <==> e.Forbidden? && Present(config, e.section)
  {
    errs := [];
    if |Elems(config.issuers)| > 0 {
      errs := errs + [Forbidden(IssuersSection)];
    }
    if config.precheckNameservers.Some? {
      errs := errs + [Forbidden(NameserversSection)];
    }
    if config.dnsChallengeOnShoot.Some? {
      errs := errs + [Forbidden(DNSChallengeSection)];
    }
    if config.shootIssuers.Some? {
      errs := errs + [Forbidden(ShootIssuersSection)];
    }
    if config.alerting.Some? {
      errs := errs + [Forbidden(AlertingSection)];
    }
    forall e
      ensures e in errs <==> e.Forbidden? && Present(config, e.section)
    {
      if e.Forbidden? {
        match e.section
        case IssuersSection =>
        case NameserversSection =>
        case DNSChallengeSection =>
        case ShootIssuersSection =>
        case AlertingSection =>
      }
    }
    if errs != [] {
      assert errs[0] in errs;
    } else {
      forall section: Section ensures !Present(config, section) {
        assert Forbidden(section) !in errs;
      }
    }
  }

  /** ValidateCertConfig: without a cluster the config is for the garden runtime or a seed. */
  method ValidateCertConfig(config: CertConfig, cluster: Option<Cluster>, checks: Checks)
    returns (errs: seq<ConfigError>)
    ensures cluster.None? ==> (errs == [] <==> RuntimeConfig(config))
    ensures cluster.None? ==> forall e :: e in errs <==> e.Forbidden? && Present(config, e.section)
    ensures cluster.Some? ==> (errs == [] <==> ShootConfig(config, cluster.value, checks))
    ensures cluster.Some? ==> forall e :: e in errs <==> ShootComplaint(config, cluster.value, checks, e)
  {
    hide WellFormed, Complaint, NameserverLists.IsNameserverList, NameserverLists.ListErrors;
    errs := [];
    if cluster.None? {
      errs := ValidateRuntimeConfig(config);
      return;
    }
    var issues := ValidateIssuers(cluster.value, checks, Elems(config.issuers));
    errs := errs + IssuerErrors(issues);
    if config.dnsChallengeOnShoot.Some? && config.dnsChallengeOnShoot.value.enabled {
      if config.dnsChallengeOnShoot.value.namespace == "" {
        errs := errs + [NamespaceRequired];
      }
    }
    var nameserverErrs := NameserverLists.ValidatePrecheckNameservers(config.precheckNameservers);
    errs := errs + NameserversErrors(nameserverErrs);
  }
}
