/** The command line of the cert-controller-manager (Deployer.args) and how it is read back. */
module ControllerArgs {
  import opened GoStrings
  import opened OrderedSets
  import opened ServiceTypes
  import opened DeployerValues
  import NameserverLists

  datatype Key =
    | Name
    | Namespace
    | Source
    | CertClass
    | UseDNSRecords
    | IssuerNamespace
    | DefaultIssuer
    | DefaultQuota
    | DomainRanges
    | PrecheckNameservers
    | DNS
    | DNSNamespace
    | DNSClass
    | ServerPort
    | IngressCertPool
    | ServiceCertPool
    | IssuerPool
    | PropagationTimeout
    | AllowTargetIssuers
    | DeactivateAuthorizations
    | LeaseName
    | LeaseResourceLock
    | KubeconfigDisableCRDs
    | SourceDisableCRDs
    | TargetDisableCRDs
    | Algorithm
    | SizeRSA
    | SizeECDSA

  /** The option of a key. */
  function Switch(k: Key): string {
    match k
    case Name => "--name"
    case Namespace => "--namespace"
    case Source => "--source"
    case CertClass => "--cert-class"
    case UseDNSRecords => "--use-dnsrecords"
    case IssuerNamespace => "--issuer.issuer-namespace"
    case DefaultIssuer => "--issuer.default-issuer"
    case DefaultQuota => "--issuer.default-requests-per-day-quota"
    case DomainRanges => "--issuer.default-issuer-domain-ranges"
    case PrecheckNameservers => "--issuer.precheck-nameservers"
    case DNS => "--dns"
    case DNSNamespace => "--issuer.dns-namespace"
    case DNSClass => "--issuer.dns-class"
    case ServerPort => "--server-port-http"
    case IngressCertPool => "--ingress-cert.targets.pool.size"
    case ServiceCertPool => "--service-cert.targets.pool.size"
    case IssuerPool => "--issuer.default.pool.size"
    case PropagationTimeout => "--propagation-timeout"
    case AllowTargetIssuers => "--allow-target-issuers"
    case DeactivateAuthorizations => "--acme-deactivate-authorizations"
    case LeaseName => "--lease-name"
    case LeaseResourceLock => "--lease-resource-lock"
    case KubeconfigDisableCRDs => "--kubeconfig.disable-deploy-crds"
    case SourceDisableCRDs => "--source.disable-deploy-crds"
    case TargetDisableCRDs => "--target.disable-deploy-crds"
    case Algorithm => "--default-private-key-algorithm"
    case SizeRSA => "--default-rsa-private-key-size"
    case SizeECDSA => "--default-ecdsa-private-key-size"
  }

  /** Length and first char after the dashes tell the keys apart. */
  function Mark(k: Key): (nat, char) {
    match k
    case Name => (6, 'n')
    case Namespace => (11, 'n')
    case Source => (8, 's')
    case CertClass => (12, 'c')
    case UseDNSRecords => (16, 'u')
    case IssuerNamespace => (25, 'i')
    case DefaultIssuer => (23, 'i')
    case DefaultQuota => (39, 'i')
    case DomainRanges => (37, 'i')
    case PrecheckNameservers => (29, 'i')
    case DNS => (5, 'd')
    case DNSNamespace => (22, 'i')
    case DNSClass => (18, 'i')
    case ServerPort => (18, 's')
    case IngressCertPool => (32, 'i')
    case ServiceCertPool => (32, 's')
    case IssuerPool => (26, 'i')
    case PropagationTimeout => (21, 'p')
    case AllowTargetIssuers => (22, 'a')
    case DeactivateAuthorizations => (32, 'a')
    case LeaseName => (12, 'l')
    case LeaseResourceLock => (21, 'l')
    case KubeconfigDisableCRDs => (32, 'k')
    case SourceDisableCRDs => (28, 's')
    case TargetDisableCRDs => (28, 't')
    case Algorithm => (31, 'd')
    case SizeRSA => (30, 'd')
    case SizeECDSA => (32, 'd')
  }

  function Marked(n: nat, c: char): Key {
    if n == 6 && c == 'n' then Name
    else if n == 11 && c == 'n' then Namespace
    else if n == 8 && c == 's' then Source
    else if n == 12 && c == 'c' then CertClass
    else if n == 16 && c == 'u' then UseDNSRecords
    else if n == 25 && c == 'i' then IssuerNamespace
    else if n == 23 && c == 'i' then DefaultIssuer
    else if n == 39 && c == 'i' then DefaultQuota
    else if n == 37 && c == 'i' then DomainRanges
    else if n == 29 && c == 'i' then PrecheckNameservers
    else if n == 5 && c == 'd' then DNS
    else if n == 22 && c == 'i' then DNSNamespace
    else if n == 18 && c == 'i' then DNSClass
    else if n == 18 && c == 's' then ServerPort
    else if n == 32 && c == 'i' then IngressCertPool
    else if n == 32 && c == 's' then ServiceCertPool
    else if n == 26 && c == 'i' then IssuerPool
    else if n == 21 && c == 'p' then PropagationTimeout
    else if n == 22 && c == 'a' then AllowTargetIssuers
    else if n == 32 && c == 'a' then DeactivateAuthorizations
    else if n == 12 && c == 'l' then LeaseName
    else if n == 21 && c == 'l' then LeaseResourceLock
    else if n == 32 && c == 'k' then KubeconfigDisableCRDs
    else if n == 28 && c == 's' then SourceDisableCRDs
    else if n == 28 && c == 't' then TargetDisableCRDs
    else if n == 31 && c == 'd' then Algorithm
    else if n == 30 && c == 'd' then SizeRSA
    else SizeECDSA
  }

  lemma SwitchIsMarked0(k: Key)
    requires k.Name? || k.Namespace? || k.Source? || k.CertClass? || k.UseDNSRecords? || k.IssuerNamespace?
      || k.DefaultIssuer?
    ensures |Switch(k)| == Mark(k).0 && |Switch(k)| > 2 && Switch(k)[2] == Mark(k).1
  {
    hide Marked;
  }

  lemma SwitchIsMarked1(k: Key)
    requires k.DefaultQuota? || k.DomainRanges? || k.PrecheckNameservers? || k.DNS? || k.DNSNamespace? || k.DNSClass?
      || k.ServerPort?
    ensures |Switch(k)| == Mark(k).0 && |Switch(k)| > 2 && Switch(k)[2] == Mark(k).1
  {
    hide Marked;
  }

  lemma SwitchIsMarked2(k: Key)
    requires k.IngressCertPool? || k.ServiceCertPool? || k.IssuerPool? || k.PropagationTimeout?
      || k.AllowTargetIssuers? || k.DeactivateAuthorizations? || k.LeaseName?
    ensures |Switch(k)| == Mark(k).0 && |Switch(k)| > 2 && Switch(k)[2] == Mark(k).1
  {
    hide Marked;
  }

  lemma SwitchIsMarked3(k: Key)
    requires k.LeaseResourceLock? || k.KubeconfigDisableCRDs? || k.SourceDisableCRDs? || k.TargetDisableCRDs?
      || k.Algorithm? || k.SizeRSA? || k.SizeECDSA?
    ensures |Switch(k)| == Mark(k).0 && |Switch(k)| > 2 && Switch(k)[2] == Mark(k).1
  {
    hide Marked;
  }

  lemma SwitchIsMarked(k: Key)
    ensures |Switch(k)| == Mark(k).0 && |Switch(k)| > 2 && Switch(k)[2] == Mark(k).1
  {
    hide Switch, Mark, Marked;
    if k.Name? || k.Namespace? || k.Source? || k.CertClass? || k.UseDNSRecords? || k.IssuerNamespace?
      || k.DefaultIssuer? {
      SwitchIsMarked0(k);
    } else if k.DefaultQuota? || k.DomainRanges? || k.PrecheckNameservers? || k.DNS? || k.DNSNamespace? || k.DNSClass?
      || k.ServerPort? {
      SwitchIsMarked1(k);
    } else if k.IngressCertPool? || k.ServiceCertPool? || k.IssuerPool? || k.PropagationTimeout?
      || k.AllowTargetIssuers? || k.DeactivateAuthorizations? || k.LeaseName? {
      SwitchIsMarked2(k);
    } else {
      SwitchIsMarked3(k);
    }
  }

  lemma MarkTellsKey(k: Key)
    ensures Marked(Mark(k).0, Mark(k).1) == k
  {
    hide Switch;
  }

  lemma SwitchInjective(a: Key, b: Key)
    ensures Switch(a) == Switch(b) <==> a == b
  {
    hide Switch, Mark, Marked;
    SwitchIsMarked(a);
    SwitchIsMarked(b);
    MarkTellsKey(a);
    MarkTellsKey(b);
  }

  lemma NoEquals0(k: Key)
    requires k.Name? || k.Namespace? || k.Source? || k.CertClass? || k.UseDNSRecords? || k.IssuerNamespace?
    ensures Free(Switch(k), '=')
  {
  }

  lemma NoEquals1(k: Key)
    requires k.DefaultIssuer? || k.DefaultQuota?
    ensures Free(Switch(k), '=')
  {
  }

  lemma NoEquals2(k: Key)
    requires k.DomainRanges? || k.PrecheckNameservers?
    ensures Free(Switch(k), '=')
  {
  }

  lemma NoEquals3(k: Key)
    requires k.DNS? || k.DNSNamespace? || k.DNSClass? || k.ServerPort?
    ensures Free(Switch(k), '=')
  {
  }

  lemma NoEquals4(k: Key)
    requires k.IngressCertPool? || k.ServiceCertPool?
    ensures Free(Switch(k), '=')
  {
  }

  lemma NoEquals5(k: Key)
    requires k.IssuerPool? || k.PropagationTimeout?
    ensures Free(Switch(k), '=')
  {
  }

  lemma NoEquals6(k: Key)
    requires k.AllowTargetIssuers? || k.DeactivateAuthorizations?
    ensures Free(Switch(k), '=')
  {
  }

  lemma NoEquals7(k: Key)
    requires k.LeaseName? || k.LeaseResourceLock?
    ensures Free(Switch(k), '=')
  {
  }

  lemma NoEquals8(k: Key)
    requires k.KubeconfigDisableCRDs? || k.SourceDisableCRDs?
    ensures Free(Switch(k), '=')
  {
  }

  lemma NoEquals9(k: Key)
    requires k.TargetDisableCRDs? || k.Algorithm?
    ensures Free(Switch(k), '=')
  {
  }

  lemma NoEquals10(k: Key)
    requires k.SizeRSA? || k.SizeECDSA?
    ensures Free(Switch(k), '=')
  {
  }

  lemma NoEquals(k: Key)
    ensures Free(Switch(k), '=')
  {
    hide Switch;
    match k
    case Name => NoEquals0(k);
    case Namespace => NoEquals0(k);
    case Source => NoEquals0(k);
    case CertClass => NoEquals0(k);
    case UseDNSRecords => NoEquals0(k);
    case IssuerNamespace => NoEquals0(k);
    case DefaultIssuer => NoEquals1(k);
    case DefaultQuota => NoEquals1(k);
    case DomainRanges => NoEquals2(k);
    case PrecheckNameservers => NoEquals2(k);
    case DNS => NoEquals3(k);
    case DNSNamespace => NoEquals3(k);
    case DNSClass => NoEquals3(k);
    case ServerPort => NoEquals3(k);
    case IngressCertPool => NoEquals4(k);
    case ServiceCertPool => NoEquals4(k);
    case IssuerPool => NoEquals5(k);
    case PropagationTimeout => NoEquals5(k);
    case AllowTargetIssuers => NoEquals6(k);
    case DeactivateAuthorizations => NoEquals6(k);
    case LeaseName => NoEquals7(k);
    case LeaseResourceLock => NoEquals7(k);
    case KubeconfigDisableCRDs => NoEquals8(k);
    case SourceDisableCRDs => NoEquals8(k);
    case TargetDisableCRDs => NoEquals9(k);
    case Algorithm => NoEquals9(k);
    case SizeRSA => NoEquals10(k);
    case SizeECDSA => NoEquals10(k);
  }

  // ----- writing and reading one argument

  function Setting(k: Key, value: string): string {
    Switch(k) + "=" + value
  }

  /** Cut at the first equals sign, if there is one. */
  function Parsed(arg: string): (string, Option<string>) {
    var i := IndexByte(arg, '=');
    if i < 0 then (arg, None) else (arg[..i], Some(arg[i + 1..]))
  }

  lemma ParsedSetting(k: Key, value: string)
    ensures Parsed(Setting(k, value)) == (Switch(k), Some(value))
  {
    hide Switch, IndexByte;
    NoEquals(k);
    var arg := Setting(k, value);
    var n := |Switch(k)|;
    assert arg[..n] == Switch(k) && arg[n] == '=' && arg[n + 1..] == value;
    IndexIs(arg, '=', n);
  }

  lemma ParsedSwitch(k: Key)
    ensures Parsed(Switch(k)) == (Switch(k), None)
  {
    hide Switch, IndexByte;
    NoEquals(k);
  }

  // ----- reading a command line: the last argument with a key wins

  function Lookup(args: seq<string>, key: string): Option<Option<string>> {
    if args == [] then None
    else
      var last := Parsed(args[|args| - 1]);
      if last.0 == key then Some(last.1) else Lookup(args[..|args| - 1], key)
  }

  function Occurrences(args: seq<string>, key: string): nat {
    if args == [] then 0
    else Occurrences(args[..|args| - 1], key) + if Parsed(args[|args| - 1]).0 == key then 1 else 0
  }

  ghost predicate OfAKey(arg: string) {
    exists k :: Parsed(arg).0 == Switch(k)
  }

  /** What the command line says for each key, and how often; it says nothing else. */
  ghost predicate Says(args: seq<string>, m: map<Key, Option<string>>, uses: multiset<Key>) {
    && (forall k :: Lookup(args, Switch(k)) == (if k in m then Some(m[k]) else None)
                    && Occurrences(args, Switch(k)) == uses[k])
    && OfKeys(args)
  }

  ghost predicate OfKeys(args: seq<string>) {
    forall i :: 0 <= i < |args| ==> OfAKey(args[i])
  }

  lemma OfKeysMore(args: seq<string>, arg: string, k: Key)
    requires OfKeys(args) && Parsed(arg).0 == Switch(k)
    ensures OfKeys(args + [arg])
  {
    hide Parsed, Switch;
    assert OfAKey(arg);
  }

  lemma SaysNothing()
    ensures Says([], map[], multiset{})
  {
  }

  lemma SaysOneMore(args: seq<string>, m: map<Key, Option<string>>, uses: multiset<Key>, k: Key, value: Option<string>)
    requires Says(args, m, uses)
    ensures var arg := if value.Some? then Setting(k, value.value) else Switch(k);
      Says(args + [arg], m[k := value], uses + multiset{k})
  {
    hide Parsed, Switch, Setting, OfKeys;
    var arg := if value.Some? then Setting(k, value.value) else Switch(k);
    if value.Some? {
      ParsedSetting(k, value.value);
    } else {
      ParsedSwitch(k);
    }
    assert Parsed(arg) == (Switch(k), value);
    OfKeysMore(args, arg, k);
    assert (args + [arg])[..|args|] == args;
    forall k'
      ensures Switch(k') == Switch(k) <==> k' == k
    {
      SwitchInjective(k', k);
    }
  }

  // ----- Deployer.args

  const KUBECONFIG := "/var/run/secrets/gardener.cloud/shoot/generic-kubeconfig/kubeconfig"
  const SERVER_PORT_HTTP: int := 10258
  const INGRESS_CERT_WORKERS: int := 5
  const CERT_WORKERS: int := 5
  const ISSUER_WORKERS: int := 2
  const DEFAULT_ALGORITHM := "RSA"
  const DEFAULT_SIZE_RSA: int := 3072
  const DEFAULT_SIZE_ECDSA: int := 384
  const NEXT_GENERATION_DNS_CLASS := "gardendns-next-gen"

  type Meaning = map<Key, Option<string>>

  const NOTHING: Meaning := map[]

  /** The arguments say m, after and instead of what was said before them, and use each key of m once more. */
  ghost predicate Adds(before: seq<string>, args: seq<string>, m: Meaning) {
    forall said, uses :: Says(before, said, uses) ==> Says(args, said + m, uses + multiset(m.Keys))
  }

  lemma AddsNothing(args: seq<string>)
    ensures Adds(args, args, NOTHING)
  {
    hide Says;
    forall said, uses | Says(args, said, uses)
      ensures Says(args, said + NOTHING, uses + multiset(NOTHING.Keys))
    {
      assert said + NOTHING == said;
      assert uses + multiset(NOTHING.Keys) == uses;
    }
  }

  lemma AddsOne(before: seq<string>, args: seq<string>, m: Meaning, k: Key, value: Option<string>)
    requires Adds(before, args, m) && k !in m
    ensures value.Some? ==> Adds(before, args + [Setting(k, value.value)], m[k := value])
    ensures value.None? ==> Adds(before, args + [Switch(k)], m[k := value])
  {
    hide Says, Setting, Switch;
    var arg := if value.Some? then Setting(k, value.value) else Switch(k);
    forall said, uses | Says(before, said, uses)
      ensures Says(args + [arg], said + m[k := value], uses + multiset(m[k := value].Keys))
    {
      SaysOneMore(args, said + m, uses + multiset(m.Keys), k, value);
      assert said + m[k := value] == (said + m)[k := value];
      assert m[k := value].Keys == m.Keys + {k};
      assert multiset(m.Keys + {k}) == multiset(m.Keys) + multiset{k};
      assert uses + multiset(m.Keys) + multiset{k} == uses + multiset(m[k := value].Keys);
    }
  }

  function If(c: bool, m: Meaning): Meaning {
    if c then m else NOTHING
  }

  function HeadMeaning(v: Values): Meaning {
    if v.shootDeployment then map[Name := Some(FULL_NAME), Namespace := Some("kube-system"), Source := Some(KUBECONFIG)]
    else map[Name := Some(FULL_NAME), Namespace := Some(v.namespace), CertClass := Some(v.certClass),
      UseDNSRecords := Some("true")]
  }

  method AppendHead(v: Values) returns (args: seq<string>)
    ensures Adds([], args, HeadMeaning(v))
  {
    hide Adds, Setting;
    AddsNothing([]);
    ghost var m := NOTHING;
    args := [];
    AddsOne([], args, m, Name, Some(FULL_NAME));
    args, m := args + [Setting(Name, FULL_NAME)], m[Name := Some(FULL_NAME)];
    if v.shootDeployment {
      AddsOne([], args, m, Namespace, Some("kube-system"));
      args, m := args + [Setting(Namespace, "kube-system")], m[Namespace := Some("kube-system")];
      AddsOne([], args, m, Source, Some(KUBECONFIG));
      args, m := args + [Setting(Source, KUBECONFIG)], m[Source := Some(KUBECONFIG)];
    } else {
      AddsOne([], args, m, Namespace, Some(v.namespace));
      args, m := args + [Setting(Namespace, v.namespace)], m[Namespace := Some(v.namespace)];
      AddsOne([], args, m, CertClass, Some(v.certClass));
      args, m := args + [Setting(CertClass, v.certClass)], m[CertClass := Some(v.certClass)];
      AddsOne([], args, m, UseDNSRecords, Some("true"));
      args, m := args + [Setting(UseDNSRecords, "true")], m[UseDNSRecords := Some("true")];
    }
    assert m == HeadMeaning(v);
  }

  function Quota(v: Values): int {
    v.extensionConfig.defaultRequestsPerDayQuota.GetOr(0)
  }

  function IssuerMeaning(v: Values): Meaning {
    map[IssuerNamespace := Some(v.namespace), DefaultIssuer := Some(v.extensionConfig.issuerName)]
    + If(Quota(v) > 0, map[DefaultQuota := Some(Decimal(Quota(v)))])
    + If(v.RestrictedIssuer(), map[DomainRanges := Some(v.restrictedDomains)])
    + If(v.PrecheckNameservers() != "", map[PrecheckNameservers := Some(v.PrecheckNameservers())])
  }

  method AppendIssuer(v: Values, before: seq<string>) returns (args: seq<string>)
    ensures Adds(before, args, IssuerMeaning(v))
  {
    hide Adds, Setting, Decimal;
    AddsNothing(before);
    ghost var m := NOTHING;
    args := before;
    AddsOne(before, args, m, IssuerNamespace, Some(v.namespace));
    args, m := args + [Setting(IssuerNamespace, v.namespace)], m[IssuerNamespace := Some(v.namespace)];
    AddsOne(before, args, m, DefaultIssuer, Some(v.extensionConfig.issuerName));
    args, m := args + [Setting(DefaultIssuer, v.extensionConfig.issuerName)],
      m[DefaultIssuer := Some(v.extensionConfig.issuerName)];
    var quota := v.extensionConfig.defaultRequestsPerDayQuota.GetOr(0);
    if quota > 0 {
      AddsOne(before, args, m, DefaultQuota, Some(Decimal(quota)));
      args, m := args + [Setting(DefaultQuota, Decimal(quota))], m[DefaultQuota := Some(Decimal(quota))];
    }
    if v.RestrictedIssuer() {
      AddsOne(before, args, m, DomainRanges, Some(v.restrictedDomains));
      args, m := args + [Setting(DomainRanges, v.restrictedDomains)], m[DomainRanges := Some(v.restrictedDomains)];
    }
    var nameservers := v.PrecheckNameservers();
    if nameservers != "" {
      AddsOne(before, args, m, PrecheckNameservers, Some(nameservers));
      args, m := args + [Setting(PrecheckNameservers, nameservers)], m[PrecheckNameservers := Some(nameservers)];
    }
    assert m == IssuerMeaning(v);
  }

  /** The DNS class that the shoot asks for. */
  function ShootDNSClass(v: Values): string {
    if v.DNSChallengeOnShootEnabled() then v.certConfig.dnsChallengeOnShoot.value.dnsClass.GetOr("") else ""
  }

  function DNSMeaning(v: Values): Meaning {
    if v.DNSChallengeOnShootEnabled() then
      map[DNS := Some(KUBECONFIG), DNSNamespace := Some(v.certConfig.dnsChallengeOnShoot.value.namespace)]
      + If(ShootDNSClass(v) != "", map[DNSClass := Some(ShootDNSClass(v))])
    else map[DNSNamespace := Some(v.namespace)]
  }

  method AppendDNS(v: Values, before: seq<string>) returns (args: seq<string>)
    ensures Adds(before, args, DNSMeaning(v))
  {
    hide Adds, Setting;
    AddsNothing(before);
    ghost var m := NOTHING;
    args := before;
    if v.DNSChallengeOnShootEnabled() {
      AddsOne(before, args, m, DNS, Some(KUBECONFIG));
      args, m := args + [Setting(DNS, KUBECONFIG)], m[DNS := Some(KUBECONFIG)];
      var namespace := v.certConfig.dnsChallengeOnShoot.value.namespace;
      AddsOne(before, args, m, DNSNamespace, Some(namespace));
      args, m := args + [Setting(DNSNamespace, namespace)], m[DNSNamespace := Some(namespace)];
      var dnsClass := v.certConfig.dnsChallengeOnShoot.value.dnsClass.GetOr("");
      if dnsClass != "" {
        AddsOne(before, args, m, DNSClass, Some(dnsClass));
        args, m := args + [Setting(DNSClass, dnsClass)], m[DNSClass := Some(dnsClass)];
      }
    } else {
      AddsOne(before, args, m, DNSNamespace, Some(v.namespace));
      args, m := args + [Setting(DNSNamespace, v.namespace)], m[DNSNamespace := Some(v.namespace)];
    }
    assert m == DNSMeaning(v);
  }

  function ServerMeaning(v: Values): Meaning {
    map[ServerPort := Some(Decimal(SERVER_PORT_HTTP)), IngressCertPool := Some(Decimal(INGRESS_CERT_WORKERS)),
        ServiceCertPool := Some(Decimal(CERT_WORKERS)), IssuerPool := Some(Decimal(ISSUER_WORKERS))]
    + If(v.PropagationTimeout() != "", map[PropagationTimeout := Some(v.PropagationTimeout())])
    + If(v.ShootIssuersEnabled(), map[AllowTargetIssuers := None])
    + If(v.DeactivateAuthorizations(), map[DeactivateAuthorizations := None])
  }

  method AppendServer(v: Values, before: seq<string>) returns (args: seq<string>)
    ensures Adds(before, args, ServerMeaning(v))
  {
    hide Adds, Setting, Switch, Decimal;
    AddsNothing(before);
    ghost var m := NOTHING;
    args := before;
    AddsOne(before, args, m, ServerPort, Some(Decimal(SERVER_PORT_HTTP)));
    args, m := args + [Setting(ServerPort, Decimal(SERVER_PORT_HTTP))],
      m[ServerPort := Some(Decimal(SERVER_PORT_HTTP))];
    AddsOne(before, args, m, IngressCertPool, Some(Decimal(INGRESS_CERT_WORKERS)));
    args, m := args + [Setting(IngressCertPool, Decimal(INGRESS_CERT_WORKERS))],
               m[IngressCertPool := Some(Decimal(INGRESS_CERT_WORKERS))];
    AddsOne(before, args, m, ServiceCertPool, Some(Decimal(CERT_WORKERS)));
    args, m := args + [Setting(ServiceCertPool, Decimal(CERT_WORKERS))],
      m[ServiceCertPool := Some(Decimal(CERT_WORKERS))];
    AddsOne(before, args, m, IssuerPool, Some(Decimal(ISSUER_WORKERS)));
    args, m := args + [Setting(IssuerPool, Decimal(ISSUER_WORKERS))], m[IssuerPool := Some(Decimal(ISSUER_WORKERS))];
    var timeout := v.PropagationTimeout();
    if timeout != "" {
      AddsOne(before, args, m, PropagationTimeout, Some(timeout));
      args, m := args + [Setting(PropagationTimeout, timeout)], m[PropagationTimeout := Some(timeout)];
    }
    if v.ShootIssuersEnabled() {
      AddsOne(before, args, m, AllowTargetIssuers, None);
      args, m := args + [Switch(AllowTargetIssuers)], m[AllowTargetIssuers := None];
    }
    if v.DeactivateAuthorizations() {
      AddsOne(before, args, m, DeactivateAuthorizations, None);
      args, m := args + [Switch(DeactivateAuthorizations)], m[DeactivateAuthorizations := None];
    }
    assert m == ServerMeaning(v);
  }

  function LeaseMeaning(): Meaning {
    map[LeaseName := Some("shoot-cert-service"), LeaseResourceLock := Some("leases"), KubeconfigDisableCRDs := None,
        SourceDisableCRDs := None, TargetDisableCRDs := None]
  }

  method AppendLease(before: seq<string>) returns (args: seq<string>)
    ensures Adds(before, args, LeaseMeaning())
  {
    hide Adds, Setting, Switch;
    AddsNothing(before);
    ghost var m := NOTHING;
    args := before;
    AddsOne(before, args, m, LeaseName, Some("shoot-cert-service"));
    args, m := args + [Setting(LeaseName, "shoot-cert-service")], m[LeaseName := Some("shoot-cert-service")];
    AddsOne(before, args, m, LeaseResourceLock, Some("leases"));
    args, m := args + [Setting(LeaseResourceLock, "leases")], m[LeaseResourceLock := Some("leases")];
    AddsOne(before, args, m, KubeconfigDisableCRDs, None);
    args, m := args + [Switch(KubeconfigDisableCRDs)], m[KubeconfigDisableCRDs := None];
    AddsOne(before, args, m, SourceDisableCRDs, None);
    args, m := args + [Switch(SourceDisableCRDs)], m[SourceDisableCRDs := None];
    AddsOne(before, args, m, TargetDisableCRDs, None);
    args, m := args + [Switch(TargetDisableCRDs)], m[TargetDisableCRDs := None];
    assert m == LeaseMeaning();
  }

  /** Algorithm and key sizes, with the defaults of the service configuration. */
  function PrivateKeys(v: Values): (string, int, int) {
    var d := v.extensionConfig.privateKeyDefaults;
    if d.None? then (DEFAULT_ALGORITHM, DEFAULT_SIZE_RSA, DEFAULT_SIZE_ECDSA)
    else (d.value.algorithm.GetOr(DEFAULT_ALGORITHM), d.value.sizeRSA.GetOr(DEFAULT_SIZE_RSA),
          d.value.sizeECDSA.GetOr(DEFAULT_SIZE_ECDSA))
  }

  function PrivateKeyMeaning(v: Values): Meaning {
    map[Algorithm := Some(PrivateKeys(v).0), SizeRSA := Some(Decimal(PrivateKeys(v).1)),
      SizeECDSA := Some(Decimal(PrivateKeys(v).2))]
  }

  method AppendPrivateKeys(v: Values, before: seq<string>) returns (args: seq<string>)
    ensures Adds(before, args, PrivateKeyMeaning(v))
  {
    hide Adds, Setting, Decimal;
    var algorithm := DEFAULT_ALGORITHM;
    var sizeRSA := DEFAULT_SIZE_RSA;
    var sizeECDSA := DEFAULT_SIZE_ECDSA;
    if v.extensionConfig.privateKeyDefaults.Some? {
      algorithm := v.extensionConfig.privateKeyDefaults.value.algorithm.GetOr(algorithm);
      sizeRSA := v.extensionConfig.privateKeyDefaults.value.sizeRSA.GetOr(sizeRSA);
      sizeECDSA := v.extensionConfig.privateKeyDefaults.value.sizeECDSA.GetOr(sizeECDSA);
    }
    AddsNothing(before);
    ghost var m := NOTHING;
    args := before;
    AddsOne(before, args, m, Algorithm, Some(algorithm));
    args, m := args + [Setting(Algorithm, algorithm)], m[Algorithm := Some(algorithm)];
    AddsOne(before, args, m, SizeRSA, Some(Decimal(sizeRSA)));
    args, m := args + [Setting(SizeRSA, Decimal(sizeRSA))], m[SizeRSA := Some(Decimal(sizeRSA))];
    AddsOne(before, args, m, SizeECDSA, Some(Decimal(sizeECDSA)));
    args, m := args + [Setting(SizeECDSA, Decimal(sizeECDSA))], m[SizeECDSA := Some(Decimal(sizeECDSA))];
    assert m == PrivateKeyMeaning(v);
  }

  function NextGenMeaning(v: Values): Meaning {
    If(v.nextGenDNSShootService, map[DNSClass := Some(NEXT_GENERATION_DNS_CLASS)])
  }

  // ----- the settings that a command line amounts to

  datatype Settings = Settings(
    name: Option<string>,
    namespace: Option<string>,
    source: Option<string>,
    certClass: Option<string>,
    useDNSRecords: Option<string>,
    issuerNamespace: Option<string>,
    defaultIssuer: Option<string>,
    defaultRequestsPerDayQuota: Option<int>,
    domainRanges: Option<string>,
    precheckNameservers: Option<string>,
    dns: Option<string>,
    dnsNamespace: Option<string>,
    dnsClass: Option<string>,
    serverPort: Option<int>,
    ingressCertWorkers: Option<int>,
    serviceCertWorkers: Option<int>,
    issuerWorkers: Option<int>,
    propagationTimeout: Option<string>,
    allowTargetIssuers: bool,
    deactivateAuthorizations: bool,
    leaseName: Option<string>,
    leaseResourceLock: Option<string>,
    crdsDisabled: (bool, bool, bool),
    algorithm: Option<string>,
    sizeRSA: Option<int>,
    sizeECDSA: Option<int>)

  function TextAt(args: seq<string>, option: string): Option<string> {
    var found := Lookup(args, option);
    if found.Some? then found.value else None
  }

  function IntAt(args: seq<string>, option: string): Option<int> {
    var text := TextAt(args, option);
    if text.Some? then Atoi(text.value) else None
  }

  predicate On(args: seq<string>, option: string) {
    Lookup(args, option) == Some(None)
  }

  /** Reads a command line. */
  function Read(args: seq<string>): Settings {
    Settings(
      TextAt(args, "--name"), TextAt(args, "--namespace"), TextAt(args, "--source"), TextAt(args, "--cert-class"),
      TextAt(args, "--use-dnsrecords"),
      TextAt(args, "--issuer.issuer-namespace"), TextAt(args, "--issuer.default-issuer"),
        IntAt(args, "--issuer.default-requests-per-day-quota"), TextAt(args, "--issuer.default-issuer-domain-ranges"),
      TextAt(args, "--issuer.precheck-nameservers"), TextAt(args, "--dns"), TextAt(args, "--issuer.dns-namespace"),
        TextAt(args, "--issuer.dns-class"),
      IntAt(args, "--server-port-http"), IntAt(args, "--ingress-cert.targets.pool.size"),
        IntAt(args, "--service-cert.targets.pool.size"), IntAt(args, "--issuer.default.pool.size"),
      TextAt(args, "--propagation-timeout"), On(args, "--allow-target-issuers"),
        On(args, "--acme-deactivate-authorizations"),
      TextAt(args, "--lease-name"), TextAt(args, "--lease-resource-lock"),
      (On(args, "--kubeconfig.disable-deploy-crds"), On(args, "--source.disable-deploy-crds"),
        On(args, "--target.disable-deploy-crds")),
      TextAt(args, "--default-private-key-algorithm"), IntAt(args, "--default-rsa-private-key-size"),
        IntAt(args, "--default-ecdsa-private-key-size"))
  }

  function OptionText(s: string): Option<string> {
    if s == "" then None else Some(s)
  }

  /** The settings that the values ask for. */
  function Wanted(v: Values): Settings {
    Settings(
      Some(FULL_NAME),
      Some(v.ShootNamespace()),
      if v.shootDeployment then Some(KUBECONFIG) else None,
      if v.shootDeployment then None else Some(v.certClass),
      if v.shootDeployment then None else Some("true"),
      Some(v.namespace),
      Some(v.extensionConfig.issuerName),
      if Quota(v) > 0 then Some(Quota(v)) else None,
      if v.RestrictedIssuer() then Some(v.restrictedDomains) else None,
      OptionText(v.PrecheckNameservers()),
      if v.DNSChallengeOnShootEnabled() then Some(KUBECONFIG) else None,
      Some(if v.DNSChallengeOnShootEnabled() then v.certConfig.dnsChallengeOnShoot.value.namespace else v.namespace),
      if v.nextGenDNSShootService then Some(NEXT_GENERATION_DNS_CLASS) else OptionText(ShootDNSClass(v)),
      Some(SERVER_PORT_HTTP),
      Some(INGRESS_CERT_WORKERS),
      Some(CERT_WORKERS),
      Some(ISSUER_WORKERS),
      OptionText(v.PropagationTimeout()),
      v.ShootIssuersEnabled(),
      v.DeactivateAuthorizations(),
      Some("shoot-cert-service"),
      Some("leases"),
      (true, true, true),
      Some(PrivateKeys(v).0),
      Some(PrivateKeys(v).1),
      Some(PrivateKeys(v).2))
  }

  // ----- the same settings, field by field of the values

  /** The nameservers before which an issuer checks a challenge: with a list of the shoot, its items and then those of
      the default list, first occurrences only; without one, the default list. An empty text is not said. */
  ghost predicate NameserversAsked(v: Values, said: Option<string>) {
    var acme := v.extensionConfig.acme;
    var default := if acme.Some? && acme.value.precheckNameservers.Some? then acme.value.precheckNameservers.value
                   else "";
    && said != Some("")
    && match v.certConfig.precheckNameservers {
         case None => said == if default == "" then None else Some(default)
         case Some(list) =>
           FirstOccurrences(Split(if said.Some? then said.value else "", ','), Split(list, ',') + Split(default, ','))
       }
  }

  predicate DeploymentAsked(v: Values, s: Settings) {
    && s.name == Some("cert-controller-manager")
    && s.namespace == Some(if v.shootDeployment then "kube-system" else v.namespace)
    && s.source == (if v.shootDeployment
                    then Some("/var/run/secrets/gardener.cloud/shoot/generic-kubeconfig/kubeconfig") else None)
    && s.certClass == (if v.shootDeployment then None else Some(v.certClass))
    && s.useDNSRecords == (if v.shootDeployment then None else Some("true"))
    && s.serverPort == Some(10258)
    && s.ingressCertWorkers == Some(5) && s.serviceCertWorkers == Some(5) && s.issuerWorkers == Some(2)
    && s.leaseName == Some("shoot-cert-service") && s.leaseResourceLock == Some("leases")
    && s.crdsDisabled == (true, true, true)
  }

  ghost predicate IssuersAsked(v: Values, s: Settings) {
    var c := v.extensionConfig;
    && s.issuerNamespace == Some(v.namespace)
    && s.defaultIssuer == Some(c.issuerName)
    && s.defaultRequestsPerDayQuota ==
       (if c.defaultRequestsPerDayQuota.Some? && c.defaultRequestsPerDayQuota.value > 0
        then c.defaultRequestsPerDayQuota else None)
    && s.domainRanges ==
       (if v.restrictedDomains != "" && c.restrictIssuer == Some(true) then Some(v.restrictedDomains) else None)
    && NameserversAsked(v, s.precheckNameservers)
    && (s.allowTargetIssuers <==> v.shootDeployment && v.certConfig.shootIssuers == Some(ShootIssuers(true)))
  }

  /** The DNS challenge happens on the shoot for an enabled shoot deployment only; the class of the next generation
      service is used in place of the one that the shoot asks for. */
  predicate DNSAsked(v: Values, s: Settings) {
    var c := v.certConfig.dnsChallengeOnShoot;
    if v.shootDeployment && c.Some? && c.value.enabled then
      && s.dns == Some("/var/run/secrets/gardener.cloud/shoot/generic-kubeconfig/kubeconfig")
      && s.dnsNamespace == Some(c.value.namespace)
      && s.dnsClass == if v.nextGenDNSShootService then Some("gardendns-next-gen")
                       else if c.value.dnsClass == Some("") then None else c.value.dnsClass
    else
      && s.dns == None
      && s.dnsNamespace == Some(v.namespace)
      && s.dnsClass == if v.nextGenDNSShootService then Some("gardendns-next-gen") else None
  }

  predicate ShootAsksForClass(v: Values) {
    var c := v.certConfig.dnsChallengeOnShoot;
    v.shootDeployment && c.Some? && c.value.enabled && c.value.dnsClass.Some? && c.value.dnsClass.value != ""
  }

  predicate ACMEAsked(v: Values, s: Settings) {
    match v.extensionConfig.acme
    case None => s.propagationTimeout == None && !s.deactivateAuthorizations
    case Some(acme) =>
      && s.propagationTimeout == (if acme.propagationTimeout == Some("") then None else acme.propagationTimeout)
      && (s.deactivateAuthorizations <==> acme.deactivateAuthorizations == Some(true))
  }

  predicate PrivateKeysAsked(v: Values, s: Settings) {
    var d := v.extensionConfig.privateKeyDefaults;
    && s.algorithm == (if d.Some? && d.value.algorithm.Some? then d.value.algorithm else Some("RSA"))
    && s.sizeRSA == (if d.Some? && d.value.sizeRSA.Some? then d.value.sizeRSA else Some(3072))
    && s.sizeECDSA == (if d.Some? && d.value.sizeECDSA.Some? then d.value.sizeECDSA else Some(384))
  }

  /** The settings are those that the fields of the values ask for. */
  ghost predicate Asked(v: Values, s: Settings) {
    DeploymentAsked(v, s) && IssuersAsked(v, s) && DNSAsked(v, s) && ACMEAsked(v, s) && PrivateKeysAsked(v, s)
  }

  lemma WantedIsAsked(v: Values)
    ensures Asked(v, Wanted(v))
  {
    hide NameserversAsked;
    NameserversWanted(v);
  }

  lemma NameserversWanted(v: Values)
    ensures NameserversAsked(v, OptionText(v.PrecheckNameservers()))
  {
    hide Split, Join, Dedup, FirstOccurrences;
    var acme := v.extensionConfig.acme;
    if v.certConfig.precheckNameservers.Some? {
      var list := v.certConfig.precheckNameservers.value;
      var default := if acme.Some? && acme.value.precheckNameservers.Some? then acme.value.precheckNameservers.value
                     else "";
      NameserverLists.SplitMergeTwo(list, default);
    }
  }

  predicate Int64(n: int) {
    MIN_INT <= n <= MAX_INT
  }

  /** Every int of the values is a 64-bit int. */
  predicate IntsInRange(v: Values) {
    Int64(Quota(v)) && Int64(PrivateKeys(v).1) && Int64(PrivateKeys(v).2)
  }

  /** Reading the command line back gives the settings of the values. No key is used twice, except for the DNS class
      when the shoot asks for one and the next generation service is in use: then the latter wins. */
  method Args(v: Values) returns (args: seq<string>)
    requires IntsInRange(v)
    ensures Asked(v, Read(args))
    ensures Read(args) == Wanted(v)
    ensures OfKeys(args)
    ensures forall k :: Occurrences(args, Switch(k)) <= if k.DNSClass? then 2 else 1
    ensures Occurrences(args, "--issuer.dns-class") == 2 <==> v.nextGenDNSShootService && ShootAsksForClass(v)
  {
    hide Says, Adds, Setting, Read, Wanted, Asked, OfKeys, HeadMeaning, IssuerMeaning, DNSMeaning, ServerMeaning,
      LeaseMeaning,
      PrivateKeyMeaning;
    SaysNothing();
    ghost var said, uses := NOTHING, multiset{};
    args := AppendHead(v);
    AddsSays([], args, HeadMeaning(v), said, uses);
    said, uses := said + HeadMeaning(v), uses + multiset(HeadMeaning(v).Keys);
    var before := args;
    args := AppendIssuer(v, before);
    AddsSays(before, args, IssuerMeaning(v), said, uses);
    said, uses := said + IssuerMeaning(v), uses + multiset(IssuerMeaning(v).Keys);
    before := args;
    args := AppendDNS(v, before);
    AddsSays(before, args, DNSMeaning(v), said, uses);
    said, uses := said + DNSMeaning(v), uses + multiset(DNSMeaning(v).Keys);
    before := args;
    args := AppendServer(v, before);
    AddsSays(before, args, ServerMeaning(v), said, uses);
    said, uses := said + ServerMeaning(v), uses + multiset(ServerMeaning(v).Keys);
    before := args;
    args := AppendLease(before);
    AddsSays(before, args, LeaseMeaning(), said, uses);
    said, uses := said + LeaseMeaning(), uses + multiset(LeaseMeaning().Keys);
    before := args;
    args := AppendPrivateKeys(v, before);
    AddsSays(before, args, PrivateKeyMeaning(v), said, uses);
    said, uses := said + PrivateKeyMeaning(v), uses + multiset(PrivateKeyMeaning(v).Keys);
    before := args;
    AddsNothing(before);
    if v.nextGenDNSShootService {
      AddsOne(before, args, NOTHING, DNSClass, Some(NEXT_GENERATION_DNS_CLASS));
      args := args + [Setting(DNSClass, NEXT_GENERATION_DNS_CLASS)];
    }
    AddsSays(before, args, NextGenMeaning(v), said, uses);
    SaysAll(v, args);
    WantedIsAsked(v);
    assert ShootAsksForClass(v) <==> ShootDNSClass(v) != "";
  }

  lemma AddsSays(before: seq<string>, args: seq<string>, m: Meaning, said: Meaning, uses: multiset<Key>)
    requires Adds(before, args, m) && Says(before, said, uses)
    ensures Says(args, said + m, uses + multiset(m.Keys))
  {
  }

  function Everything(v: Values): Meaning {
    NOTHING + HeadMeaning(v) + IssuerMeaning(v) + DNSMeaning(v) + ServerMeaning(v) + LeaseMeaning()
      + PrivateKeyMeaning(v)
    + NextGenMeaning(v)
  }

  function AllUses(v: Values): multiset<Key> {
    multiset{} + multiset(HeadMeaning(v).Keys) + multiset(IssuerMeaning(v).Keys) + multiset(DNSMeaning(v).Keys)
    + multiset(ServerMeaning(v).Keys) + multiset(LeaseMeaning().Keys) + multiset(PrivateKeyMeaning(v).Keys)
    + multiset(NextGenMeaning(v).Keys)
  }

  // ----- where a key gets its value

  datatype Block = Head | IssuerBlock | DNSBlock | ServerBlock | LeaseBlock | PrivateKeyBlock

  function BlockOf(k: Key): Block {
    match k
    case Name | Namespace | Source | CertClass | UseDNSRecords => Head
    case IssuerNamespace | DefaultIssuer | DefaultQuota | DomainRanges | PrecheckNameservers => IssuerBlock
    case DNS | DNSNamespace | DNSClass => DNSBlock
    case Algorithm | SizeRSA | SizeECDSA => PrivateKeyBlock
    case LeaseName | LeaseResourceLock | KubeconfigDisableCRDs | SourceDisableCRDs | TargetDisableCRDs => LeaseBlock
    case _ => ServerBlock
  }

  function BlockMeaning(v: Values, b: Block): Meaning {
    match b
    case Head => HeadMeaning(v)
    case IssuerBlock => IssuerMeaning(v)
    case DNSBlock => DNSMeaning(v)
    case ServerBlock => ServerMeaning(v)
    case LeaseBlock => LeaseMeaning()
    case PrivateKeyBlock => PrivateKeyMeaning(v)
  }

  /** The keys of a block are not in any other. */
  lemma KeysByBlock(v: Values, b: Block, k: Key)
    ensures k in BlockMeaning(v, b) ==> BlockOf(k) == b
  {
    match b
    case Head => HeadKeys(v, k);
    case IssuerBlock => IssuerBlockKeys(v, k);
    case DNSBlock => DNSBlockKeys(v, k);
    case ServerBlock => ServerBlockKeys(v, k);
    case LeaseBlock => LeaseBlockKeys(v, k);
    case PrivateKeyBlock => PrivateKeyBlockKeys(v, k);
  }

  lemma HeadKeys(v: Values, k: Key)
    ensures k in HeadMeaning(v) ==> BlockOf(k) == Head
  {
    hide Decimal, Quota, PrivateKeys;
  }

  lemma IssuerBlockKeys(v: Values, k: Key)
    ensures k in IssuerMeaning(v) ==> BlockOf(k) == IssuerBlock
  {
    hide Decimal, Quota, PrivateKeys;
  }

  lemma DNSBlockKeys(v: Values, k: Key)
    ensures k in DNSMeaning(v) ==> BlockOf(k) == DNSBlock
  {
    hide Decimal, Quota, PrivateKeys;
  }

  lemma ServerBlockKeys(v: Values, k: Key)
    ensures k in ServerMeaning(v) ==> BlockOf(k) == ServerBlock
  {
    hide Decimal, Quota, PrivateKeys;
  }

  lemma LeaseBlockKeys(v: Values, k: Key)
    ensures k in LeaseMeaning() ==> BlockOf(k) == LeaseBlock
  {
    hide Decimal, Quota, PrivateKeys;
  }

  lemma PrivateKeyBlockKeys(v: Values, k: Key)
    ensures k in PrivateKeyMeaning(v) ==> BlockOf(k) == PrivateKeyBlock
  {
    hide Decimal, Quota, PrivateKeys;
  }

  function At(m: Meaning, k: Key): Option<Option<string>> {
    if k in m then Some(m[k]) else None
  }

  predicate Overridden(v: Values, k: Key) {
    k.DNSClass? && v.nextGenDNSShootService
  }

  /** Each key gets its value from one block, and the DNS class possibly from the end of the command line. */
  lemma Located(v: Values, args: seq<string>, k: Key)
    requires Says(args, Everything(v), AllUses(v))
    ensures Lookup(args, Switch(k)) ==
      if Overridden(v, k) then Some(Some(NEXT_GENERATION_DNS_CLASS)) else At(BlockMeaning(v, BlockOf(k)), k)
    ensures Occurrences(args, Switch(k)) ==
      (if k in BlockMeaning(v, BlockOf(k)) then 1 else 0) + (if Overridden(v, k) then 1 else 0)
  {
    hide Lookup, Occurrences, Switch, Says, BlockOf, NextGenMeaning, Overridden, Everything, AllUses, At,
      HeadMeaning, IssuerMeaning, DNSMeaning, ServerMeaning, LeaseMeaning, PrivateKeyMeaning;
    KeysByBlock(v, Head, k);
    KeysByBlock(v, IssuerBlock, k);
    KeysByBlock(v, DNSBlock, k);
    KeysByBlock(v, ServerBlock, k);
    KeysByBlock(v, LeaseBlock, k);
    KeysByBlock(v, PrivateKeyBlock, k);
    NextGenKeys(v, k);
    LookedUp(args, Everything(v), AllUses(v), k);
    EverythingAt(v, k);
    NotIn(v, k);
  }

  lemma NotIn(v: Values, k: Key)
    ensures k !in NextGenMeaning(v) <==> !Overridden(v, k)
    ensures forall b: Block :: k !in BlockMeaning(v, b) ==> At(BlockMeaning(v, b), k) == None
  {
  }

  lemma EverythingAt(v: Values, k: Key)
    ensures var h, i, d, s, l, p, n := HeadMeaning(v), IssuerMeaning(v), DNSMeaning(v), ServerMeaning(v),
      LeaseMeaning(),
        PrivateKeyMeaning(v), NextGenMeaning(v);
      && At(Everything(v), k) == (
        if k in n then At(n, k) else if k in p then At(p, k) else if k in l then At(l, k) else if k in s then At(s, k)
        else if k in d then At(d, k) else if k in i then At(i, k) else At(h, k))
      && AllUses(v)[k] == Once(h, k) + Once(i, k) + Once(d, k) + Once(s, k) + Once(l, k) + Once(p, k) + Once(n, k)
  {
    hide HeadMeaning, IssuerMeaning, DNSMeaning, ServerMeaning, LeaseMeaning, PrivateKeyMeaning, NextGenMeaning, At,
      Once;
    Combined(HeadMeaning(v), IssuerMeaning(v), DNSMeaning(v), ServerMeaning(v), LeaseMeaning(), PrivateKeyMeaning(v),
             NextGenMeaning(v), k);
    UsesCombined(HeadMeaning(v), IssuerMeaning(v), DNSMeaning(v), ServerMeaning(v), LeaseMeaning(),
      PrivateKeyMeaning(v),
                 NextGenMeaning(v), k);
  }

  lemma Combined(a: Meaning, b: Meaning, c: Meaning, d: Meaning, e: Meaning, f: Meaning, g: Meaning, k: Key)
    ensures At(NOTHING + a + b + c + d + e + f + g, k) ==
      if k in g then At(g, k) else if k in f then At(f, k) else if k in e then At(e, k) else if k in d then At(d, k)
      else if k in c then At(c, k) else if k in b then At(b, k) else At(a, k)
  {
  }

  lemma UsesCombined(a: Meaning, b: Meaning, c: Meaning, d: Meaning, e: Meaning, f: Meaning, g: Meaning, k: Key)
    ensures (multiset{} + multiset(a.Keys) + multiset(b.Keys) + multiset(c.Keys) + multiset(d.Keys) + multiset(e.Keys)
             + multiset(f.Keys) + multiset(g.Keys))[k] ==
      Once(a, k) + Once(b, k) + Once(c, k) + Once(d, k) + Once(e, k) + Once(f, k) + Once(g, k)
  {
  }

  function Once(m: Meaning, k: Key): nat {
    if k in m then 1 else 0
  }

  lemma NextGenKeys(v: Values, k: Key)
    ensures At(NextGenMeaning(v), k) == if Overridden(v, k) then Some(Some(NEXT_GENERATION_DNS_CLASS)) else None
  {
  }

  lemma LookedUp(args: seq<string>, m: Meaning, uses: multiset<Key>, k: Key)
    requires Says(args, m, uses)
    ensures Lookup(args, Switch(k)) == At(m, k) && Occurrences(args, Switch(k)) == uses[k]
  {
  }

  lemma SaysAll(v: Values, args: seq<string>)
    requires IntsInRange(v) && Says(args, Everything(v), AllUses(v))
    ensures Read(args) == Wanted(v) && OfKeys(args)
    ensures forall k :: Occurrences(args, Switch(k)) <= if k.DNSClass? then 2 else 1
    ensures Occurrences(args, "--issuer.dns-class") == 2 <==> v.nextGenDNSShootService && ShootDNSClass(v) != ""
  {
    hide Lookup, Occurrences, Switch, Decimal, Atoi, Says, OfKeys, Everything, AllUses, Read, Wanted;
    forall k
      ensures Occurrences(args, Switch(k)) <= if k.DNSClass? then 2 else 1
    {
      Located(v, args, k);
    }
    DNSBlockRead(v, args);
    ReadIsWanted(v, args);
    SaysKeys(args, Everything(v), AllUses(v));
  }

  lemma SaysKeys(args: seq<string>, m: Meaning, uses: multiset<Key>)
    requires Says(args, m, uses)
    ensures OfKeys(args)
  {
  }

  lemma HeadOptions()
    ensures Switch(Name) == "--name"
    ensures Switch(Namespace) == "--namespace"
    ensures Switch(Source) == "--source"
    ensures Switch(CertClass) == "--cert-class"
    ensures Switch(UseDNSRecords) == "--use-dnsrecords"
  {
  }

  lemma IssuerBlockOptions()
    ensures Switch(IssuerNamespace) == "--issuer.issuer-namespace"
    ensures Switch(DefaultIssuer) == "--issuer.default-issuer"
    ensures Switch(DefaultQuota) == "--issuer.default-requests-per-day-quota"
    ensures Switch(DomainRanges) == "--issuer.default-issuer-domain-ranges"
    ensures Switch(PrecheckNameservers) == "--issuer.precheck-nameservers"
  {
  }

  lemma DNSBlockOptions()
    ensures Switch(DNS) == "--dns"
    ensures Switch(DNSNamespace) == "--issuer.dns-namespace"
    ensures Switch(DNSClass) == "--issuer.dns-class"
  {
  }

  lemma ServerPoolsOptions()
    ensures Switch(ServerPort) == "--server-port-http"
    ensures Switch(IngressCertPool) == "--ingress-cert.targets.pool.size"
  {
  }

  lemma WorkerPoolsOptions()
    ensures Switch(ServiceCertPool) == "--service-cert.targets.pool.size"
    ensures Switch(IssuerPool) == "--issuer.default.pool.size"
  {
  }

  lemma SwitchesOptions()
    ensures Switch(PropagationTimeout) == "--propagation-timeout"
    ensures Switch(AllowTargetIssuers) == "--allow-target-issuers"
    ensures Switch(DeactivateAuthorizations) == "--acme-deactivate-authorizations"
  {
  }

  lemma LeaseBlockOptions()
    ensures Switch(LeaseName) == "--lease-name"
    ensures Switch(LeaseResourceLock) == "--lease-resource-lock"
    ensures Switch(KubeconfigDisableCRDs) == "--kubeconfig.disable-deploy-crds"
    ensures Switch(SourceDisableCRDs) == "--source.disable-deploy-crds"
    ensures Switch(TargetDisableCRDs) == "--target.disable-deploy-crds"
  {
  }

  lemma AlgorithmOption()
    ensures Switch(Algorithm) == "--default-private-key-algorithm"
  {
  }

  lemma SizeOptions()
    ensures Switch(SizeRSA) == "--default-rsa-private-key-size"
    ensures Switch(SizeECDSA) == "--default-ecdsa-private-key-size"
  {
  }

  lemma HeadRead(v: Values, args: seq<string>)
    requires IntsInRange(v) && Says(args, Everything(v), AllUses(v))
    ensures TextAt(args, "--name") == Some(FULL_NAME) && TextAt(args, "--namespace") == Some(v.ShootNamespace())
    ensures TextAt(args, "--source") == if v.shootDeployment then Some(KUBECONFIG) else None
    ensures TextAt(args, "--cert-class") == if v.shootDeployment then None else Some(v.certClass)
    ensures TextAt(args, "--use-dnsrecords") == if v.shootDeployment then None else Some("true")
  {
    hide Lookup, Occurrences, Switch, Decimal, Atoi, Says, Everything, AllUses, Quota, PrivateKeys;
    HeadOptions();
    Located(v, args, Name);
    Located(v, args, Namespace);
    Located(v, args, Source);
    Located(v, args, CertClass);
    Located(v, args, UseDNSRecords);
  }

  lemma IssuerBlockRead(v: Values, args: seq<string>)
    requires IntsInRange(v) && Says(args, Everything(v), AllUses(v))
    ensures TextAt(args, "--issuer.issuer-namespace") == Some(v.namespace)
      && TextAt(args, "--issuer.default-issuer") == Some(v.extensionConfig.issuerName)
    ensures IntAt(args, "--issuer.default-requests-per-day-quota") == if Quota(v) > 0 then Some(Quota(v)) else None
    ensures TextAt(args, "--issuer.default-issuer-domain-ranges") == if v.RestrictedIssuer()
      then Some(v.restrictedDomains) else None
    ensures TextAt(args, "--issuer.precheck-nameservers") == OptionText(v.PrecheckNameservers())
  {
    hide Lookup, Occurrences, Switch, Decimal, Atoi, Says, Everything, AllUses, Quota, PrivateKeys,
      HeadMeaning, DNSMeaning, ServerMeaning, LeaseMeaning, PrivateKeyMeaning;
    IssuerBlockOptions();
    Located(v, args, IssuerNamespace);
    Located(v, args, DefaultIssuer);
    Located(v, args, DefaultQuota);
    Located(v, args, DomainRanges);
    Located(v, args, PrecheckNameservers);
    AtoiDecimal(Quota(v));
  }

  lemma DNSBlockRead(v: Values, args: seq<string>)
    requires IntsInRange(v) && Says(args, Everything(v), AllUses(v))
    ensures TextAt(args, "--dns") == if v.DNSChallengeOnShootEnabled() then Some(KUBECONFIG) else None
    ensures TextAt(args, "--issuer.dns-namespace") ==
      Some(if v.DNSChallengeOnShootEnabled() then v.certConfig.dnsChallengeOnShoot.value.namespace else v.namespace)
    ensures TextAt(args, "--issuer.dns-class") == if v.nextGenDNSShootService then Some(NEXT_GENERATION_DNS_CLASS)
      else OptionText(ShootDNSClass(v))
    ensures Occurrences(args, "--issuer.dns-class") == 2 <==> v.nextGenDNSShootService && ShootDNSClass(v) != ""
  {
    hide Lookup, Occurrences, Switch, Decimal, Atoi, Says, Everything, AllUses, Quota, PrivateKeys, IntsInRange,
      HeadMeaning, IssuerMeaning, ServerMeaning, LeaseMeaning, PrivateKeyMeaning;
    DNSBlockOptions();
    Located(v, args, DNS);
    Located(v, args, DNSNamespace);
    Located(v, args, DNSClass);
  }

  lemma ServerPoolsRead(v: Values, args: seq<string>)
    requires IntsInRange(v) && Says(args, Everything(v), AllUses(v))
    ensures IntAt(args, "--server-port-http") == Some(SERVER_PORT_HTTP)
      && IntAt(args, "--ingress-cert.targets.pool.size") == Some(INGRESS_CERT_WORKERS)
  {
    hide Lookup, Occurrences, Switch, Decimal, Atoi, Says, Everything, AllUses, Quota, PrivateKeys, IntsInRange,
      HeadMeaning, IssuerMeaning, DNSMeaning, LeaseMeaning, PrivateKeyMeaning;
    ServerPoolsOptions();
    Located(v, args, ServerPort);
    Located(v, args, IngressCertPool);
    AtoiDecimal(SERVER_PORT_HTTP);
    AtoiDecimal(INGRESS_CERT_WORKERS);
  }

  lemma WorkerPoolsRead(v: Values, args: seq<string>)
    requires IntsInRange(v) && Says(args, Everything(v), AllUses(v))
    ensures IntAt(args, "--service-cert.targets.pool.size") == Some(CERT_WORKERS)
      && IntAt(args, "--issuer.default.pool.size") == Some(ISSUER_WORKERS)
  {
    hide Lookup, Occurrences, Switch, Decimal, Atoi, Says, Everything, AllUses, Quota, PrivateKeys, IntsInRange,
      HeadMeaning, IssuerMeaning, DNSMeaning, LeaseMeaning, PrivateKeyMeaning;
    WorkerPoolsOptions();
    Located(v, args, ServiceCertPool);
    Located(v, args, IssuerPool);
    AtoiDecimal(CERT_WORKERS);
    AtoiDecimal(ISSUER_WORKERS);
  }

  lemma SwitchesRead(v: Values, args: seq<string>)
    requires IntsInRange(v) && Says(args, Everything(v), AllUses(v))
    ensures TextAt(args, "--propagation-timeout") == OptionText(v.PropagationTimeout())
    ensures On(args, "--allow-target-issuers") <==> v.ShootIssuersEnabled()
    ensures On(args, "--acme-deactivate-authorizations") <==> v.DeactivateAuthorizations()
  {
    hide Lookup, Occurrences, Switch, Decimal, Atoi, Says, Everything, AllUses, Quota, PrivateKeys, IntsInRange,
      HeadMeaning, IssuerMeaning, DNSMeaning, LeaseMeaning, PrivateKeyMeaning;
    SwitchesOptions();
    Located(v, args, PropagationTimeout);
    Located(v, args, AllowTargetIssuers);
    Located(v, args, DeactivateAuthorizations);
  }

  lemma LeaseBlockRead(v: Values, args: seq<string>)
    requires IntsInRange(v) && Says(args, Everything(v), AllUses(v))
    ensures TextAt(args, "--lease-name") == Some("shoot-cert-service")
      && TextAt(args, "--lease-resource-lock") == Some("leases")
    ensures On(args, "--kubeconfig.disable-deploy-crds") && On(args, "--source.disable-deploy-crds")
      && On(args, "--target.disable-deploy-crds")
  {
    hide Lookup, Occurrences, Switch, Decimal, Atoi, Says, Everything, AllUses, Quota, PrivateKeys, IntsInRange,
      HeadMeaning, IssuerMeaning, DNSMeaning, ServerMeaning, PrivateKeyMeaning;
    LeaseBlockOptions();
    Located(v, args, LeaseName);
    Located(v, args, LeaseResourceLock);
    Located(v, args, KubeconfigDisableCRDs);
    Located(v, args, SourceDisableCRDs);
    Located(v, args, TargetDisableCRDs);
  }

  lemma PrivateKeyBlockRead(v: Values, args: seq<string>)
    requires IntsInRange(v) && Says(args, Everything(v), AllUses(v))
    ensures TextAt(args, "--default-private-key-algorithm") == Some(PrivateKeys(v).0)
    ensures IntAt(args, "--default-rsa-private-key-size") == Some(PrivateKeys(v).1)
    ensures IntAt(args, "--default-ecdsa-private-key-size") == Some(PrivateKeys(v).2)
  {
    hide Lookup, Occurrences, Switch, Decimal, Atoi, Says, Everything, AllUses, Quota, PrivateKeys,
      HeadMeaning, IssuerMeaning, DNSMeaning, ServerMeaning, LeaseMeaning;
    AlgorithmOption();
    SizeOptions();
    Located(v, args, Algorithm);
    Located(v, args, SizeRSA);
    Located(v, args, SizeECDSA);
    AtoiDecimal(PrivateKeys(v).1);
    AtoiDecimal(PrivateKeys(v).2);
  }

  lemma ReadIsWanted(v: Values, args: seq<string>)
    requires IntsInRange(v) && Says(args, Everything(v), AllUses(v))
    ensures Read(args) == Wanted(v)
  {
    hide TextAt, IntAt, On, OptionText, Says, Everything, AllUses, Quota, PrivateKeys, ShootDNSClass, IntsInRange;
    HeadRead(v, args);
    IssuerBlockRead(v, args);
    DNSBlockRead(v, args);
    ServerPoolsRead(v, args);
    WorkerPoolsRead(v, args);
    SwitchesRead(v, args);
    LeaseBlockRead(v, args);
    PrivateKeyBlockRead(v, args);
  }
}
