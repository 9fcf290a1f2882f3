/** The methods that build the object lists, and what the lists contain in terms of the fields of the values. */
module ObjectLists {
  import opened GoStrings
  import opened ServiceTypes
  import opened DeployerValues
  import opened DeployedObjects
  import opened ObjectClosure
  import Issuers
  import V = ServiceValidation
  import P = IssuerPipeline

  // ----- what the fields ask for

  predicate CACertificatesWanted(v: Values) {
    var acme := v.extensionConfig.acme;
    acme.Some? && acme.value.caCertificates.Some? && acme.value.caCertificates.value != ""
  }

  predicate PrivateKeyWanted(v: Values) {
    v.extensionConfig.acme.Some? && v.extensionConfig.acme.value.privateKey.Some?
  }

  /** Only zero days turn the alerts off. */
  predicate AlertsWanted(v: Values) {
    v.certConfig.alerting.None? || v.certConfig.alerting.value.certExpirationAlertDays != Some(0)
  }

  function Instance(v: Values): string {
    if v.shootDeployment then "shoot-cert-management-seed"
    else if v.certClass == "garden" then "cert-management-garden"
    else "cert-management-seed"
  }

  /** The keys of the controller and its issuers, in both lists. */
  predicate ControllerKey(v: Values, key: ObjectKey) {
    && key.namespace == v.namespace
    && match key.kind {
         case ServiceAccount => key.name == Instance(v)
         case ConfigMap => CACertificatesWanted(v) && key.name == "cert-controller-manager-ca-certificates"
         case Secret => SecretName(v, key.name)
         case Issuer => IssuerName(v, key.name)
         case Role => key.name == "extensions.gardener.cloud:extension-shoot-cert-service"
         case RoleBinding => key.name == Instance(v)
         case Service => key.name == "cert-controller-manager"
         case Deployment => key.name == "cert-controller-manager"
         case _ => false
       }
  }

  /** The Secrets of the default issuer. */
  predicate SecretName(v: Values, name: string) {
    var own := "extension-shoot-cert-service-issuer-" + v.extensionConfig.issuerName;
    (PrivateKeyWanted(v) && name == own) || (v.extensionConfig.ca.Some? && name == own + "-ca")
  }

  /** The default issuer and those of the shoot. */
  predicate IssuerName(v: Values, name: string) {
    || name == v.extensionConfig.issuerName
    || (v.shootDeployment && Named(Elems(v.certConfig.issuers), name))
  }

  predicate Named(issuers: seq<IssuerConfig>, name: string) {
    exists i :: 0 <= i < |issuers| && issuers[i].name == name
  }

  /** The keys for access to the own cluster, and the CRDs. */
  predicate AccessKey(v: Values, key: ObjectKey) {
    match key.kind
    case Role | RoleBinding =>
      key.namespace == v.namespace
      && key.name == "extensions.gardener.cloud:extension-shoot-cert-service:cert-controller-manager"
    case ClusterRole | ClusterRoleBinding =>
      key.namespace == "" && key.name == "extensions.gardener.cloud:extension-shoot-cert-service:" + v.certClass
    case NetworkPolicy =>
      v.extensionConfig.inClusterACMEServerNamespaceMatchLabel != map[] && key.namespace == v.namespace
      && key.name == "egress-from-cert-controller-manager-to-labelled-namespaces"
    case CustomResourceDefinition =>
      key.namespace == ""
      && (key.name == "certificates.cert.gardener.cloud" || key.name == "certificaterevocations.cert.gardener.cloud"
          || key.name == "issuers.cert.gardener.cloud")
    case _ => false
  }

  /** The keys for scaling and monitoring in the control plane. */
  predicate MonitoringKey(v: Values, key: ObjectKey) {
    && key.namespace == v.namespace
    && match key.kind {
         case PodDisruptionBudget => key.name == "cert-controller-manager"
         case VerticalPodAutoscaler => key.name == "cert-controller-manager-vpa"
         case ConfigMap => key.name == "cert-controller-manager-dashboards"
         case PrometheusRule => AlertsWanted(v) && key.name == "shoot-cert-controller-manager"
         case ServiceMonitor => key.name == "shoot-cert-controller-manager"
         case _ => false
       }
  }

  /** What is in a manifest, by its key. */
  predicate Content(v: Values, m: Manifest) {
    match m.key.kind
    case Deployment => m.Workload? && WorkloadContent(v, m)
    case RoleBinding | ClusterRoleBinding => m.Binding? && BindingContent(v, m)
    case ConfigMap =>
      m.DataMap? && (m.key.name == "cert-controller-manager-ca-certificates" ==>
        CACertificatesWanted(v) && m.data == map["certs.pem" := v.extensionConfig.acme.value.caCertificates.value])
    case CustomResourceDefinition => m.Definition? && m.keepObject
    case Secret => m.Deployed? && m.item.Secret? && m.key == ObjectKey(Secret, m.item.namespace, m.item.name)
    case Issuer => m.Deployed? && m.item.IssuerObject? && m.key == ObjectKey(Issuer, m.item.namespace, m.item.name)
    case _ => m.Plain?
  }

  /** The controller runs as the service account of the instance, with the kubeconfig of the shoot and the CA
      certificates where there are such. */
  predicate WorkloadContent(v: Values, m: Manifest)
    requires m.Workload?
  {
    && m.serviceAccount == Instance(v)
    && m.volumes ==
       (if v.shootDeployment then [Projected("kubeconfig", [v.genericTokenKubeconfigSecretName,
                                                            "shoot-access-extension-shoot-cert-service"])] else [])
       + (if CACertificatesWanted(v) then [FromConfigMap("ca-certificates", "cert-controller-manager-ca-certificates")]
          else [])
    && m.mounts ==
       (if v.shootDeployment then [Mount("kubeconfig", "/var/run/secrets/gardener.cloud/shoot/generic-kubeconfig")]
        else [])
       + (if CACertificatesWanted(v) then [Mount("ca-certificates", "/var/run/cert-manager/certs")] else [])
    && m.env == if CACertificatesWanted(v) then
         [EnvVar("LEGO_CA_SYSTEM_CERT_POOL", "true"),
          EnvVar("LEGO_CA_CERTIFICATES", "/var/run/cert-manager/certs/certs.pem")] else []
  }

  /** The instance's service account has the role in its namespace. For access to the cluster, the role with the name
      of the binding goes to the service account named after the class. */
  predicate BindingContent(v: Values, m: Manifest)
    requires m.Binding?
  {
    if m.key.name == Instance(v) then
      && m.roleRef == ObjectKey(Role, v.namespace, "extensions.gardener.cloud:extension-shoot-cert-service")
      && m.subject == ObjectKey(ServiceAccount, v.namespace, Instance(v))
    else
      && m.roleRef == ObjectKey(if m.key.kind == RoleBinding then Role else ClusterRole, m.key.namespace, m.key.name)
      && m.subject == ObjectKey(ServiceAccount, v.namespace, "cert-management-" + v.certClass)
  }

  /** There is one workload, and what it refers to and mounts is in the list. */
  ghost predicate OneWorkload(v: Values, objects: seq<Manifest>) {
    exists i :: 0 <= i < |objects| && IsWorkload(objects, i)
      && objects[i].key == ObjectKey(Deployment, v.namespace, "cert-controller-manager")
      && Resolved(objects, objects[i]) && Mounted(objects, objects[i])
  }

  predicate IsWorkload(objects: seq<Manifest>, i: nat)
    requires i < |objects|
  {
    objects[i].Workload? && forall j :: 0 <= j < |objects| && j != i ==> !objects[j].Workload?
  }

  /** The issuers' objects are in the list, as their own manifests, in the deployment's namespace and of its class. */
  ghost predicate IssuersIn(v: Values, objects: seq<Manifest>) {
    && Issuers.AllResolve(v, Issuers.Deployed(v))
    && forall o :: o in Issuers.AllObjects(v, Issuers.Collected(v)) ==>
         Deployed(DeployedKey(o), o) in objects && P.InPlace(v, o)
  }

  ghost predicate GardenOrSeedList(v: Values, objects: seq<Manifest>) {
    && (forall key :: HasKey(objects, key) <==> ControllerKey(v, key) || AccessKey(v, key))
    && DistinctKeys(objects)
    && (forall m :: m in objects ==> Content(v, m))
    && OneWorkload(v, objects) && IssuersIn(v, objects)
  }

  ghost predicate ControlPlaneList(v: Values, objects: seq<Manifest>) {
    && (forall key :: HasKey(objects, key) <==> ControllerKey(v, key) || MonitoringKey(v, key))
    && (V.DistinctNames(Elems(v.certConfig.issuers)) ==> DistinctKeys(objects))
    && (forall m :: m in objects ==> Content(v, m))
    && OneWorkload(v, objects) && IssuersIn(v, objects)
  }

  // ----- the keys

  lemma HasKeyAppend(a: seq<Manifest>, b: seq<Manifest>, key: ObjectKey)
    ensures HasKey(a + b, key) <==> HasKey(a, key) || HasKey(b, key)
  {
    if i :| 0 <= i < |b| && b[i].key == key {
      assert (a + b)[|a| + i].key == key;
    }
    if i :| 0 <= i < |a| && a[i].key == key {
      assert (a + b)[i].key == key;
    }
  }

  lemma HasKeyFour(a: Manifest, b: Manifest, c: Manifest, d: Manifest, key: ObjectKey)
    ensures HasKey([a, b, c, d], key) <==> key == a.key || key == b.key || key == c.key || key == d.key
  {
    var s := [a, b, c, d];
    assert s[0] == a && s[1] == b && s[2] == c && s[3] == d;
  }

  lemma HasKeyOne(m: Manifest, key: ObjectKey)
    ensures HasKey([m], key) <==> key == m.key
  {
    assert [m][0] == m;
  }

  lemma InstanceIs(v: Values)
    ensures v.ChartNameSeed() == Instance(v)
    ensures v.CACertificates() != "" <==> CACertificatesWanted(v)
    ensures CACertificatesWanted(v) ==> v.CACertificates() == v.extensionConfig.acme.value.caCertificates.value
  {
  }

  lemma ControllerHasKey(v: Values, key: ObjectKey)
    ensures HasKey(Controller(v), key) <==>
      key.kind in {Role, RoleBinding, Service, Deployment} && ControllerKey(v, key)
  {
    hide HasKey, CACertificatesWanted, Values.CACertificates;
    InstanceIs(v);
    HasKeyFour(CreateRole(v), CreateRoleBinding(v), CreateService(v), DeploymentOf(v), key);
    DeploymentKey(v);
  }

  lemma AccessHasKey(v: Values, key: ObjectKey)
    requires !v.shootDeployment
    ensures HasKey(TargetAccess(v), key) <==>
      key.kind in {Role, RoleBinding, ClusterRole, ClusterRoleBinding} && AccessKey(v, key)
  {
    hide HasKey;
    HasKeyFour(CreateShootRole(v), CreateShootRoleBinding(v), CreateShootClusterRole(v),
               CreateShootClusterRoleBinding(v), key);
    assert v.ShootClusterRoleName() == "extensions.gardener.cloud:extension-shoot-cert-service:" + v.certClass;
  }

  lemma CRDsHaveKey(v: Values, key: ObjectKey)
    requires !v.shootDeployment
    ensures HasKey(KeptAll(ShootCRDs(v)), key) <==> key.kind == CustomResourceDefinition && AccessKey(v, key)
  {
    var crds := KeptAll(ShootCRDs(v));
    assert |crds| == 3 && crds[0].key.name == "certificates.cert.gardener.cloud"
      && crds[1].key.name == "certificaterevocations.cert.gardener.cloud"
      && crds[2].key.name == "issuers.cert.gardener.cloud";
    assert forall i :: 0 <= i < 3 ==> crds[i].key.kind == CustomResourceDefinition && crds[i].key.namespace == "";
  }

  lemma OptionalHaveKey(v: Values, key: ObjectKey)
    ensures HasKey(Optional(CreateCACertificatesConfigMap(v)), key) <==>
      key.kind == ConfigMap && ControllerKey(v, key)
    ensures HasKey(Optional(CreateNetworkPolicy(v)), key) <==> key.kind == NetworkPolicy && AccessKey(v, key)
  {
    hide HasKey, Optional;
    InstanceIs(v);
    OptionalKey(CreateCACertificatesConfigMap(v), key);
    OptionalKey(CreateNetworkPolicy(v), key);
  }

  // ----- the keys of the issuers

  lemma {:induction false} IssuersHaveKey(v: Values, issuers: seq<Issuers.Issuer>, key: ObjectKey)
    ensures HasKey(Wrap(Issuers.AllObjects(v, issuers)), key) <==>
      exists k :: 0 <= k < |issuers| && HasKey(Wrap(Issuers.ObjectsOf(v, issuers[k])), key)
  {
    hide HasKey, Wrap, Issuers.ObjectsOf;
    if issuers == [] {
      NothingHasKey(key);
    } else {
      var n := |issuers| - 1;
      IssuersHaveKey(v, issuers[..n], key);
      WrapAppend(Issuers.AllObjects(v, issuers[..n]), Issuers.ObjectsOf(v, issuers[n]));
      HasKeyAppend(Wrap(Issuers.AllObjects(v, issuers[..n])), Wrap(Issuers.ObjectsOf(v, issuers[n])), key);
      assert forall k :: 0 <= k < n ==> issuers[..n][k] == issuers[k];
    }
  }

  lemma NothingHasKey(key: ObjectKey)
    ensures !HasKey(Wrap([]), key)
  {
  }

  predicate KeyOfIssuer(v: Values, issuer: Issuers.Issuer, key: ObjectKey) {
    && key.namespace == v.namespace
    && match key.kind {
         case Issuer => key.name == issuer.name
         case Secret =>
           || (issuer.acme.Some? && issuer.acme.value.privateKey.Some?
               && key.name == "extension-shoot-cert-service-issuer-" + issuer.name)
           || (issuer.ca.Some? && key.name == "extension-shoot-cert-service-issuer-" + issuer.name + "-ca")
         case _ => false
       }
  }

  lemma OneIssuerHasKey(v: Values, issuer: Issuers.Issuer, key: ObjectKey)
    ensures HasKey(Wrap(Issuers.ObjectsOf(v, issuer)), key) <==> KeyOfIssuer(v, issuer, key)
  {
    hide Issuers.CreateACMESpec, HasKey, Wrap;
    var a := if issuer.acme.Some? && issuer.acme.value.privateKey.Some? then [Issuers.SecretACME(v, issuer)] else [];
    var b := if issuer.ca.Some? then [Issuers.SecretCA(v, issuer)] else [];
    var c := [Issuers.CreateIssuer(v, issuer)];
    assert Issuers.ObjectsOf(v, issuer) == a + b + c;
    WrapAppend(a + b, c);
    WrapAppend(a, b);
    HasKeyAppend(Wrap(a) + Wrap(b), Wrap(c), key);
    HasKeyAppend(Wrap(a), Wrap(b), key);
    WrapOne(Issuers.CreateIssuer(v, issuer), key);
    NothingHasKey(key);
    if a != [] {
      WrapOne(a[0], key);
    }
    if b != [] {
      WrapOne(b[0], key);
    }
  }

  lemma WrapOne(o: Issuers.Object, key: ObjectKey)
    ensures HasKey(Wrap([o]), key) <==> key == DeployedKey(o)
  {
    assert Wrap([o])[0].key == DeployedKey(o);
  }

  lemma IssuerManifestsHaveKey(v: Values, key: ObjectKey)
    requires Issuers.AllResolve(v, Issuers.Deployed(v))
    ensures HasKey(IssuerManifests(v), key) <==> key.kind in {Secret, Issuer} && ControllerKey(v, key)
  {
    hide HasKey, Wrap, Issuers.AllObjects, Issuers.ObjectsOf, Issuers.Collected, Issuers.Deployed, Issuers.AllResolve;
    var issuers := Issuers.Collected(v);
    IssuersHaveKey(v, issuers, key);
    forall k | 0 <= k < |issuers|
      ensures HasKey(Wrap(Issuers.ObjectsOf(v, issuers[k])), key) <==> KeyOfIssuer(v, issuers[k], key)
    {
      OneIssuerHasKey(v, issuers[k], key);
    }
    KeysOfCollected(v, key);
  }

  lemma KeysOfCollected(v: Values, key: ObjectKey)
    requires Issuers.AllResolve(v, Issuers.Deployed(v))
    ensures (exists k :: 0 <= k < |Issuers.Collected(v)| && KeyOfIssuer(v, Issuers.Collected(v)[k], key)) <==>
      key.kind in {Secret, Issuer} && ControllerKey(v, key)
  {
    hide Issuers.Deployed, Issuers.Resolves;
    var issuers := Issuers.Collected(v);
    DefaultKeys(v, key);
    forall k | 0 < k < |issuers|
      ensures KeyOfIssuer(v, issuers[k], key) <==>
        key.kind == Issuer && key.namespace == v.namespace && key.name == Issuers.Deployed(v)[k - 1].name
    {
      P.CollectedAt(v, k);
      OwnKeys(v, Issuers.Deployed(v)[k - 1], key);
    }
    DeployedNames(v, key.name);
    P.CollectedAt(v, 0);
    if key.kind in {Secret, Issuer} && ControllerKey(v, key) && !KeyOfIssuer(v, issuers[0], key) {
      var j :| 0 <= j < |Issuers.Deployed(v)| && Issuers.Deployed(v)[j].name == key.name;
      assert KeyOfIssuer(v, issuers[j + 1], key);
    }
    if k :| 0 <= k < |issuers| && KeyOfIssuer(v, issuers[k], key) {
      assert k > 0 ==> Named(Issuers.Deployed(v), key.name);
    }
  }

  lemma DefaultKeys(v: Values, key: ObjectKey)
    ensures KeyOfIssuer(v, Issuers.GardenIssuer(v.extensionConfig), key) <==>
      key.namespace == v.namespace
      && ((key.kind == Issuer && key.name == v.extensionConfig.issuerName)
          || (key.kind == Secret && SecretName(v, key.name)))
  {
  }

  lemma OwnKeys(v: Values, c: IssuerConfig, key: ObjectKey)
    requires Issuers.Resolves(v, c)
    ensures KeyOfIssuer(v, Issuers.Translated(v, c), key) <==>
      key.kind == Issuer && key.namespace == v.namespace && key.name == c.name
  {
    TranslatedWithoutSecrets(v, c);
  }

  lemma DeployedNames(v: Values, name: string)
    ensures name == v.extensionConfig.issuerName || Named(Issuers.Deployed(v), name) <==> IssuerName(v, name)
  {
    hide Issuers.Own;
    var issuers := Elems(v.certConfig.issuers);
    Issuers.OwnExactly(v.extensionConfig.issuerName, issuers);
    if j :| 0 <= j < |Issuers.Deployed(v)| && Issuers.Deployed(v)[j].name == name {
      assert Issuers.Deployed(v)[j] in issuers;
    }
    if v.shootDeployment && name != v.extensionConfig.issuerName {
      if i :| 0 <= i < |issuers| && issuers[i].name == name {
        assert issuers[i] in Issuers.Deployed(v);
      }
    }
  }

  // ----- what the blocks contain

  lemma ControllerContent(v: Values)
    ensures forall m :: m in Controller(v) ==> Content(v, m)
  {
    hide DeploymentOf, WorkloadContent, CACertificatesWanted, Values.CACertificates;
    InstanceIs(v);
    DeploymentKey(v);
    DeploymentContent(v);
  }

  lemma DeploymentContent(v: Values)
    ensures DeploymentOf(v).Workload? && WorkloadContent(v, DeploymentOf(v))
  {
    hide CACertificatesWanted, Values.CACertificates;
    InstanceIs(v);
    assert FULL_NAME + "-ca-certificates" == "cert-controller-manager-ca-certificates";
  }

  lemma AccessContent(v: Values)
    requires !v.shootDeployment
    ensures forall m :: m in TargetAccess(v) ==> Content(v, m) && !m.Workload?
  {
    hide CACertificatesWanted;
    assert |v.ShootClusterRoleName()| >= |"extensions.gardener.cloud:extension-shoot-cert-service:"| == 55;
    assert |Instance(v)| <= 26 && |ROLE_NAME| == 78;
  }

  lemma OtherContent(v: Values)
    ensures forall m :: m in Optional(CreateCACertificatesConfigMap(v)) ==> Content(v, m) && !m.Workload?
    ensures forall m :: m in Optional(CreateNetworkPolicy(v)) || m in Monitoring(v) ==> Content(v, m) && !m.Workload?
  {
    hide CACertificatesWanted, Values.CACertificates, Values.CertExpirationAlertDays;
    InstanceIs(v);
    assert |"cert-controller-manager-dashboards"| == 34 && |"cert-controller-manager-ca-certificates"| == 39;
  }

  lemma IssuersContent(v: Values)
    requires Issuers.AllResolve(v, Issuers.Deployed(v))
    ensures forall m :: m in IssuerManifests(v) ==> Content(v, m) && !m.Workload?
  {
    hide Issuers.AllObjects, Issuers.Collected, Issuers.Deployed, Issuers.AllResolve;
  }

  lemma IssuersAreIn(v: Values, objects: seq<Manifest>)
    requires Issuers.AllResolve(v, Issuers.Deployed(v)) && forall m :: m in IssuerManifests(v) ==> m in objects
    ensures IssuersIn(v, objects)
  {
    hide Issuers.AllObjects, Issuers.Collected, Issuers.Deployed, Issuers.AllResolve, P.InPlace;
    P.AllInPlace(v, Issuers.Collected(v));
    var all := Issuers.AllObjects(v, Issuers.Collected(v));
    forall o | o in all
      ensures Deployed(DeployedKey(o), o) in objects
    {
      var i :| 0 <= i < |all| && all[i] == o;
      assert IssuerManifests(v)[i] == Deployed(DeployedKey(o), o);
    }
  }

  /** The workload of the controller is the only one if nothing around it is a workload. */
  lemma OnlyWorkload(v: Values, a: seq<Manifest>, b: seq<Manifest>)
    requires forall m :: m in a || m in b ==> !m.Workload?
    ensures var objects := a + Controller(v) + b;
      |a| + 3 < |objects| && objects[|a| + 3] == DeploymentOf(v) && IsWorkload(objects, |a| + 3)
  {
    var objects := a + Controller(v) + b;
    forall j | 0 <= j < |objects| && j != |a| + 3
      ensures !objects[j].Workload?
    {
      if j < |a| {
        assert objects[j] in a;
      } else if j >= |a| + 4 {
        assert objects[j] == b[j - |a| - 4];
      } else {
        assert objects[j] == Controller(v)[j - |a|];
      }
    }
  }

  lemma WorkloadIs(v: Values, objects: seq<Manifest>, a: seq<Manifest>, b: seq<Manifest>)
    requires objects == a + Controller(v) + b && forall m :: m in a || m in b ==> !m.Workload?
    requires forall m :: m in Optional(CreateCACertificatesConfigMap(v)) ==> m in objects
    requires HasControllerKeys(v, objects)
    ensures OneWorkload(v, objects)
  {
    hide Controller, DeploymentOf, IsWorkload, Resolved, Mounted, HasControllerKeys, CreateCACertificatesConfigMap,
      Optional;
    OnlyWorkload(v, a, b);
    DeploymentKey(v);
    DeploymentMounted(v, objects);
    assert DeploymentOf(v) in Controller(v) by {
      DeploymentInController(v);
    }
    ControllerResolved(v, objects, DeploymentOf(v));
    var i := |a| + 3;
    assert objects[i] == DeploymentOf(v) && IsWorkload(objects, i) && Resolved(objects, objects[i]);
  }

  lemma DeploymentInController(v: Values)
    ensures DeploymentOf(v) in Controller(v)
  {
    assert Controller(v)[3] == DeploymentOf(v);
  }

  // ----- the list for the garden runtime or a seed

  lemma GardenOrSeedHasKey(v: Values, key: ObjectKey)
    requires !v.shootDeployment
    ensures HasKey(GardenOrSeedObjects(v), key) <==> ControllerKey(v, key) || AccessKey(v, key)
  {
    hide HasKey, IssuerManifests, Controller, TargetAccess, Optional, CreateCACertificatesConfigMap, KeptAll,
      CreateNetworkPolicy, ShootCRDs, SecretName, IssuerName, Issuers.AllResolve, CACertificatesWanted;
    NoUserIssuers(v);
    InstanceIs(v);
    var account, ca := [CreateServiceAccount(v)], Optional(CreateCACertificatesConfigMap(v));
    HasKeyOne(CreateServiceAccount(v), key);
    OptionalHaveKey(v, key);
    IssuerManifestsHaveKey(v, key);
    ControllerHasKey(v, key);
    AccessHasKey(v, key);
    CRDsHaveKey(v, key);
    HasKeyAppend(account, ca, key);
    HasKeyAppend(account + ca, IssuerManifests(v), key);
    HasKeyAppend(account + ca + IssuerManifests(v), Controller(v), key);
    var list := account + ca + IssuerManifests(v) + Controller(v);
    HasKeyAppend(list, TargetAccess(v), key);
    HasKeyAppend(list + TargetAccess(v), Optional(CreateNetworkPolicy(v)), key);
    HasKeyAppend(list + TargetAccess(v) + Optional(CreateNetworkPolicy(v)), KeptAll(ShootCRDs(v)), key);
  }

  lemma GardenOrSeedContent(v: Values)
    requires !v.shootDeployment
    ensures forall m :: m in GardenOrSeedObjects(v) ==> Content(v, m)
  {
    hide GardenOrSeedObjects, IssuerManifests, Controller, TargetAccess, Optional, KeptAll, ShootCRDs,
      CreateCACertificatesConfigMap, CreateNetworkPolicy, Issuers.AllResolve, WorkloadContent, BindingContent;
    NoUserIssuers(v);
    GardenOrSeedParts(v);
    IssuersContent(v);
    ControllerContent(v);
    AccessContent(v);
    OtherContent(v);
    CRDsDistinct(v);
    forall m | m in KeptAll(ShootCRDs(v))
      ensures Content(v, m)
    {
    }
  }

  lemma GardenOrSeedWorkload(v: Values)
    requires !v.shootDeployment
    ensures OneWorkload(v, GardenOrSeedObjects(v)) && IssuersIn(v, GardenOrSeedObjects(v))
  {
    hide IssuerManifests, Controller, TargetAccess, Optional, KeptAll, ShootCRDs, OneWorkload, IssuersIn,
      CreateCACertificatesConfigMap, CreateNetworkPolicy, Issuers.AllResolve, HasControllerKeys, Content;
    NoUserIssuers(v);
    GardenOrSeedParts(v);
    IssuersContent(v);
    AccessContent(v);
    OtherContent(v);
    CRDsDistinct(v);
    var a := [CreateServiceAccount(v)] + Optional(CreateCACertificatesConfigMap(v)) + IssuerManifests(v);
    var b := TargetAccess(v) + Optional(CreateNetworkPolicy(v)) + KeptAll(ShootCRDs(v));
    var list := GardenOrSeedObjects(v);
    assert list == a + Controller(v) + b;
    ControllerKeys(v, list);
    WorkloadIs(v, list, a, b);
    IssuersAreIn(v, list);
  }

  lemma GardenOrSeedListIs(v: Values)
    requires !v.shootDeployment
    ensures GardenOrSeedList(v, GardenOrSeedObjects(v))
  {
    hide GardenOrSeedObjects, HasKey, DistinctKeys, Content, OneWorkload, IssuersIn, ControllerKey, AccessKey;
    forall key
      ensures HasKey(GardenOrSeedObjects(v), key) <==> ControllerKey(v, key) || AccessKey(v, key)
    {
      GardenOrSeedHasKey(v, key);
    }
    GardenOrSeedKeysDistinct(v);
    GardenOrSeedContent(v);
    GardenOrSeedWorkload(v);
  }

  // ----- the list for the control plane of a shoot

  lemma MonitoringHasKey(v: Values, key: ObjectKey)
    ensures HasKey(Monitoring(v), key) <==> key.kind != PodDisruptionBudget && MonitoringKey(v, key)
  {
    var m := Monitoring(v);
    assert FULL_NAME + "-vpa" == "cert-controller-manager-vpa";
    assert m[0].key.kind == VerticalPodAutoscaler && m[1].key.kind == ConfigMap;
    assert AlertsWanted(v) <==> v.CertExpirationAlertDays() != 0;
    if AlertsWanted(v) {
      assert |m| == 4 && m[2].key.kind == PrometheusRule && m[3].key.kind == ServiceMonitor;
    } else {
      assert |m| == 3 && m[2].key.kind == ServiceMonitor;
    }
  }

  function Budget(v: Values): Manifest {
    Plain(ObjectKey(PodDisruptionBudget, v.namespace, "cert-controller-manager"))
  }

  lemma ControlPlaneHasKey(v: Values, key: ObjectKey)
    requires v.shootDeployment && Issuers.AllResolve(v, Issuers.Deployed(v))
    ensures HasKey(ControlPlaneObjects(v), key) <==> ControllerKey(v, key) || MonitoringKey(v, key)
  {
    hide HasKey, IssuerManifests, Controller, Monitoring, Optional, CreateCACertificatesConfigMap,
      SecretName, IssuerName, Issuers.AllResolve, CACertificatesWanted, AlertsWanted;
    InstanceIs(v);
    var ca := Optional(CreateCACertificatesConfigMap(v));
    assert [Budget(v), CreateServiceAccount(v)] == [Budget(v)] + [CreateServiceAccount(v)];
    HasKeyOne(Budget(v), key);
    HasKeyOne(CreateServiceAccount(v), key);
    HasKeyAppend([Budget(v)], [CreateServiceAccount(v)], key);
    OptionalHaveKey(v, key);
    IssuerManifestsHaveKey(v, key);
    ControllerHasKey(v, key);
    MonitoringHasKey(v, key);
    var front := [Budget(v), CreateServiceAccount(v)];
    HasKeyAppend(front, ca, key);
    HasKeyAppend(front + ca, IssuerManifests(v), key);
    HasKeyAppend(front + ca + IssuerManifests(v), Controller(v), key);
    HasKeyAppend(front + ca + IssuerManifests(v) + Controller(v), Monitoring(v), key);
  }

  lemma ControlPlaneContent(v: Values)
    requires v.shootDeployment && Issuers.AllResolve(v, Issuers.Deployed(v))
    ensures forall m :: m in ControlPlaneObjects(v) ==> Content(v, m)
  {
    hide ControlPlaneObjects, IssuerManifests, Controller, Monitoring, Optional, CreateCACertificatesConfigMap,
      Issuers.AllResolve, WorkloadContent, BindingContent;
    ControlPlaneParts(v);
    IssuersContent(v);
    ControllerContent(v);
    OtherContent(v);
  }

  lemma ControlPlaneWorkload(v: Values)
    requires v.shootDeployment && Issuers.AllResolve(v, Issuers.Deployed(v))
    ensures OneWorkload(v, ControlPlaneObjects(v)) && IssuersIn(v, ControlPlaneObjects(v))
  {
    hide IssuerManifests, Controller, Monitoring, Optional, OneWorkload, IssuersIn,
      CreateCACertificatesConfigMap, Issuers.AllResolve, HasControllerKeys, Content;
    ControlPlaneParts(v);
    IssuersContent(v);
    OtherContent(v);
    var a := [Budget(v), CreateServiceAccount(v)] + Optional(CreateCACertificatesConfigMap(v)) + IssuerManifests(v);
    var list := ControlPlaneObjects(v);
    assert list == a + Controller(v) + Monitoring(v);
    ControllerKeys(v, list);
    WorkloadIs(v, list, a, Monitoring(v));
    IssuersAreIn(v, list);
  }

  lemma ControlPlaneListIs(v: Values)
    requires v.shootDeployment && Issuers.AllResolve(v, Issuers.Deployed(v))
    ensures ControlPlaneList(v, ControlPlaneObjects(v))
  {
    hide ControlPlaneObjects, HasKey, DistinctKeys, Content, OneWorkload, IssuersIn, ControllerKey, MonitoringKey,
      Issuers.AllResolve;
    forall key
      ensures HasKey(ControlPlaneObjects(v), key) <==> ControllerKey(v, key) || MonitoringKey(v, key)
    {
      ControlPlaneHasKey(v, key);
    }
    if V.DistinctNames(Elems(v.certConfig.issuers)) {
      ControlPlaneKeysDistinct(v);
    }
    ControlPlaneContent(v);
    ControlPlaneWorkload(v);
  }

  // ----- building the lists

  /** The objects of DeployGardenOrSeedManagedResource; None is its error for a shoot deployment. */
  method BuildGardenOrSeedObjects(v: Values) returns (result: Option<seq<Manifest>>)
    ensures result.None? <==> v.shootDeployment
    ensures result.Some? ==> GardenOrSeedList(v, result.value)
    ensures result.Some? ==> result.value == GardenOrSeedObjects(v)
  {
    hide GardenOrSeedList, Controller, TargetAccess, KeptAll, Kept, ShootCRDs, Optional, Wrap, CreateServiceAccount,
      CreateCACertificatesConfigMap,
      CreateNetworkPolicy, DeploymentOf, Issuers.AllObjects, Issuers.Collected;
    if v.shootDeployment {
      return None;
    }
    var objects: seq<Manifest> := [CreateServiceAccount(v)];
    objects := objects + Optional(CreateCACertificatesConfigMap(v));
    var created := Issuers.CreateIssuers(v);
    objects := objects + Wrap(created.value.0);
    var deployment := CreateDeployment(v);
    var controller := BuildController(v, deployment);
    objects := objects + controller;
    var access := BuildTargetAccess(v);
    objects := objects + access;
    objects := objects + Optional(CreateNetworkPolicy(v));
    var crds := ShootCRDs(v);
    for i := 0 to |crds|
      invariant |crds| == |ShootCRDs(v)|
      invariant forall j :: 0 <= j < |crds| ==> crds[j] == if j < i then Kept(ShootCRDs(v)[j]) else ShootCRDs(v)[j]
    {
      crds := crds[i := Kept(crds[i])];
    }
    assert crds == KeptAll(ShootCRDs(v));
    objects := objects + crds;
    GardenOrSeedListIs(v);
    return Some(objects);
  }

  /** Building that list: the error of createIssuers is passed on. */
  method BuildControlPlaneObjects(v: Values) returns (result: Option<seq<Manifest>>)
    ensures result.Some? <==> v.shootDeployment && Issuers.AllResolve(v, Issuers.Deployed(v))
    ensures result.Some? ==> ControlPlaneList(v, result.value)
    ensures result.Some? ==> result.value == ControlPlaneObjects(v)
  {
    hide ControlPlaneList, Controller, DeploymentOf, Monitoring, Optional, Wrap, CreateServiceAccount,
      CreateCACertificatesConfigMap, Issuers.AllResolve, Issuers.AllObjects, Issuers.Collected, Issuers.Deployed;
    if !v.shootDeployment {
      return None;
    }
    var objects: seq<Manifest> := [Plain(ObjectKey(PodDisruptionBudget, v.namespace, "cert-controller-manager"))];
    objects := objects + [CreateServiceAccount(v)];
    objects := objects + Optional(CreateCACertificatesConfigMap(v));
    var created := Issuers.CreateIssuers(v);
    if created.Err? {
      return None;
    }
    objects := objects + Wrap(created.value.0);
    var deployment := CreateDeployment(v);
    var controller := BuildController(v, deployment);
    objects := objects + controller;
    var monitoring := BuildMonitoring(v);
    objects := objects + monitoring;
    assert objects == ControlPlaneObjects(v);
    ControlPlaneListIs(v);
    return Some(objects);
  }

  method BuildController(v: Values, deployment: Manifest) returns (objects: seq<Manifest>)
    requires deployment == DeploymentOf(v)
    ensures objects == Controller(v)
  {
    objects := [CreateRole(v)];
    objects := objects + [CreateRoleBinding(v)];
    objects := objects + [CreateService(v)];
    objects := objects + [deployment];
  }

  method BuildTargetAccess(v: Values) returns (objects: seq<Manifest>)
    ensures objects == TargetAccess(v)
  {
    objects := [CreateShootRole(v)];
    objects := objects + [CreateShootRoleBinding(v)];
    objects := objects + [CreateShootClusterRole(v)];
    objects := objects + [CreateShootClusterRoleBinding(v)];
  }

  method BuildMonitoring(v: Values) returns (monitoring: seq<Manifest>)
    ensures monitoring == Monitoring(v)
  {
    monitoring := [Plain(ObjectKey(VerticalPodAutoscaler, v.namespace, FULL_NAME + "-vpa"))];
    monitoring := monitoring
      + [DataMap(ObjectKey(ConfigMap, v.namespace, "cert-controller-manager-dashboards"), map[])];
    if v.CertExpirationAlertDays() != 0 {
      monitoring := monitoring + [Plain(ObjectKey(PrometheusRule, v.namespace, "shoot-cert-controller-manager"))];
    }
    monitoring := monitoring + [Plain(ObjectKey(ServiceMonitor, v.namespace, "shoot-cert-controller-manager"))];
  }
}
