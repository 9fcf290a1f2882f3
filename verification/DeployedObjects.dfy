/** The object lists of the managed resources for the garden runtime, a seed, and the control plane of a shoot. */
module DeployedObjects {
  import opened GoStrings
  import opened DeployerValues
  import Issuers

  datatype Kind =
    | ServiceAccount | ConfigMap | Secret | Issuer | Role | RoleBinding | ClusterRole | ClusterRoleBinding | Service
    | Deployment | NetworkPolicy | CustomResourceDefinition | PodDisruptionBudget | VerticalPodAutoscaler
    | PrometheusRule | ServiceMonitor

  /** An object is identified by kind, namespace and name; cluster-wide objects have no namespace. */
  datatype ObjectKey = ObjectKey(kind: Kind, namespace: string, name: string)

  datatype Volume = FromConfigMap(name: string, configMap: string) | Projected(name: string, secrets: seq<string>)

  datatype Mount = Mount(volume: string, path: string)

  datatype EnvVar = EnvVar(name: string, value: string)

  datatype Manifest =
    | Plain(key: ObjectKey)
    | DataMap(key: ObjectKey, data: map<string, string>)
    | Binding(key: ObjectKey, roleRef: ObjectKey, subject: ObjectKey)
    | Workload(key: ObjectKey, serviceAccount: string, volumes: seq<Volume>, mounts: seq<Mount>, env: seq<EnvVar>)
    | Definition(key: ObjectKey, keepObject: bool)
    | Deployed(key: ObjectKey, item: Issuers.Object)

  // ----- builders

  const ROLE_NAME := "extensions.gardener.cloud:extension-shoot-cert-service:cert-controller-manager"
  const SEED_ROLE_NAME := "extensions.gardener.cloud:extension-shoot-cert-service"
  const CA_CONFIG_MAP := "cert-controller-manager-ca-certificates"
  const CERTS_PATH := "/var/run/cert-manager/certs"
  const CERTS_KEY := "certs.pem"
  const SHOOT_ACCESS_SECRET := "shoot-access-extension-shoot-cert-service"
  const SHOOT_ACCESS_SERVICE_ACCOUNT := "extension-shoot-cert-service"

  function CreateServiceAccount(v: Values): Manifest {
    Plain(ObjectKey(ServiceAccount, v.namespace, v.ChartNameSeed()))
  }

  function CreateCACertificatesConfigMap(v: Values): Option<Manifest> {
    if v.CACertificates() == "" then None
    else Some(DataMap(ObjectKey(ConfigMap, v.namespace, CA_CONFIG_MAP), map[CERTS_KEY := v.CACertificates()]))
  }

  function CreateRole(v: Values): Manifest {
    Plain(ObjectKey(Role, v.namespace, SEED_ROLE_NAME))
  }

  function CreateRoleBinding(v: Values): Manifest {
    Binding(
      ObjectKey(RoleBinding, v.namespace, v.ChartNameSeed()),
      ObjectKey(Role, v.namespace, SEED_ROLE_NAME),
      ObjectKey(ServiceAccount, v.namespace, v.ChartNameSeed()))
  }

  function CreateService(v: Values): Manifest {
    Plain(ObjectKey(Service, v.namespace, "cert-controller-manager"))
  }

  /** Deployer.volumes */
  method Volumes(v: Values) returns (volumes: seq<Volume>)
    ensures volumes == VolumesOf(v)
  {
    volumes := [];
    if v.shootDeployment {
      volumes := volumes + [Projected("kubeconfig", [v.genericTokenKubeconfigSecretName, SHOOT_ACCESS_SECRET])];
    }
    if v.CACertificates() != "" {
      volumes := volumes + [FromConfigMap("ca-certificates", FULL_NAME + "-ca-certificates")];
    }
  }

  function VolumesOf(v: Values): seq<Volume> {
    (if v.shootDeployment then [Projected("kubeconfig", [v.genericTokenKubeconfigSecretName, SHOOT_ACCESS_SECRET])]
      else [])
    + (if v.CACertificates() != "" then [FromConfigMap("ca-certificates", FULL_NAME + "-ca-certificates")] else [])
  }

  /** Deployer.volumeMounts */
  method VolumeMounts(v: Values) returns (mounts: seq<Mount>)
    ensures mounts == MountsOf(v)
  {
    mounts := [];
    if v.shootDeployment {
      mounts := mounts + [Mount("kubeconfig", "/var/run/secrets/gardener.cloud/shoot/generic-kubeconfig")];
    }
    if v.CACertificates() != "" {
      mounts := mounts + [Mount("ca-certificates", CERTS_PATH)];
    }
  }

  function MountsOf(v: Values): seq<Mount> {
    (if v.shootDeployment then [Mount("kubeconfig", "/var/run/secrets/gardener.cloud/shoot/generic-kubeconfig")]
      else [])
    + (if v.CACertificates() != "" then [Mount("ca-certificates", CERTS_PATH)] else [])
  }

  function EnvOf(v: Values): seq<EnvVar> {
    if v.CACertificates() == "" then []
    else [EnvVar("LEGO_CA_SYSTEM_CERT_POOL", "true"),
      EnvVar("LEGO_CA_CERTIFICATES", "/var/run/cert-manager/certs/certs.pem")]
  }

  function DeploymentOf(v: Values): Manifest {
    Workload(ObjectKey(Deployment, v.namespace, FULL_NAME), v.ChartNameSeed(), VolumesOf(v), MountsOf(v), EnvOf(v))
  }

  method CreateDeployment(v: Values) returns (deployment: Manifest)
    ensures deployment == DeploymentOf(v)
  {
    var mounts := VolumeMounts(v);
    var volumes := Volumes(v);
    deployment := Workload(ObjectKey(Deployment, v.namespace, FULL_NAME), v.ChartNameSeed(), volumes, mounts, EnvOf(v));
  }

  function CreateShootRole(v: Values): Manifest {
    Plain(ObjectKey(Role, v.ShootNamespace(), ROLE_NAME))
  }

  function ShootSubject(v: Values): ObjectKey {
    if v.shootDeployment then ObjectKey(ServiceAccount, "kube-system", SHOOT_ACCESS_SERVICE_ACCOUNT)
    else ObjectKey(ServiceAccount, v.namespace, v.InstanceNameGardenOrSeed())
  }

  function CreateShootRoleBinding(v: Values): Manifest {
    Binding(ObjectKey(RoleBinding, v.ShootNamespace(), ROLE_NAME), ObjectKey(Role, v.ShootNamespace(), ROLE_NAME),
      ShootSubject(v))
  }

  function CreateShootClusterRole(v: Values): Manifest {
    Plain(ObjectKey(ClusterRole, "", v.ShootClusterRoleName()))
  }

  function CreateShootClusterRoleBinding(v: Values): Manifest {
    Binding(ObjectKey(ClusterRoleBinding, "", v.ShootClusterRoleName()),
      ObjectKey(ClusterRole, "", v.ShootClusterRoleName()),
            ShootSubject(v))
  }

  function CreateNetworkPolicy(v: Values): Option<Manifest> {
    if v.extensionConfig.inClusterACMEServerNamespaceMatchLabel == map[] then None
    else Some(Plain(ObjectKey(NetworkPolicy, v.namespace,
      "egress-from-cert-controller-manager-to-labelled-namespaces")))
  }

  /** The CRDs: issuers are managed in the target only if shoot issuers are enabled, and always outside of shoots. */
  function ShootCRDs(v: Values): seq<Manifest> {
    [Definition(ObjectKey(CustomResourceDefinition, "", "certificates.cert.gardener.cloud"), false),
     Definition(ObjectKey(CustomResourceDefinition, "", "certificaterevocations.cert.gardener.cloud"), false)]
    + if v.ShootIssuersEnabled() || !v.shootDeployment
      then [Definition(ObjectKey(CustomResourceDefinition, "", "issuers.cert.gardener.cloud"), false)] else []
  }

  function DeployedKey(o: Issuers.Object): ObjectKey {
    ObjectKey(if o.Secret? then Secret else Issuer, o.namespace, o.name)
  }

  function Wrap(objects: seq<Issuers.Object>): (r: seq<Manifest>)
    ensures |r| == |objects|
    ensures forall i :: 0 <= i < |r| ==> r[i] == Deployed(DeployedKey(objects[i]), objects[i])
  {
    seq(|objects|, i requires 0 <= i < |objects| => Deployed(DeployedKey(objects[i]), objects[i]))
  }

  function Optional(m: Option<Manifest>): seq<Manifest> {
    if m.Some? then [m.value] else []
  }

  // ----- the list for the garden runtime or a seed

  function Kept(m: Manifest): Manifest {
    if m.Definition? then m.(keepObject := true) else m
  }

  function KeptAll(crds: seq<Manifest>): (r: seq<Manifest>)
    ensures |r| == |crds| && forall i :: 0 <= i < |r| ==> r[i] == Kept(crds[i])
  {
    seq(|crds|, i requires 0 <= i < |crds| => Kept(crds[i]))
  }

  function Controller(v: Values): seq<Manifest> {
    [CreateRole(v), CreateRoleBinding(v), CreateService(v), DeploymentOf(v)]
  }

  function TargetAccess(v: Values): seq<Manifest> {
    [CreateShootRole(v), CreateShootRoleBinding(v), CreateShootClusterRole(v), CreateShootClusterRoleBinding(v)]
  }

  function IssuerManifests(v: Values): seq<Manifest>
    requires Issuers.AllResolve(v, Issuers.Deployed(v))
  {
    Wrap(Issuers.AllObjects(v, Issuers.Collected(v)))
  }

  /** The objects of DeployGardenOrSeedManagedResource. */
  function GardenOrSeedObjects(v: Values): seq<Manifest>
    requires !v.shootDeployment
  {
    [CreateServiceAccount(v)] + Optional(CreateCACertificatesConfigMap(v)) + IssuerManifests(v) + Controller(v)
      + TargetAccess(v)
    + Optional(CreateNetworkPolicy(v)) + KeptAll(ShootCRDs(v))
  }

  // ----- the list for the control plane of a shoot

  function Monitoring(v: Values): seq<Manifest> {
    [Plain(ObjectKey(VerticalPodAutoscaler, v.namespace, FULL_NAME + "-vpa")),
     DataMap(ObjectKey(ConfigMap, v.namespace, "cert-controller-manager-dashboards"), map[])]
    + (if v.CertExpirationAlertDays() == 0 then []
      else [Plain(ObjectKey(PrometheusRule, v.namespace, "shoot-cert-controller-manager"))])
    + [Plain(ObjectKey(ServiceMonitor, v.namespace, "shoot-cert-controller-manager"))]
  }

  /** The objects of DeploySeedManagedResource. */
  function ControlPlaneObjects(v: Values): seq<Manifest>
    requires Issuers.AllResolve(v, Issuers.Deployed(v))
  {
    [Plain(ObjectKey(PodDisruptionBudget, v.namespace, "cert-controller-manager")), CreateServiceAccount(v)]
    + Optional(CreateCACertificatesConfigMap(v)) + IssuerManifests(v) + Controller(v) + Monitoring(v)
  }

  // ----- references

  /** The objects that a manifest needs in its own list. Secrets that others provide are left out: the copies of
      referenced resources, the keys that registration will create, and the kubeconfig of the shoot. */
  function References(m: Manifest): seq<ObjectKey> {
    match m
    case Plain(_) => []
    case DataMap(_, _) => []
    case Definition(_, _) => []
    case Binding(_, roleRef, subject) => [roleRef, subject]
    case Workload(key, serviceAccount, volumes, _, _) =>
      [ObjectKey(ServiceAccount, key.namespace, serviceAccount)] + ConfigMapsOf(key.namespace, volumes)
    case Deployed(_, o) =>
      if o.Secret? then [] else KeyReference(o.spec) + CAReference(o.spec)
  }

  function KeyReference(spec: Issuers.IssuerSpec): seq<ObjectKey> {
    if spec.acme.Some? && !spec.acme.value.autoRegistration
       && !HasPrefix(spec.acme.value.privateKeySecretRef.name, Issuers.REFERENCED_RESOURCES_PREFIX)
    then [ObjectKey(Secret, spec.acme.value.privateKeySecretRef.namespace, spec.acme.value.privateKeySecretRef.name)]
    else []
  }

  function CAReference(spec: Issuers.IssuerSpec): seq<ObjectKey> {
    if spec.caSecretRef.Some? then [ObjectKey(Secret, spec.caSecretRef.value.namespace, spec.caSecretRef.value.name)]
      else []
  }

  function ConfigMapsOf(namespace: string, volumes: seq<Volume>): seq<ObjectKey> {
    if volumes == [] then []
    else
      (if volumes[0].FromConfigMap? then [ObjectKey(ConfigMap, namespace, volumes[0].configMap)] else [])
      + ConfigMapsOf(namespace, volumes[1..])
  }

  predicate HasKey(objects: seq<Manifest>, key: ObjectKey) {
    exists i :: 0 <= i < |objects| && objects[i].key == key
  }

  /** Every reference of the manifest is in the list. */
  predicate Resolved(objects: seq<Manifest>, m: Manifest) {
    forall i :: 0 <= i < |References(m)| ==> HasKey(objects, References(m)[i])
  }

  predicate Closed(objects: seq<Manifest>) {
    forall i :: 0 <= i < |objects| ==> Resolved(objects, objects[i])
  }

  predicate DistinctKeys(objects: seq<Manifest>) {
    forall i, j :: 0 <= i < j < |objects| ==> objects[i].key != objects[j].key
  }

  /** All mounts have a volume, and files that the environment points to are in a mounted config map of the list. */
  predicate Mounted(objects: seq<Manifest>, m: Manifest)
    requires m.Workload?
  {
    && (forall i :: 0 <= i < |m.mounts| ==> exists j :: 0 <= j < |m.volumes| && m.volumes[j].name == m.mounts[i].volume)
    && forall e :: e in m.env && e.name == "LEGO_CA_CERTIFICATES" ==> FileMounted(objects, m, e.value)
  }

  predicate FileMounted(objects: seq<Manifest>, m: Manifest, path: string)
    requires m.Workload?
  {
    exists i, j, c, file: string :: 0 <= i < |m.mounts| && 0 <= j < |m.volumes| && 0 <= c < |objects|
      && m.volumes[j].FromConfigMap? && m.volumes[j].name == m.mounts[i].volume
      && objects[c].DataMap? && objects[c].key == ObjectKey(ConfigMap, m.key.namespace, m.volumes[j].configMap)
      && file in objects[c].data && path == m.mounts[i].path + "/" + file
  }

  // ----- proofs about lists

  lemma DistinctAppend(a: seq<Manifest>, b: seq<Manifest>)
    requires DistinctKeys(a) && DistinctKeys(b)
    requires forall i :: 0 <= i < |b| ==> !HasKey(a, b[i].key)
    ensures DistinctKeys(a + b)
  {
  }

  /** All keys of the list are of kinds in the given set. */
  predicate OfKinds(objects: seq<Manifest>, kinds: set<Kind>) {
    forall i :: 0 <= i < |objects| ==> objects[i].key.kind in kinds
  }

  lemma DistinctByKind(a: seq<Manifest>, ka: set<Kind>, b: seq<Manifest>, kb: set<Kind>)
    requires DistinctKeys(a) && DistinctKeys(b) && OfKinds(a, ka) && OfKinds(b, kb) && ka !! kb
    ensures DistinctKeys(a + b) && OfKinds(a + b, ka + kb)
  {
    forall i | 0 <= i < |b|
      ensures !HasKey(a, b[i].key)
    {
    }
    DistinctAppend(a, b);
  }
}
