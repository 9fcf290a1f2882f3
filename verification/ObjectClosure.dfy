/** The deployed object lists have unique keys and resolve their own references. */
module ObjectClosure {
  import opened GoStrings
  import opened DeployerValues
  import opened DeployedObjects
  import ControllerArgs
  import Issuers
  import P = IssuerPipeline
  import V = ServiceValidation
  import opened ServiceTypes

  // ----- the issuers of a deployment

  lemma WrapAppend(a: seq<Issuers.Object>, b: seq<Issuers.Object>)
    ensures Wrap(a + b) == Wrap(a) + Wrap(b)
  {
  }

  lemma WrapHasKey(objects: seq<Issuers.Object>, key: ObjectKey)
    ensures HasKey(Wrap(objects), key) <==> exists i :: 0 <= i < |objects| && DeployedKey(objects[i]) == key
  {
    hide DeployedKey;
    if i :| 0 <= i < |objects| && DeployedKey(objects[i]) == key {
      assert Wrap(objects)[i].key == key;
    }
  }

  /** Issuer objects carry the names of their issuers. */
  lemma {:induction false} IssuerKeys(v: Values, issuers: seq<Issuers.Issuer>, name: string)
    requires forall k :: 0 <= k < |issuers| ==> issuers[k].name != name
    ensures forall i :: 0 <= i < |Issuers.AllObjects(v, issuers)| ==>
      Issuers.AllObjects(v, issuers)[i].IssuerObject? ==> Issuers.AllObjects(v, issuers)[i].name != name
  {
    hide Issuers.CreateACMESpec;
    if issuers != [] {
      var n := |issuers| - 1;
      IssuerKeys(v, issuers[..n], name);
    }
  }

  /** The default issuer with its Secrets, and an issuer without Secrets. */
  lemma OneIssuerDistinct(v: Values, issuer: Issuers.Issuer)
    ensures DistinctKeys(Wrap(Issuers.ObjectsOf(v, issuer)))
    ensures (issuer.acme.Some? ==> issuer.acme.value.privateKey.None?) && issuer.ca.None? ==>
      Issuers.ObjectsOf(v, issuer) == [Issuers.CreateIssuer(v, issuer)]
  {
    hide Issuers.CreateACMESpec;
    var prefixed := Issuers.ISSUER_SECRET_PREFIX + issuer.name;
    assert |prefixed + Issuers.CA_SUFFIX| == |prefixed| + 3;
  }

  lemma {:induction false} IssuerObjectsDistinct(v: Values, issuers: seq<Issuers.Issuer>)
    requires forall i, j :: 0 <= i < j < |issuers| ==> issuers[i].name != issuers[j].name
    requires forall k :: 0 < k < |issuers| ==>
      (issuers[k].acme.Some? ==> issuers[k].acme.value.privateKey.None?) && issuers[k].ca.None?
    ensures DistinctKeys(Wrap(Issuers.AllObjects(v, issuers)))
  {
    hide Issuers.CreateIssuer, Issuers.ObjectsOf;
    if issuers != [] {
      var n := |issuers| - 1;
      var init, last := Issuers.AllObjects(v, issuers[..n]), Issuers.ObjectsOf(v, issuers[n]);
      IssuerObjectsDistinct(v, issuers[..n]);
      OneIssuerDistinct(v, issuers[n]);
      WrapAppend(init, last);
      if n == 0 {
        assert issuers[..n] == [] && Wrap(init) + Wrap(last) == Wrap(last);
      } else {
        IssuerKeys(v, issuers[..n], issuers[n].name);
        var o := Issuers.CreateIssuer(v, issuers[n]);
        CreatedIssuer(v, issuers[n]);
        WrapHasKey(init, DeployedKey(o));
        assert last == [o] && Wrap(last)[0].key == DeployedKey(o);
        DistinctAppend(Wrap(init), Wrap(last));
      }
    }
  }

  lemma CreatedIssuer(v: Values, issuer: Issuers.Issuer)
    ensures Issuers.CreateIssuer(v, issuer).IssuerObject? && Issuers.CreateIssuer(v, issuer).name == issuer.name
  {
  }

  /** The issuer manifests of a deployment with differently named issuers. */
  lemma IssuerManifestsDistinct(v: Values)
    requires Issuers.AllResolve(v, Issuers.Deployed(v)) && V.DistinctNames(Elems(v.certConfig.issuers))
    ensures DistinctKeys(IssuerManifests(v)) && OfKinds(IssuerManifests(v), {Secret, Issuer})
  {
    hide Issuers.Collected, Issuers.Deployed, Issuers.AllObjects, Issuers.Translated, Issuers.Resolves;
    P.CollectedNamesDistinct(v);
    forall k | 0 < k < |Issuers.Collected(v)|
      ensures var issuer := Issuers.Collected(v)[k];
        (issuer.acme.Some? ==> issuer.acme.value.privateKey.None?) && issuer.ca.None?
    {
      P.CollectedAt(v, k);
      TranslatedWithoutSecrets(v, Issuers.Deployed(v)[k - 1]);
    }
    IssuerObjectsDistinct(v, Issuers.Collected(v));
  }

  lemma TranslatedWithoutSecrets(v: Values, c: IssuerConfig)
    requires Issuers.Resolves(v, c)
    ensures Issuers.Translated(v, c).acme.Some? && Issuers.Translated(v, c).acme.value.privateKey.None?
    ensures Issuers.Translated(v, c).ca.None?
  {
  }

  // ----- the other blocks

  lemma BlocksDistinct(v: Values)
    ensures DistinctKeys(Controller(v) + TargetAccess(v))
    ensures OfKinds(Controller(v) + TargetAccess(v),
      {Role, RoleBinding, Service, Deployment, ClusterRole, ClusterRoleBinding})
    ensures DistinctKeys(Controller(v)) && OfKinds(Controller(v), {Role, RoleBinding, Service, Deployment})
  {
    hide DeploymentOf;
    assert DeploymentOf(v).key == ObjectKey(Deployment, v.namespace, FULL_NAME) by { DeploymentKey(v); }
    assert |SEED_ROLE_NAME| != |ROLE_NAME|;
    assert |v.ChartNameSeed()| != |ROLE_NAME|;
  }

  lemma DeploymentKey(v: Values)
    ensures DeploymentOf(v).key == ObjectKey(Deployment, v.namespace, FULL_NAME)
  {
  }

  lemma CRDsDistinct(v: Values)
    ensures DistinctKeys(KeptAll(ShootCRDs(v))) && OfKinds(KeptAll(ShootCRDs(v)), {CustomResourceDefinition})
    ensures forall i :: 0 <= i < |KeptAll(ShootCRDs(v))| ==>
      KeptAll(ShootCRDs(v))[i].Definition? && KeptAll(ShootCRDs(v))[i].keepObject
  {
    assert |"certificates.cert.gardener.cloud"| == 32;
    assert |"certificaterevocations.cert.gardener.cloud"| == 42;
    assert |"issuers.cert.gardener.cloud"| == 27;
  }

  lemma OptionalDistinct(m: Option<Manifest>, kind: Kind)
    requires m.Some? ==> m.value.key.kind == kind
    ensures DistinctKeys(Optional(m)) && OfKinds(Optional(m), {kind})
  {
  }

  // ----- garden or seed

  /** No two objects of the list have the same kind, namespace and name. */
  lemma GardenOrSeedKeysDistinct(v: Values)
    requires !v.shootDeployment
    ensures DistinctKeys(GardenOrSeedObjects(v))
  {
    hide IssuerManifests, Controller, TargetAccess, KeptAll, ShootCRDs, Optional, CreateCACertificatesConfigMap,
      CreateNetworkPolicy,
      DistinctKeys, OfKinds, GardenOrSeedObjects;
    var sa := [CreateServiceAccount(v)];
    var cm, np := CreateCACertificatesConfigMap(v), CreateNetworkPolicy(v);
    OptionalKinds(v);
    OptionalDistinct(Some(CreateServiceAccount(v)), ServiceAccount);
    OptionalSome(CreateServiceAccount(v));
    OptionalDistinct(cm, ConfigMap);
    OptionalDistinct(np, NetworkPolicy);
    BlocksDistinct(v);
    CRDsDistinct(v);
    NoUserIssuers(v);
    var kinds := {ServiceAccount};
    DistinctByKind(sa, kinds, Optional(cm), {ConfigMap});
    var list := sa + Optional(cm);
    kinds := kinds + {ConfigMap};
    DistinctByKind(list, kinds, IssuerManifests(v), {Secret, Issuer});
    list, kinds := list + IssuerManifests(v), kinds + {Secret, Issuer};
    var blocks := Controller(v) + TargetAccess(v);
    var blockKinds := {Role, RoleBinding, Service, Deployment, ClusterRole, ClusterRoleBinding};
    DistinctByKind(list, kinds, blocks, blockKinds);
    list, kinds := list + blocks, kinds + blockKinds;
    DistinctByKind(list, kinds, Optional(np), {NetworkPolicy});
    list, kinds := list + Optional(np), kinds + {NetworkPolicy};
    DistinctByKind(list, kinds, KeptAll(ShootCRDs(v)), {CustomResourceDefinition});
    GardenOrSeedIs(v);
  }

  lemma GardenOrSeedIs(v: Values)
    requires !v.shootDeployment
    ensures GardenOrSeedObjects(v) ==
      [CreateServiceAccount(v)] + Optional(CreateCACertificatesConfigMap(v)) + IssuerManifests(v)
        + (Controller(v) + TargetAccess(v))
      + Optional(CreateNetworkPolicy(v)) + KeptAll(ShootCRDs(v))
  {
    hide IssuerManifests, Controller, TargetAccess, KeptAll, ShootCRDs, Optional, CreateServiceAccount,
      CreateCACertificatesConfigMap,
      CreateNetworkPolicy;
  }

  lemma OptionalKinds(v: Values)
    ensures var cm, np := CreateCACertificatesConfigMap(v), CreateNetworkPolicy(v);
      (cm.Some? ==> cm.value.key.kind == ConfigMap) && (np.Some? ==> np.value.key.kind == NetworkPolicy)
  {
  }

  lemma OptionalSome(m: Manifest)
    ensures Optional(Some(m)) == [m]
  {
  }

  /** Outside of shoots there is the default issuer only. */
  lemma NoUserIssuers(v: Values)
    requires !v.shootDeployment
    ensures Issuers.AllResolve(v, Issuers.Deployed(v))
    ensures DistinctKeys(IssuerManifests(v)) && OfKinds(IssuerManifests(v), {Secret, Issuer})
  {
    hide Issuers.CreateIssuer, Issuers.ObjectsOf, Issuers.GardenIssuer;
    assert Issuers.Collected(v) == [Issuers.GardenIssuer(v.extensionConfig)];
    IssuerObjectsDistinct(v, Issuers.Collected(v));
  }

  // ----- references of the issuers

  /** What an issuer refers to without anyone else providing it is deployed with it. */
  lemma IssuersResolved(v: Values, m: Manifest)
    requires Issuers.AllResolve(v, Issuers.Deployed(v)) && m in IssuerManifests(v)
    ensures Resolved(IssuerManifests(v), m)
  {
    hide Issuers.AllObjects, Issuers.Collected, Issuers.CreateACMESpec, References;
    var objects := Issuers.AllObjects(v, Issuers.Collected(v));
    var i :| 0 <= i < |objects| && m == Deployed(DeployedKey(objects[i]), objects[i]);
    SecretsReferToNothing(m);
    if objects[i].IssuerObject? {
      FromIssuer(v, Issuers.Collected(v), objects[i]);
      var k :| 0 <= k < |Issuers.Collected(v)| && objects[i] == Issuers.CreateIssuer(v, Issuers.Collected(v)[k]);
      KeyResolved(v, k);
      CAResolved(v, k);
      assert References(m) == KeyReference(objects[i].spec) + CAReference(objects[i].spec) by { RefersTo(m); }
      forall r | P.Emitted(objects, r)
        ensures HasKey(IssuerManifests(v), ObjectKey(Secret, r.namespace, r.name))
      {
        EmittedHasKey(objects, r);
      }
    }
  }

  lemma SecretsReferToNothing(m: Manifest)
    ensures m.Deployed? && m.item.Secret? ==> References(m) == []
  {
  }

  lemma RefersTo(m: Manifest)
    requires m.Deployed? && m.item.IssuerObject?
    ensures References(m) == KeyReference(m.item.spec) + CAReference(m.item.spec)
  {
  }

  lemma {:induction false} FromIssuer(v: Values, issuers: seq<Issuers.Issuer>, o: Issuers.Object)
    requires o in Issuers.AllObjects(v, issuers) && o.IssuerObject?
    ensures exists k :: 0 <= k < |issuers| && o == Issuers.CreateIssuer(v, issuers[k])
  {
    hide Issuers.CreateIssuer;
    var n := |issuers| - 1;
    if o in Issuers.ObjectsOf(v, issuers[n]) {
      assert o == Issuers.CreateIssuer(v, issuers[n]);
    } else {
      FromIssuer(v, issuers[..n], o);
      var k :| 0 <= k < n && o == Issuers.CreateIssuer(v, issuers[..n][k]);
      assert issuers[..n][k] == issuers[k];
    }
  }

  lemma EmittedHasKey(objects: seq<Issuers.Object>, r: Issuers.SecretReference)
    requires P.Emitted(objects, r)
    ensures HasKey(Wrap(objects), ObjectKey(Secret, r.namespace, r.name))
  {
    var i :| 0 <= i < |objects| && objects[i].Secret? && objects[i].name == r.name
      && objects[i].namespace == r.namespace;
    assert Wrap(objects)[i].key == ObjectKey(Secret, r.namespace, r.name);
  }

  lemma KeyResolved(v: Values, k: nat)
    requires Issuers.AllResolve(v, Issuers.Deployed(v)) && k < |Issuers.Collected(v)|
    ensures var o := Issuers.CreateIssuer(v, Issuers.Collected(v)[k]);
      o.spec.acme.Some? && !o.spec.acme.value.autoRegistration
      && !HasPrefix(o.spec.acme.value.privateKeySecretRef.name, Issuers.REFERENCED_RESOURCES_PREFIX) ==>
        P.Emitted(Issuers.AllObjects(v, Issuers.Collected(v)), o.spec.acme.value.privateKeySecretRef)
  {
    hide Issuers.AllObjects, Issuers.Collected, P.Emitted;
    if Issuers.Collected(v)[k].acme.Some? {
      P.PrivateKeyOrigin(v, k);
    }
  }

  lemma CAResolved(v: Values, k: nat)
    requires Issuers.AllResolve(v, Issuers.Deployed(v)) && k < |Issuers.Collected(v)|
    ensures var o := Issuers.CreateIssuer(v, Issuers.Collected(v)[k]);
      o.spec.caSecretRef.Some? ==> P.Emitted(Issuers.AllObjects(v, Issuers.Collected(v)), o.spec.caSecretRef.value)
  {
    hide Issuers.AllObjects, Issuers.Collected, Issuers.CreateACMESpec, P.Emitted, Issuers.ObjectsOf;
    var issuer := Issuers.Collected(v)[k];
    if issuer.ca.Some? {
      var ref := Issuers.SecretReference(Issuers.ISSUER_SECRET_PREFIX + issuer.name + Issuers.CA_SUFFIX, v.namespace);
      P.EmittedByOne(v, issuer, ref);
      P.EmittedBy(v, Issuers.Collected(v), ref);
    }
  }

  // ----- closure

  lemma ResolvedMore(a: seq<Manifest>, b: seq<Manifest>, m: Manifest)
    requires Resolved(a, m) && forall key :: HasKey(a, key) ==> HasKey(b, key)
    ensures Resolved(b, m)
  {
  }

  /** The keys that the controller's own manifests refer to. */
  predicate HasControllerKeys(v: Values, objects: seq<Manifest>) {
    && HasKey(objects, ObjectKey(ServiceAccount, v.namespace, v.ChartNameSeed()))
    && HasKey(objects, ObjectKey(Role, v.namespace, SEED_ROLE_NAME))
    && (v.CACertificates() != "" ==> HasKey(objects, ObjectKey(ConfigMap, v.namespace, CA_CONFIG_MAP)))
  }

  lemma ControllerResolved(v: Values, objects: seq<Manifest>, m: Manifest)
    requires HasControllerKeys(v, objects) && m in Controller(v)
    ensures Resolved(objects, m)
  {
    hide HasKey;
    assert FULL_NAME + "-ca-certificates" == CA_CONFIG_MAP;
    WorkloadReferences(v);
  }

  lemma WorkloadReferences(v: Values)
    ensures References(DeploymentOf(v)) ==
      [ObjectKey(ServiceAccount, v.namespace, v.ChartNameSeed())]
      + if v.CACertificates() == "" then [] else [ObjectKey(ConfigMap, v.namespace, CA_CONFIG_MAP)]
  {
    assert FULL_NAME + "-ca-certificates" == CA_CONFIG_MAP;
    var volumes := VolumesOf(v);
    assert ConfigMapsOf(v.namespace, []) == [];
    if v.shootDeployment {
      assert volumes[0].Projected?;
      assert volumes[1..] == if v.CACertificates() == "" then [] else [FromConfigMap("ca-certificates", CA_CONFIG_MAP)];
      assert ConfigMapsOf(v.namespace, volumes) == [] + ConfigMapsOf(v.namespace, volumes[1..]);
    }
    if v.CACertificates() != "" {
      var one := [FromConfigMap("ca-certificates", CA_CONFIG_MAP)];
      assert one[1..] == [];
      assert v.shootDeployment || volumes == one;
      assert ConfigMapsOf(v.namespace, one) ==
        [ObjectKey(ConfigMap, v.namespace, CA_CONFIG_MAP)] + ConfigMapsOf(v.namespace, one[1..]);
    }
  }

  lemma PlainResolved(objects: seq<Manifest>, m: Manifest)
    requires m.Plain? || m.DataMap? || m.Definition?
    ensures Resolved(objects, m)
  {
  }

  lemma FirstKey(m: Manifest, objects: seq<Manifest>)
    requires m in objects
    ensures HasKey(objects, m.key)
  {
    var i :| 0 <= i < |objects| && objects[i] == m;
  }

  /** Every block of a list is part of it. */
  lemma GardenOrSeedParts(v: Values)
    requires !v.shootDeployment
    ensures forall m :: m in GardenOrSeedObjects(v) <==>
      m == CreateServiceAccount(v) || m in Optional(CreateCACertificatesConfigMap(v)) || m in IssuerManifests(v)
        || m in Controller(v)
      || m in TargetAccess(v) || m in Optional(CreateNetworkPolicy(v)) || m in KeptAll(ShootCRDs(v))
  {
    hide CreateServiceAccount, Optional, IssuerManifests, Controller, TargetAccess, KeptAll;
  }

  /** The manifests other than those for access to the target, and those of the default issuer, are always resolved. */
  lemma GardenOrSeedResolved(v: Values, m: Manifest)
    requires !v.shootDeployment && m in GardenOrSeedObjects(v) && m !in TargetAccess(v)
    ensures Resolved(GardenOrSeedObjects(v), m)
  {
    hide GardenOrSeedObjects, IssuerManifests, Controller, TargetAccess, KeptAll, ShootCRDs, Resolved,
      Issuers.AllResolve;
    NoUserIssuers(v);
    var list := GardenOrSeedObjects(v);
    GardenOrSeedParts(v);
    ControllerKeys(v, list);
    if m in IssuerManifests(v) {
      IssuersResolved(v, m);
      forall key | HasKey(IssuerManifests(v), key)
        ensures HasKey(list, key)
      {
        var i :| 0 <= i < |IssuerManifests(v)| && IssuerManifests(v)[i].key == key;
        FirstKey(IssuerManifests(v)[i], list);
      }
      ResolvedMore(IssuerManifests(v), list, m);
    } else if m in Controller(v) {
      ControllerResolved(v, list, m);
    } else {
      if m in KeptAll(ShootCRDs(v)) {
        CRDsDistinct(v);
      }
      PlainResolved(list, m);
    }
  }

  lemma ControllerKeys(v: Values, objects: seq<Manifest>)
    requires CreateServiceAccount(v) in objects && (forall m :: m in Controller(v) ==> m in objects)
    requires forall m :: m in Optional(CreateCACertificatesConfigMap(v)) ==> m in objects
    ensures HasControllerKeys(v, objects)
  {
    hide HasKey;
    FirstKey(CreateServiceAccount(v), objects);
    assert CreateRole(v) == Controller(v)[0];
    FirstKey(CreateRole(v), objects);
    if v.CACertificates() != "" {
      var cm := CreateCACertificatesConfigMap(v).value;
      assert cm == Optional(Some(cm))[0];
      FirstKey(cm, objects);
    }
  }

  /** The subject of the bindings for access to the target is the service account of the list exactly for the classes
      "garden" and "seed". */
  lemma SubjectIsServiceAccount(v: Values)
    requires !v.shootDeployment
    ensures ShootSubject(v) == CreateServiceAccount(v).key <==> v.certClass == CLASS_GARDEN || v.certClass == CLASS_SEED
  {
    var n := |"cert-management-"|;
    assert CHART_GARDEN == "cert-management-" + CLASS_GARDEN && CHART_SEED == "cert-management-" + CLASS_SEED;
    assert v.InstanceNameGardenOrSeed()[n..] == v.certClass;
    assert CHART_GARDEN[n..] == CLASS_GARDEN && CHART_SEED[n..] == CLASS_SEED;
  }

  /** Only one service account is in the list. */
  lemma OneServiceAccount(v: Values, key: ObjectKey)
    requires !v.shootDeployment && key.kind == ServiceAccount
    ensures HasKey(GardenOrSeedObjects(v), key) <==> key == CreateServiceAccount(v).key
  {
    hide GardenOrSeedObjects, IssuerManifests, Controller, TargetAccess, KeptAll, ShootCRDs, CreateServiceAccount,
      Optional,
      CreateCACertificatesConfigMap, CreateNetworkPolicy, Issuers.AllResolve;
    GardenOrSeedParts(v);
    NoUserIssuers(v);
    BlocksDistinct(v);
    CRDsDistinct(v);
    OptionalKinds(v);
    OptionalDistinct(CreateCACertificatesConfigMap(v), ConfigMap);
    OptionalDistinct(CreateNetworkPolicy(v), NetworkPolicy);
    FirstKey(CreateServiceAccount(v), GardenOrSeedObjects(v));
    InBlocks(v);
    if HasKey(GardenOrSeedObjects(v), key) {
      var i :| 0 <= i < |GardenOrSeedObjects(v)| && GardenOrSeedObjects(v)[i].key == key;
      var m := GardenOrSeedObjects(v)[i];
      assert m in GardenOrSeedObjects(v);
    }
  }

  lemma InBlocks(v: Values)
    ensures forall m :: m in Controller(v) || m in TargetAccess(v) ==> m in Controller(v) + TargetAccess(v)
  {
    hide Controller, TargetAccess;
  }

  /** The list is closed under references exactly for the classes "garden" and "seed". */
  lemma GardenOrSeedClosed(v: Values)
    requires !v.shootDeployment
    ensures Closed(GardenOrSeedObjects(v)) <==> v.certClass == CLASS_GARDEN || v.certClass == CLASS_SEED
  {
    hide GardenOrSeedObjects, Controller, Resolved, HasKey;
    var list := GardenOrSeedObjects(v);
    forall m | m in list && m !in TargetAccess(v)
      ensures Resolved(list, m)
    {
      GardenOrSeedResolved(v, m);
    }
    AccessResolved(v);
    forall i | 0 <= i < |list|
      ensures Resolved(list, list[i]) <==> list[i] !in TargetAccess(v) || Resolved(list, list[i])
    {
      assert list[i] in list;
    }
    GardenOrSeedContains(v);
  }

  lemma GardenOrSeedContains(v: Values)
    requires !v.shootDeployment
    ensures forall m :: m in TargetAccess(v) ==>
      exists i :: 0 <= i < |GardenOrSeedObjects(v)| && GardenOrSeedObjects(v)[i] == m
  {
    hide GardenOrSeedObjects, TargetAccess;
    GardenOrSeedParts(v);
  }

  lemma AccessResolved(v: Values)
    requires !v.shootDeployment
    ensures (forall m :: m in TargetAccess(v) ==> Resolved(GardenOrSeedObjects(v), m)) <==>
      v.certClass == CLASS_GARDEN || v.certClass == CLASS_SEED
  {
    hide GardenOrSeedObjects, HasKey, Resolved, IssuerManifests, Controller, Optional, KeptAll, ShootSubject,
      CreateServiceAccount;
    var list := GardenOrSeedObjects(v);
    SubjectIsServiceAccount(v);
    SubjectKind(v);
    OneServiceAccount(v, ShootSubject(v));
    GardenOrSeedParts(v);
    assert CreateShootRole(v) == TargetAccess(v)[0] && CreateShootClusterRole(v) == TargetAccess(v)[2];
    FirstKey(CreateShootRole(v), list);
    FirstKey(CreateShootClusterRole(v), list);
    PlainResolved(list, CreateShootRole(v));
    PlainResolved(list, CreateShootClusterRole(v));
    BindingResolved(list, CreateShootRoleBinding(v));
    BindingResolved(list, CreateShootClusterRoleBinding(v));
    assert CreateShootRoleBinding(v) == TargetAccess(v)[1] && CreateShootRoleBinding(v) in TargetAccess(v);
  }

  lemma BindingResolved(objects: seq<Manifest>, m: Manifest)
    requires m.Binding?
    ensures Resolved(objects, m) <==> HasKey(objects, m.roleRef) && HasKey(objects, m.subject)
  {
    hide HasKey;
    assert References(m) == [m.roleRef, m.subject];
    assert References(m)[0] == m.roleRef && References(m)[1] == m.subject;
  }

  lemma SubjectKind(v: Values)
    ensures ShootSubject(v).kind == ServiceAccount
  {
  }

  /** All CRDs of the list carry the annotation that keeps them. */
  lemma GardenOrSeedKeepsCRDs(v: Values)
    requires !v.shootDeployment
    ensures forall m :: m in GardenOrSeedObjects(v) && m.Definition? ==> m.keepObject
    ensures |ShootCRDs(v)| == 3
    ensures forall m :: m in KeptAll(ShootCRDs(v)) ==> m in GardenOrSeedObjects(v) && m.Definition?
  {
    hide GardenOrSeedObjects, IssuerManifests, Controller, TargetAccess, KeptAll, Optional;
    GardenOrSeedParts(v);
    CRDsDistinct(v);
    NoDefinitions(v);
  }

  lemma NoDefinitions(v: Values)
    requires !v.shootDeployment
    ensures forall m :: (m in IssuerManifests(v) || m in Optional(CreateCACertificatesConfigMap(v))
        || m in Optional(CreateNetworkPolicy(v)) || m in Controller(v) || m in TargetAccess(v)) ==> !m.Definition?
  {
    hide Issuers.AllObjects, Issuers.Collected, Values.CACertificates, VolumesOf, MountsOf, EnvOf;
  }

  // ----- the control plane of a shoot

  lemma MonitoringDistinct(v: Values)
    ensures DistinctKeys(Monitoring(v))
      && OfKinds(Monitoring(v), {VerticalPodAutoscaler, ConfigMap, PrometheusRule, ServiceMonitor})
    ensures forall m :: m in Monitoring(v) ==> (m.Plain? || m.DataMap?) && m.key.name != CA_CONFIG_MAP
  {
    assert |"cert-controller-manager-dashboards"| == 34 && |CA_CONFIG_MAP| == 39;
    assert |FULL_NAME + "-vpa"| == 27 && |"shoot-cert-controller-manager"| == 29;
  }

  /** No two objects have the same key, for any number of differently named issuers. */
  lemma ControlPlaneKeysDistinct(v: Values)
    requires v.shootDeployment && Issuers.AllResolve(v, Issuers.Deployed(v))
      && V.DistinctNames(Elems(v.certConfig.issuers))
    ensures DistinctKeys(ControlPlaneObjects(v))
  {
    hide IssuerManifests, Controller, Monitoring, Optional, CreateCACertificatesConfigMap, DistinctKeys, OfKinds,
      Issuers.AllResolve, CreateServiceAccount;
    var pdb := Plain(ObjectKey(PodDisruptionBudget, v.namespace, "cert-controller-manager"));
    var cm := CreateCACertificatesConfigMap(v);
    PairDistinct(v, pdb);
    CAConfigMapKey(v);
    OptionalDistinct(cm, ConfigMap);
    IssuerManifestsDistinct(v);
    BlocksDistinct(v);
    MonitoringDistinct(v);
    ConfigMapsDistinct(v);
    var front := [pdb, CreateServiceAccount(v)];
    var kinds := {PodDisruptionBudget, ServiceAccount};
    var back := Optional(cm) + Monitoring(v);
    var backKinds := {ConfigMap, VerticalPodAutoscaler, PrometheusRule, ServiceMonitor};
    DistinctByKind(front, kinds, IssuerManifests(v), {Secret, Issuer});
    var list := front + IssuerManifests(v);
    kinds := kinds + {Secret, Issuer};
    DistinctByKind(list, kinds, Controller(v), {Role, RoleBinding, Service, Deployment});
    list, kinds := list + Controller(v), kinds + {Role, RoleBinding, Service, Deployment};
    DistinctByKind(list, kinds, back, backKinds);
    assert front + (IssuerManifests(v) + Controller(v)) + (Optional(cm) + Monitoring(v)) == list + back;
    Reordered(front, Optional(cm), IssuerManifests(v) + Controller(v), Monitoring(v));
    assert ControlPlaneObjects(v) == front + Optional(cm) + (IssuerManifests(v) + Controller(v)) + Monitoring(v);
  }

  lemma PairDistinct(v: Values, pdb: Manifest)
    requires pdb.key.kind == PodDisruptionBudget
    ensures DistinctKeys([pdb, CreateServiceAccount(v)])
      && OfKinds([pdb, CreateServiceAccount(v)], {PodDisruptionBudget, ServiceAccount})
  {
  }

  lemma CAConfigMapKey(v: Values)
    ensures var cm := CreateCACertificatesConfigMap(v);
      cm.Some? ==> cm.value.key == ObjectKey(ConfigMap, v.namespace, CA_CONFIG_MAP)
  {
  }

  lemma ConfigMapsDistinct(v: Values)
    ensures var back := Optional(CreateCACertificatesConfigMap(v)) + Monitoring(v);
      DistinctKeys(back) && OfKinds(back, {ConfigMap, VerticalPodAutoscaler, PrometheusRule, ServiceMonitor})
  {
    hide Monitoring, Optional, CreateCACertificatesConfigMap, Values.CertExpirationAlertDays;
    var cm := Optional(CreateCACertificatesConfigMap(v));
    CAConfigMapKey(v);
    OptionalDistinct(CreateCACertificatesConfigMap(v), ConfigMap);
    MonitoringDistinct(v);
    forall i | 0 <= i < |Monitoring(v)|
      ensures !HasKey(cm, Monitoring(v)[i].key)
    {
      assert Monitoring(v)[i] in Monitoring(v);
      OptionalKey(CreateCACertificatesConfigMap(v), Monitoring(v)[i].key);
    }
    DistinctAppend(cm, Monitoring(v));
  }

  lemma OptionalKey(m: Option<Manifest>, key: ObjectKey)
    ensures HasKey(Optional(m), key) <==> m.Some? && m.value.key == key
  {
    if m.Some? {
      assert Optional(m)[0] == m.value;
    }
  }

  /** Distinctness does not depend on the order of blocks. */
  lemma Reordered(a: seq<Manifest>, b: seq<Manifest>, c: seq<Manifest>, d: seq<Manifest>)
    requires DistinctKeys(a + c + (b + d))
    ensures DistinctKeys(a + b + c + d)
  {
    var from, to := a + c + (b + d), a + b + c + d;
    var na, nb, nc := |a|, |b|, |c|;
    forall i, j | 0 <= i < j < |to|
      ensures to[i].key != to[j].key
    {
      var i' := if i < na || i >= na + nb + nc then i else if i < na + nb then i + nc else i - nb;
      var j' := if j < na || j >= na + nb + nc then j else if j < na + nb then j + nc else j - nb;
      assert from[i'] == to[i] && from[j'] == to[j] && i' != j';
    }
  }

  /** Every reference resolves in the list, for any number of issuers whose references lead to Secrets. */
  lemma ControlPlaneClosed(v: Values)
    requires v.shootDeployment && Issuers.AllResolve(v, Issuers.Deployed(v))
    ensures Closed(ControlPlaneObjects(v))
  {
    hide ControlPlaneObjects, IssuerManifests, Controller, Monitoring, Resolved, HasKey, Issuers.AllResolve;
    var list := ControlPlaneObjects(v);
    ControlPlaneParts(v);
    ControllerKeys(v, list);
    MonitoringDistinct(v);
    forall m | m in list
      ensures Resolved(list, m)
    {
      if m in IssuerManifests(v) {
        IssuersResolved(v, m);
        forall key | HasKey(IssuerManifests(v), key)
          ensures HasKey(list, key)
        {
          KeyOf(IssuerManifests(v), list, key);
        }
        ResolvedMore(IssuerManifests(v), list, m);
      } else if m in Controller(v) {
        ControllerResolved(v, list, m);
      } else {
        PlainResolved(list, m);
      }
    }
  }

  lemma KeyOf(a: seq<Manifest>, b: seq<Manifest>, key: ObjectKey)
    requires HasKey(a, key) && forall m :: m in a ==> m in b
    ensures HasKey(b, key)
  {
    var i :| 0 <= i < |a| && a[i].key == key;
    FirstKey(a[i], b);
  }

  lemma ControlPlaneParts(v: Values)
    requires Issuers.AllResolve(v, Issuers.Deployed(v))
    ensures forall m :: m in ControlPlaneObjects(v) <==>
      m == Plain(ObjectKey(PodDisruptionBudget, v.namespace, "cert-controller-manager")) || m == CreateServiceAccount(v)
      || m in Optional(CreateCACertificatesConfigMap(v)) || m in IssuerManifests(v) || m in Controller(v)
        || m in Monitoring(v)
  {
    hide CreateServiceAccount, Optional, IssuerManifests, Controller, Monitoring, Issuers.AllResolve;
  }

  // ----- mounts

  /** The deployment mounts what it uses: every mount has a volume, and the file with the CA certificates that the
      environment names is an entry of the mounted config map in the same list. */
  lemma DeploymentMounted(v: Values, objects: seq<Manifest>)
    requires forall m :: m in Optional(CreateCACertificatesConfigMap(v)) ==> m in objects
    ensures Mounted(objects, DeploymentOf(v))
  {
    var m := DeploymentOf(v);
    forall i | 0 <= i < |m.mounts|
      ensures exists j :: 0 <= j < |m.volumes| && m.volumes[j].name == m.mounts[i].volume
    {
      assert m.volumes[i].name == m.mounts[i].volume;
    }
    assert |"LEGO_CA_SYSTEM_CERT_POOL"| != |"LEGO_CA_CERTIFICATES"|;
    if v.CACertificates() != "" {
      CertificatesMounted(v, objects);
    }
  }

  /** Volumes and mounts belong to each other one to one: no name and no path is used twice. */
  lemma MountsMatchVolumes(v: Values)
    ensures var m := DeploymentOf(v);
      && |m.mounts| == |m.volumes|
      && (forall i :: 0 <= i < |m.mounts| ==> m.mounts[i].volume == m.volumes[i].name)
      && (forall i, j :: 0 <= i < j < |m.mounts| ==>
            m.volumes[i].name != m.volumes[j].name && m.mounts[i].path != m.mounts[j].path)
  {
    hide Values.CACertificates, EnvOf;
    assert |"kubeconfig"| != |"ca-certificates"|;
    assert |"/var/run/secrets/gardener.cloud/shoot/generic-kubeconfig"| != |CERTS_PATH|;
  }

  predicate KubeconfigAt(m: Manifest, v: Values, path: string)
    requires m.Workload?
  {
    exists i :: 0 <= i < |m.mounts| && i < |m.volumes| && path == m.mounts[i].path + "/kubeconfig"
      && m.mounts[i].volume == m.volumes[i].name
      && m.volumes[i] == Projected(m.volumes[i].name, [v.genericTokenKubeconfigSecretName, SHOOT_ACCESS_SECRET])
  }

  /** The kubeconfig files that the command line names are in a mounted volume, which has the kubeconfig and the
      token. */
  lemma KubeconfigMounted(v: Values)
    ensures var settings := ControllerArgs.Wanted(v);
      && (settings.source.Some? <==> v.shootDeployment)
      && (settings.source.Some? ==> KubeconfigAt(DeploymentOf(v), v, settings.source.value))
      && (settings.dns.Some? ==> KubeconfigAt(DeploymentOf(v), v, settings.dns.value))
  {
    hide Values.CACertificates, EnvOf, ControllerArgs.Quota, ControllerArgs.PrivateKeys, ControllerArgs.OptionText;
    if v.shootDeployment {
      var m := DeploymentOf(v);
      assert ControllerArgs.KUBECONFIG == m.mounts[0].path + "/kubeconfig";
    }
  }

  lemma CertificatesMounted(v: Values, objects: seq<Manifest>)
    requires forall m :: m in Optional(CreateCACertificatesConfigMap(v)) ==> m in objects
    requires v.CACertificates() != ""
    ensures FileMounted(objects, DeploymentOf(v), "/var/run/cert-manager/certs/certs.pem")
  {
    hide Values.CACertificates, EnvOf;
    var m := DeploymentOf(v);
    var cm := CreateCACertificatesConfigMap(v).value;
    assert Optional(CreateCACertificatesConfigMap(v))[0] == cm;
    assert cm in objects;
    var c :| 0 <= c < |objects| && objects[c] == cm;
    var i := |m.mounts| - 1;
    assert m.mounts[i] == Mount("ca-certificates", CERTS_PATH);
    assert FULL_NAME + "-ca-certificates" == CA_CONFIG_MAP;
    assert m.volumes[i] == FromConfigMap("ca-certificates", CA_CONFIG_MAP);
    assert CERTS_PATH + "/" + CERTS_KEY == "/var/run/cert-manager/certs/certs.pem";
    assert CERTS_KEY in objects[c].data;
  }
}
