/** The wildcard certificate of a seed's control plane (controlPlaneCert). */
module ControlPlaneCert {
  import opened GoStrings

  datatype AnnotationKey = ClassKey | DNSRecordProviderTypeKey | DNSRecordSecretRefKey | OtherAnnotation(string)

  datatype LabelKey = GardenRoleKey | ManagedByKey | OtherLabel(string)

  const SECRET_NAME := "ingress-wildcard-cert"
  const GARDEN_NAMESPACE := "garden"
  const DNS_PROVIDER_SECRET := "garden/ingress-wildcard-cert-dns-provider"
  const MAX_COMMON_NAME: nat := 64

  datatype Certificate = Certificate(
    annotations: map<AnnotationKey, string>,
    labels: map<LabelKey, string>,
    commonName: Option<string>,
    dnsNames: seq<string>,
    secretLabels: map<LabelKey, string>,
    secretRef: (string, string))

  const LABELS: map<LabelKey, string> :=
    map[GardenRoleKey := "controlplane-cert", ManagedByKey := "gardener-extension-shoot-cert-service"]

  /** What is put into the handler before it reconciles. */
  datatype Inputs = Inputs(domain: string, dnsProviderType: string, credentials: Option<string>)

  datatype State = State(cert: Option<Certificate>, dnsSecret: Option<string>)

  datatype Fate = Done | Refused | Lost

  predicate Wildcard(c: Certificate, domain: string) {
    var name := "*." + domain;
    if |name| <= 64 then c.commonName == Some(name) && c.dnsNames == []
      else c.commonName == None && c.dnsNames == [name]
  }

  /** The certificate is that of the inputs and of nothing else. */
  predicate For(c: Certificate, i: Inputs) {
    && Wildcard(c, i.domain)
    && c.annotations == map[ClassKey := "seed", DNSRecordProviderTypeKey := i.dnsProviderType,
                            DNSRecordSecretRefKey := "garden/ingress-wildcard-cert-dns-provider"]
    && c.labels == c.secretLabels == map[GardenRoleKey := "controlplane-cert",
                                         ManagedByKey := "gardener-extension-shoot-cert-service"]
    && c.secretRef == ("ingress-wildcard-cert", "garden")
  }

  class Handler {
    var state: State

    constructor ()
      ensures state == State(None, None)
    {
      state := State(None, None);
    }

    /** controlPlaneCert.reconcile */
    method Reconcile(i: Inputs, secretFate: Fate, certFate: Fate) returns (err: bool)
      modifies this
      ensures (state, err) == ReconcileStep(old(state), i, secretFate, certFate)
      ensures !err ==> state.cert.Some? && For(state.cert.value, i)
      ensures !err ==> state.dnsSecret == if i.credentials.Some? then i.credentials else old(state.dnsSecret)
      ensures !err <==> (i.credentials.Some? ==> secretFate.Done?) && certFate.Done?
    {
      if i.credentials.Some? {
        if !secretFate.Refused? {
          state := state.(dnsSecret := i.credentials);
        }
        if !secretFate.Done? {
          return true;
        }
      }
      var cert := state.cert.GetOr(Certificate(map[], map[], None, [], map[], ("", "")));
      var annotations := map[ClassKey := "seed"];
      annotations := annotations[DNSRecordProviderTypeKey := i.dnsProviderType];
      annotations := annotations[DNSRecordSecretRefKey := DNS_PROVIDER_SECRET];
      cert := cert.(annotations := annotations, labels := LABELS);
      var dnsName := "*." + i.domain;
      if |dnsName| <= 64 {
        cert := cert.(commonName := Some(dnsName), dnsNames := []);
      } else {
        cert := cert.(commonName := None, dnsNames := [dnsName]);
      }
      cert := cert.(secretLabels := LABELS, secretRef := (SECRET_NAME, GARDEN_NAMESPACE));
      if !certFate.Refused? {
        state := state.(cert := Some(cert));
      }
      return !certFate.Done?;
    }

    /** controlPlaneCert.delete: the certificate first, then the secret; what is not found counts as deleted. */
    method Delete(certFate: Fate, secretFate: Fate) returns (err: bool)
      modifies this
      ensures (state, err) == DeleteStep(old(state), certFate, secretFate)
      ensures !err ==> state.cert == None && state.dnsSecret == None
      ensures !err <==> certFate.Done? && secretFate.Done?
      ensures !certFate.Done? ==> state.dnsSecret == old(state.dnsSecret)
    {
      if !certFate.Refused? {
        state := state.(cert := None);
      }
      if !certFate.Done? {
        return true;
      }
      if !secretFate.Refused? {
        state := state.(dnsSecret := None);
      }
      return !secretFate.Done?;
    }
  }

  // ----- runs

  function Wanted(i: Inputs): (c: Certificate)
    ensures For(c, i)
  {
    var name := "*." + i.domain;
    Certificate(
      map[ClassKey := "seed", DNSRecordProviderTypeKey := i.dnsProviderType,
        DNSRecordSecretRefKey := DNS_PROVIDER_SECRET],
      LABELS,
      if |name| <= 64 then Some(name) else None,
      if |name| <= 64 then [] else [name],
      LABELS,
      (SECRET_NAME, GARDEN_NAMESPACE))
  }

  function ReconcileStep(s: State, i: Inputs, secretFate: Fate, certFate: Fate): (State, bool) {
    var s1 := if i.credentials.Some? && !secretFate.Refused? then s.(dnsSecret := i.credentials) else s;
    if i.credentials.Some? && !secretFate.Done? then (s1, true)
    else (if certFate.Refused? then s1 else s1.(cert := Some(Wanted(i))), !certFate.Done?)
  }

  function DeleteStep(s: State, certFate: Fate, secretFate: Fate): (State, bool) {
    var s1 := if certFate.Refused? then s else s.(cert := None);
    if !certFate.Done? then (s1, true)
    else (if secretFate.Refused? then s1 else s1.(dnsSecret := None), !secretFate.Done?)
  }

  datatype Op = Reconcile(inputs: Inputs, secretFate: Fate, certFate: Fate) | Delete(certFate: Fate, secretFate: Fate)

  function Apply(s: State, op: Op): (State, bool) {
    match op
    case Reconcile(i, f, g) => ReconcileStep(s, i, f, g)
    case Delete(f, g) => DeleteStep(s, f, g)
  }

  function Run(s: State, ops: seq<Op>): State {
    if ops == [] then s else Apply(Run(s, ops[..|ops| - 1]), ops[|ops| - 1]).0
  }

  /** Over every run with any failures the certificate is absent, or untouched, or exactly that of one reconcile of the
      run: never a mixture of two. A successful reconcile makes it its own, whatever came before. */
  lemma {:induction false} NeverAMixture(s: State, ops: seq<Op>)
    ensures var t := Run(s, ops);
      t.cert.None? || t.cert == s.cert
        || exists k :: 0 <= k < |ops| && ops[k].Reconcile? && t.cert == Some(Wanted(ops[k].inputs))
    ensures ops != [] && ops[|ops| - 1].Reconcile? && !Apply(Run(s, ops[..|ops| - 1]), ops[|ops| - 1]).1 ==>
      Run(s, ops).cert == Some(Wanted(ops[|ops| - 1].inputs))
  {
    hide Wanted;
    if ops != [] {
      var n := |ops| - 1;
      NeverAMixture(s, ops[..n]);
      if k :| 0 <= k < n && ops[..n][k].Reconcile? && Run(s, ops[..n]).cert == Some(Wanted(ops[..n][k].inputs)) {
        assert ops[k] == ops[..n][k];
      }
    }
  }

  /** The secret is absent, or untouched, or has the credentials of one reconcile of the run. A successful reconcile
      leaves those that it was given, and a successful deletion leaves neither secret nor certificate. */
  lemma {:induction false} SecretOfOneReconcile(s: State, ops: seq<Op>)
    ensures var t := Run(s, ops);
      t.dnsSecret.None? || t.dnsSecret == s.dnsSecret
        || exists k :: 0 <= k < |ops| && ops[k].Reconcile? && t.dnsSecret == ops[k].inputs.credentials
    ensures ops != [] && !Apply(Run(s, ops[..|ops| - 1]), ops[|ops| - 1]).1 ==>
      var last := ops[|ops| - 1];
      match last {
        case Reconcile(i, _, _) => i.credentials.Some? ==> Run(s, ops).dnsSecret == i.credentials
        case Delete(_, _) => Run(s, ops) == State(None, None)
      }
  {
    hide Wanted;
    if ops != [] {
      var n := |ops| - 1;
      SecretOfOneReconcile(s, ops[..n]);
      if k :| 0 <= k < n && ops[..n][k].Reconcile? && Run(s, ops[..n]).dnsSecret == ops[..n][k].inputs.credentials {
        assert ops[k] == ops[..n][k];
      }
    }
  }

  /** Exactly one of common name and DNS names is set; the common name is used exactly for names that fit into it. */
  lemma OneOfCommonNameAndDNSNames(i: Inputs)
    ensures var c := Wanted(i);
      && (c.commonName.Some? <==> c.dnsNames == [])
      && (c.commonName.Some? <==> |i.domain| <= 62)
      && (c.commonName.Some? ==> |c.commonName.value| <= MAX_COMMON_NAME)
  {
  }
}
