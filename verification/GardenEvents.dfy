/** The map function from Garden events to reconcile requests. */
module GardenEvents {
  import opened GoStrings
  import opened GardenHash
  import opened GardenProtocol

  const TYPE := "controlplane-cert-service"
  const CLASS_SHOOT := "shoot"

  /** What DecodeAndValidateProviderConfig makes of an Extension's config. */
  datatype Config = Invalid | Valid(generateControlPlaneCertificate: Option<bool>)

  datatype ExtensionItem = ExtensionItem(name: string, extensionType: string, class_: Option<string>, config: Config,
    annotation: Option<Digest>)

  predicate Responsible(ex: ExtensionItem) {
    ex.extensionType == TYPE && ex.class_.GetOr(CLASS_SHOOT) == CLASS_GARDEN
  }

  /** The Extension wants a certificate and its annotation is not the hash of the Garden. */
  predicate Outdated(ex: ExtensionItem, hash: Digest) {
    Responsible(ex) && ex.config.Valid? && ex.config.generateControlPlaneCertificate.GetOr(false)
      && ex.annotation != Some(hash)
  }

  /** The Extension is one for the garden, has a valid config that asks for the certificate, and the hash is not in its
      annotation. */
  predicate Asks(ex: ExtensionItem, hash: Digest) {
    ex.extensionType == "controlplane-cert-service" && ex.class_ == Some("garden") && ex.config == Valid(Some(true))
    && ex.annotation != Some(hash)
  }

  /** The names of the items that ask, in the order of the items. */
  ghost predicate Asking(items: seq<ExtensionItem>, hash: Digest, names: seq<string>) {
    exists at :: AskingAt(items, hash, names, at)
  }

  predicate AskingAt(items: seq<ExtensionItem>, hash: Digest, names: seq<string>, at: seq<nat>) {
    && |at| == |names|
    && (forall j :: 0 <= j < |at| ==> at[j] < |items| && Asks(items[at[j]], hash) && names[j] == items[at[j]].name)
    && (forall i, j :: 0 <= i < j < |at| ==> at[i] < at[j])
    && (forall i :: 0 <= i < |items| && Asks(items[i], hash) ==> i in at)
  }

  predicate AllDecodable(items: seq<ExtensionItem>) {
    forall i :: 0 <= i < |items| && Responsible(items[i]) ==> items[i].config.Valid?
  }

  function OutdatedNames(items: seq<ExtensionItem>, hash: Digest): seq<string> {
    if items == [] then []
    else
      var n := |items| - 1;
      OutdatedNames(items[..n], hash) + if Outdated(items[n], hash) then [items[n].name] else []
  }

  lemma AsksIsOutdated(ex: ExtensionItem, hash: Digest)
    ensures Outdated(ex, hash) <==> Asks(ex, hash)
  {
  }

  lemma {:induction false} OutdatedNamesAsk(items: seq<ExtensionItem>, hash: Digest) returns (at: seq<nat>)
    ensures AskingAt(items, hash, OutdatedNames(items, hash), at)
  {
    hide Outdated, Asks, AskingAt;
    if items == [] {
      at := [];
      NobodyAsks(hash);
    } else {
      var n := |items| - 1;
      var before := OutdatedNamesAsk(items[..n], hash);
      AsksIsOutdated(items[n], hash);
      at := if Outdated(items[n], hash) then before + [n] else before;
      OneMoreAsks(items, hash, OutdatedNames(items[..n], hash), before);
    }
  }

  lemma NobodyAsks(hash: Digest)
    ensures AskingAt([], hash, [], [])
  {
  }

  lemma OneMoreAsks(items: seq<ExtensionItem>, hash: Digest, names: seq<string>, at: seq<nat>)
    requires items != [] && AskingAt(items[..|items| - 1], hash, names, at)
    ensures var n := |items| - 1;
      if Asks(items[n], hash) then AskingAt(items, hash, names + [items[n].name], at + [n])
      else AskingAt(items, hash, names + [], at)
  {
    hide Asks;
    var n := |items| - 1;
    assert forall i :: 0 <= i < n ==> items[..n][i] == items[i];
    assert names + [] == names;
    assert forall i :: i in at ==> i in at + [n];
    assert (at + [n])[|at|] == n;
  }

  lemma {:induction false} OutdatedNamesExactly(items: seq<ExtensionItem>, hash: Digest)
    ensures forall name :: name in OutdatedNames(items, hash) <==>
      exists i :: 0 <= i < |items| && items[i].name == name && Asks(items[i], hash)
  {
    hide Outdated, Asks;
    if items != [] {
      var n := |items| - 1;
      OutdatedNamesExactly(items[..n], hash);
      AsksIsOutdated(items[n], hash);
      assert forall i :: 0 <= i < n ==> items[..n][i] == items[i];
    }
  }

  /** The list was read, and every config in it that counts is valid. */
  predicate Readable(listed: bool, items: seq<ExtensionItem>) {
    listed && forall i :: 0 <= i < |items| ==>
      !(items[i].extensionType == "controlplane-cert-service" && items[i].class_ == Some("garden")
        && items[i].config.Invalid?)
  }

  lemma HashIs(garden: Garden)
    ensures HashOf(garden) == Digest(Join(garden.virtualDomains + garden.ingressDomains + [""], '\0'))
  {
    PreimageIsJoin(garden.virtualDomains + garden.ingressDomains);
  }

  lemma RequestsAsAsked(listed: bool, items: seq<ExtensionItem>, garden: Garden)
    ensures Readable(listed, items) <==> listed && AllDecodable(items)
    ensures Asking(items, Digest(Join(garden.virtualDomains + garden.ingressDomains + [""], '\0')),
                   OutdatedNames(items, HashOf(garden)))
  {
    hide AskingAt, Preimage, OutdatedNames;
    HashIs(garden);
    var at := OutdatedNamesAsk(items, HashOf(garden));
  }

  /** mapGardenToExtension: the outdated Extensions, in order; none at all if the list cannot be read or one config that
      counts cannot be decoded. */
  method MapGardenToExtension(listed: bool, items: seq<ExtensionItem>, garden: Garden) returns (requests: seq<string>)
    ensures requests == if listed && AllDecodable(items) then OutdatedNames(items, HashOf(garden)) else []
    ensures Readable(listed, items) ==>
      Asking(items, Digest(Join(garden.virtualDomains + garden.ingressDomains + [""], '\0')), requests)
    ensures !Readable(listed, items) ==> requests == []
  {
    hide HashOf, Asking, Readable;
    RequestsAsAsked(listed, items, garden);
    if !listed {
      return [];
    }
    requests := [];
    for i := 0 to |items|
      invariant requests == OutdatedNames(items[..i], HashOf(garden))
      invariant AllDecodable(items[..i])
    {
      var ex := items[i];
      assert items[..i + 1][..i] == items[..i];
      if ex.extensionType == TYPE && ex.class_.GetOr(CLASS_SHOOT) == CLASS_GARDEN {
        if ex.config.Invalid? {
          return [];
        }
        if ex.config.generateControlPlaneCertificate.GetOr(false) {
          var hash := CalcGardenRelevantDataHash(garden);
          if ex.annotation != Some(hash) {
            requests := requests + [ex.name];
          }
        }
      }
    }
    assert items[..|items|] == items;
  }

  /** In a protocol state with one Garden, the action MapGarden queues the Extension exactly if the map function
      asks for it. */
  lemma MapsAsInProtocol(s: State, items: seq<ExtensionItem>, k: nat, listed: bool)
    requires |s.gardens| == 1 && !s.queued && k < |items|
    requires forall i :: 0 <= i < |items| && i != k ==> items[i].name != items[k].name
    requires Responsible(items[k]) && items[k].annotation == s.annotation
    requires items[k].config.Valid? ==> items[k].config.generateControlPlaneCertificate.GetOr(false) == s.generate
    ensures var ok := listed && AllDecodable(items);
      var requests := if ok then OutdatedNames(items, HashOf(s.gardens[0])) else [];
      Step(s, MapGarden(ok)).queued <==> items[k].name in requests
  {
    hide HashOf;
    var hash := HashOf(s.gardens[0]);
    OutdatedNamesExactly(items, hash);
    assert HashDiffers(s) <==> s.annotation != Some(hash);
  }
}
