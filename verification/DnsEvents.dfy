/** The filter for events of the shoot-dns-service Extension, and what it lets through over whole histories. */
module DnsEvents {
  import opened GoStrings

  const DNS_SERVICE_EXTENSION := "shoot-dns-service"
  const TYPE := "shoot-cert-service"

  /** An Extension with the value of the next-generation annotation; a missing annotation reads as "". */
  datatype Extension = Extension(name: string, namespace: string, annotation: string)

  datatype Event =
    | Create(object_: Option<Extension>)
    | Update(objectOld: Option<Extension>, objectNew: Option<Extension>)
    | Delete(object_: Option<Extension>)
    | Generic(object_: Option<Extension>)

  /** dnsServiceExtensionPredicate */
  predicate Accepts(e: Event) {
    match e
    case Create(o) => o.Some? && o.value.name == DNS_SERVICE_EXTENSION
    case Update(o, n) =>
      if n.None? || n.value.name != DNS_SERVICE_EXTENSION then false
      else
        var oldValue := if o.Some? then o.value.annotation else "";
        oldValue != n.value.annotation
    case Delete(_) => false
    case Generic(_) => false
  }

  datatype Request = Request(name: string, namespace: string)

  /** mapDNSServiceExtensionToCertServiceExtension */
  function Requests(ex: Option<Extension>): seq<Request> {
    if ex.None? || ex.value.name != DNS_SERVICE_EXTENSION then [] else [Request(TYPE, ex.value.namespace)]
  }

  /** The object of an event after it. */
  function Object(e: Event): Option<Extension> {
    if e.Update? then e.objectNew else e.object_
  }

  /** isNextGenDNSShootServiceEnabled: a missing Extension counts as false. */
  predicate Flag(present: Option<string>) {
    present == Some("true")
  }

  // ----- histories of one namespace

  /** What happens to the DNS Extension of a namespace, or to another Extension. */
  datatype Change = Appears(annotation: string) | Changes(annotation: string) | Vanishes | Elsewhere(event: Event)

  predicate Possible(present: Option<string>, c: Change) {
    match c
    case Appears(_) => present.None?
    case Changes(_) => present.Some?
    case Vanishes => present.Some?
    case Elsewhere(e) => Object(e).Some? ==> Object(e).value.name != "shoot-dns-service"
  }

  function Next(present: Option<string>, c: Change): Option<string> {
    match c
    case Appears(v) => Some(v)
    case Changes(v) => Some(v)
    case Vanishes => None
    case Elsewhere(_) => present
  }

  function EventOf(namespace: string, present: Option<string>, c: Change): Event {
    var before := if present.Some? then Some(Extension(DNS_SERVICE_EXTENSION, namespace, present.value)) else None;
    match c
    case Appears(v) => Create(Some(Extension(DNS_SERVICE_EXTENSION, namespace, v)))
    case Changes(v) => Update(before, Some(Extension(DNS_SERVICE_EXTENSION, namespace, v)))
    case Vanishes => Delete(before)
    case Elsewhere(e) => e
  }

  ghost predicate History(present: Option<string>, changes: seq<Change>)
    decreases |changes|
  {
    changes != [] ==> Possible(present, changes[0]) && History(Next(present, changes[0]), changes[1..])
  }

  function End(present: Option<string>, changes: seq<Change>): Option<string>
    decreases |changes|
  {
    if changes == [] then present else End(Next(present, changes[0]), changes[1..])
  }

  /** The flag at the last accepted event, if any: what the last triggered reconcile was to pick up. */
  function Seen(namespace: string, present: Option<string>, changes: seq<Change>, seen: bool): bool
    decreases |changes|
  {
    if changes == [] then seen
    else
      var next := Next(present, changes[0]);
      Seen(namespace, next, changes[1..], if Accepts(EventOf(namespace, present, changes[0])) then Flag(next) else seen)
  }

  /** The flag of the Extension when it was last there. */
  function LastFlag(present: Option<string>, changes: seq<Change>, last: bool): bool
    decreases |changes|
  {
    if changes == [] then last
    else
      var next := Next(present, changes[0]);
      LastFlag(next, changes[1..], if next.Some? then Flag(next) else last)
  }

  /** The filter drops no change of the flag while the Extension is there, and no deletion is ever seen. */
  lemma {:induction false} SeenIsLastFlag(namespace: string, present: Option<string>, changes: seq<Change>, seen: bool)
    requires History(present, changes) && (present.Some? ==> seen == Flag(present))
    ensures Seen(namespace, present, changes, seen) == LastFlag(present, changes, seen)
    ensures End(present, changes).Some? ==> LastFlag(present, changes, seen) == Flag(End(present, changes))
    decreases |changes|
  {
    if changes != [] {
      var next := Next(present, changes[0]);
      var e := EventOf(namespace, present, changes[0]);
      var seen' := if Accepts(e) then Flag(next) else seen;
      assert next.Some? ==> seen' == Flag(next);
      SeenIsLastFlag(namespace, next, changes[1..], seen');
    }
  }

  /** Over every history the flag at the last accepted event is the flag at the end, exactly unless the Extension was
      deleted while its flag was true and did not come back. */
  lemma FilterLosesOnlyDeletions(namespace: string, present: Option<string>, changes: seq<Change>)
    requires History(present, changes)
    ensures Seen(namespace, present, changes, Flag(present)) == Flag(End(present, changes)) <==>
      !(End(present, changes).None? && LastFlag(present, changes, Flag(present)))
  {
    SeenIsLastFlag(namespace, present, changes, Flag(present));
  }

  /** The smallest history on which the filter loses something. */
  lemma LostDeletion(namespace: string)
    ensures var present, changes := Some("true"), [Vanishes];
      History(present, changes) && Seen(namespace, present, changes, Flag(present)) && !Flag(End(present, changes))
  {
    var changes := [Vanishes];
    assert changes[1..] == [];
    assert !Accepts(EventOf(namespace, Some("true"), Vanishes));
  }

  /** Without deletions nothing is lost. */
  lemma {:induction false} FilterLosesNothing(namespace: string, present: Option<string>, changes: seq<Change>)
    requires History(present, changes) && forall i :: 0 <= i < |changes| ==> !changes[i].Vanishes?
    ensures Seen(namespace, present, changes, Flag(present)) == Flag(End(present, changes))
  {
    FilterLosesOnlyDeletions(namespace, present, changes);
    NeverThere(present, changes, Flag(present));
  }

  lemma {:induction false} NeverThere(present: Option<string>, changes: seq<Change>, last: bool)
    requires History(present, changes) && forall i :: 0 <= i < |changes| ==> !changes[i].Vanishes?
    ensures End(present, changes).None? ==> present.None? && LastFlag(present, changes, last) == last
    decreases |changes|
  {
    if changes != [] {
      var next := Next(present, changes[0]);
      assert forall i :: 0 <= i < |changes[1..]| ==> changes[1..][i] == changes[i + 1];
      NeverThere(next, changes[1..], if next.Some? then Flag(next) else last);
    }
  }

  /** An accepted event leads to exactly one request, for the certificate Extension of its namespace. Accepted are
      exactly the events in which the DNS Extension appears or its annotation changes; those of others never are. */
  lemma AcceptedIsRequested(namespace: string, present: Option<string>, c: Change)
    requires Possible(present, c)
    ensures Accepts(EventOf(namespace, present, c)) ==>
      Requests(Object(EventOf(namespace, present, c))) == [Request("shoot-cert-service", namespace)]
    ensures Flag(present) != Flag(Next(present, c)) ==> Accepts(EventOf(namespace, present, c)) || c.Vanishes?
    ensures Accepts(EventOf(namespace, present, c)) <==>
      c.Appears? || (c.Changes? && present != Some(c.annotation))
  {
  }
}
