/** The generated deep copies of pkg/apis/service/zz_generated.deepcopy.go:54-191, over a heap. */
module CertConfigDeepCopy {
  import opened GoStrings
  import opened ServiceTypes

  // ----- the structs as the program holds them: a pointer is a reference, a slice an array, and both may be nil

  class Cell<T> {
    var v: T

    constructor (v: T)
      ensures this.v == v
    {
      this.v := v;
    }
  }

  class Selection {
    var include_: array?<string>
    var exclude: array?<string>

    constructor (include_: array?<string>, exclude: array?<string>)
      ensures this.include_ == include_ && this.exclude == exclude
    {
      this.include_, this.exclude := include_, exclude;
    }
  }

  class Challenge {
    var enabled: bool
    var namespace: string
    var dnsClass: Cell?<string>

    constructor (enabled: bool, namespace: string, dnsClass: Cell?<string>)
      ensures this.enabled == enabled && this.namespace == namespace && this.dnsClass == dnsClass
    {
      this.enabled, this.namespace, this.dnsClass := enabled, namespace, dnsClass;
    }
  }

  class Alert {
    var days: Cell?<int>

    constructor (days: Cell?<int>)
      ensures this.days == days
    {
      this.days := days;
    }
  }

  /** An element of the slice of issuers: a struct held by value, whose pointers lead to the heap. */
  datatype Issuer = Issuer(
    name: string,
    server: string,
    email: string,
    requestsPerDayQuota: Cell?<int>,
    privateKeySecretName: Cell?<string>,
    externalAccountBinding: Cell?<ExternalAccountBinding>,
    skipDNSChallengeValidation: Cell?<bool>,
    domains: Selection?,
    precheckNameservers: array?<string>)

  // ----- the value that a struct stands for

  function At<T>(p: Cell?<T>): Option<T>
    reads p
  {
    if p == null then None else Some(p.v)
  }

  function Strings(a: array?<string>): Slice<string>
    reads a
  {
    if a == null then None else Some(a[..])
  }

  function SelectionValue(s: Selection?): Option<DNSSelection>
    reads SelectionCells(s)
  {
    if s == null then None else Some(DNSSelection(Strings(s.include_), Strings(s.exclude)))
  }

  function IssuerValue(i: Issuer): IssuerConfig
    reads IssuerCells(i)
  {
    IssuerConfig(i.name, i.server, i.email, At(i.requestsPerDayQuota), At(i.privateKeySecretName),
                 At(i.externalAccountBinding), At(i.skipDNSChallengeValidation), SelectionValue(i.domains),
                 Strings(i.precheckNameservers))
  }

  function ChallengeValue(c: Challenge?): Option<DNSChallengeOnShoot>
    reads ChallengeCells(c)
  {
    if c == null then None else Some(DNSChallengeOnShoot(c.enabled, c.namespace, At(c.dnsClass)))
  }

  function AlertValue(a: Alert?): Option<Alerting>
    reads AlertCells(a)
  {
    if a == null then None else Some(Alerting(At(a.days)))
  }

  // ----- the mutable cells that a struct reaches

  function Ref(o: object?): set<object> {
    if o == null then {} else {o}
  }

  ghost function SelectionCells(s: Selection?): set<object>
    reads s
  {
    if s == null then {} else {s} + Ref(s.include_) + Ref(s.exclude)
  }

  ghost function IssuerCells(i: Issuer): (cells: set<object>)
    reads i.domains
    ensures i.domains != null ==> i.domains in cells
  {
    Ref(i.requestsPerDayQuota) + Ref(i.privateKeySecretName) + Ref(i.externalAccountBinding) +
    Ref(i.skipDNSChallengeValidation) + SelectionCells(i.domains) + Ref(i.precheckNameservers)
  }

  ghost function ChallengeCells(c: Challenge?): set<object>
    reads c
  {
    if c == null then {} else {c} + Ref(c.dnsClass)
  }

  ghost function AlertCells(a: Alert?): set<object>
    reads a
  {
    if a == null then {} else {a} + Ref(a.days)
  }

  ghost function Selections(s: seq<Issuer>): set<object> {
    set i | 0 <= i < |s| && s[i].domains != null :: s[i].domains
  }

  ghost function IssuersCells(s: seq<Issuer>): (cells: set<object>)
    reads Selections(s)
    ensures Selections(s) <= cells
    ensures forall i :: 0 <= i < |s| ==> IssuerCells(s[i]) <= cells
  {
    Selections(s) + set i, o | 0 <= i < |s| && o in IssuerCells(s[i]) :: o
  }

  function IssuersValue(s: seq<Issuer>): (r: seq<IssuerConfig>)
    reads IssuersCells(s)
    ensures |r| == |s| && forall i :: 0 <= i < |s| ==> r[i] == IssuerValue(s[i])
  {
    seq(|s|, i requires 0 <= i < |s| reads if 0 <= i < |s| then IssuerCells(s[i]) else {} => IssuerValue(s[i]))
  }

  /** The issuers stand for the values, and lead to nothing but the cells. */
  ghost predicate Holds(s: seq<Issuer>, value: seq<IssuerConfig>, cells: set<object>)
    reads cells
  {
    && |s| == |value|
    && forall i :: 0 <= i < |s| ==> (s[i].domains == null || s[i].domains in cells) &&
                                    IssuerCells(s[i]) <= cells && IssuerValue(s[i]) == value[i]
  }

  /** The same, and no two issuers lead to the same cell. */
  ghost predicate Owns(s: seq<Issuer>, value: seq<IssuerConfig>, cells: set<object>)
    reads cells
  {
    Holds(s, value, cells) && forall i, j :: 0 <= i < j < |s| ==> IssuerCells(s[i]) !! IssuerCells(s[j])
  }

  lemma AllHeld(s: seq<Issuer>)
    ensures Holds(s, IssuersValue(s), IssuersCells(s))
  {
    hide IssuerCells, IssuerValue;
  }

  lemma HeldAt(s: seq<Issuer>, value: seq<IssuerConfig>, cells: set<object>, i: nat)
    requires Holds(s, value, cells) && i < |s|
    ensures |value| == |s| && IssuerValue(s[i]) == value[i]
  {
    hide IssuerCells, IssuerValue;
  }

  lemma OwnsNothing()
    ensures Owns([], [], {})
  {
  }

  lemma OwnsOneMore(s: seq<Issuer>, value: seq<IssuerConfig>, cells: set<object>, i: Issuer)
    requires Owns(s, value, cells) && IssuerCells(i) !! cells
    ensures Owns(s + [i], value + [IssuerValue(i)], cells + IssuerCells(i))
  {
    hide IssuerCells, IssuerValue;
  }

  lemma OwnsAll(s: seq<Issuer>, value: seq<IssuerConfig>, cells: set<object>)
    requires Owns(s, value, cells)
    ensures IssuersValue(s) == value && IssuersCells(s) <= cells && Selections(s) <= cells
    ensures forall i, j :: 0 <= i < j < |s| ==> IssuerCells(s[i]) !! IssuerCells(s[j])
  {
    hide IssuerCells, IssuerValue;
  }

  /** CertConfig itself, held by value: the program reaches it through a Cell. */
  datatype Config = Config(
    issuers: array?<Issuer>,
    dnsChallengeOnShoot: Challenge?,
    shootIssuers: Cell?<ShootIssuers>,
    precheckNameservers: Cell?<string>,
    alerting: Alert?,
    generateControlPlaneCertificate: Cell?<bool>)

  ghost function SliceCells(a: array?<Issuer>): (cells: set<object>)
    reads a, if a == null then {} else Selections(a[..])
    ensures a != null ==> a in cells && Selections(a[..]) <= cells
  {
    if a == null then {} else {a} + IssuersCells(a[..])
  }

  function SliceValue(a: array?<Issuer>): Slice<IssuerConfig>
    reads SliceCells(a)
  {
    if a == null then None else Some(IssuersValue(a[..]))
  }

  ghost function PointerCells(c: Config): (cells: set<object>)
    reads c.dnsChallengeOnShoot, c.alerting
    ensures Ref(c.dnsChallengeOnShoot) + Ref(c.alerting) <= cells
  {
    ChallengeCells(c.dnsChallengeOnShoot) + Ref(c.shootIssuers) + Ref(c.precheckNameservers) +
    AlertCells(c.alerting) + Ref(c.generateControlPlaneCertificate)
  }

  function PointerValue(c: Config): CertConfig
    reads PointerCells(c)
  {
    CertConfig(None, ChallengeValue(c.dnsChallengeOnShoot), At(c.shootIssuers), At(c.precheckNameservers),
               AlertValue(c.alerting), At(c.generateControlPlaneCertificate))
  }

  /** Everything the configuration reaches: a write that changes its value changes one of these. */
  ghost function Cells(c: Config): (cells: set<object>)
    reads c.issuers, if c.issuers == null then {} else Selections(c.issuers[..]), c.dnsChallengeOnShoot, c.alerting
    ensures SliceCells(c.issuers) <= cells
    ensures Ref(c.dnsChallengeOnShoot) + Ref(c.alerting) <= cells
  {
    SliceCells(c.issuers) + PointerCells(c)
  }

  function Value(c: Config): CertConfig
    reads Cells(c)
  {
    PointerValue(c).(issuers := SliceValue(c.issuers))
  }

  /** No two issuers lead to the same cell. */
  ghost predicate Unshared(a: array?<Issuer>)
    reads a, if a == null then {} else Selections(a[..])
  {
    a == null || forall i, j :: 0 <= i < j < a.Length ==> IssuerCells(a[i]) !! IssuerCells(a[j])
  }

  /** Every pointer of an issuer is in its cells, and every field in its value. */
  lemma IssuerCovered(i: Issuer)
    ensures Ref(i.requestsPerDayQuota) + Ref(i.privateKeySecretName) + Ref(i.externalAccountBinding)
      + Ref(i.skipDNSChallengeValidation) + Ref(i.domains) + Ref(i.precheckNameservers) <= IssuerCells(i)
    ensures i.domains != null ==> Ref(i.domains.include_) + Ref(i.domains.exclude) <= IssuerCells(i)
    ensures var c := IssuerValue(i);
      && c.name == i.name && c.server == i.server && c.email == i.email
      && Shows(i.requestsPerDayQuota, c.requestsPerDayQuota)
      && Shows(i.privateKeySecretName, c.privateKeySecretName)
      && Shows(i.externalAccountBinding, c.externalAccountBinding)
      && Shows(i.skipDNSChallengeValidation, c.skipDNSChallengeValidation)
      && ShowsStrings(i.precheckNameservers, c.precheckNameservers)
      && (i.domains == null <==> c.domains == None)
      && (i.domains != null ==>
            ShowsStrings(i.domains.include_, c.domains.value.include_)
            && ShowsStrings(i.domains.exclude, c.domains.value.exclude))
  {
  }

  predicate Shows<T(==)>(p: Cell?<T>, o: Option<T>)
    reads p
  {
    (p == null <==> o.None?) && (p != null ==> o == Some(p.v))
  }

  predicate ShowsStrings(a: array?<string>, o: Slice<string>)
    reads a
  {
    (a == null <==> o.None?) && (a != null ==> o == Some(a[..]))
  }

  /** The same for the whole configuration. */
  lemma ConfigCovered(c: Config)
    ensures Ref(c.issuers) + Ref(c.dnsChallengeOnShoot) + Ref(c.shootIssuers) + Ref(c.precheckNameservers)
      + Ref(c.alerting) + Ref(c.generateControlPlaneCertificate) <= Cells(c)
    ensures c.dnsChallengeOnShoot != null ==> Ref(c.dnsChallengeOnShoot.dnsClass) <= Cells(c)
    ensures c.alerting != null ==> Ref(c.alerting.days) <= Cells(c)
    ensures c.issuers != null ==> forall i :: 0 <= i < c.issuers.Length ==> IssuerCells(c.issuers[i]) <= Cells(c)
    ensures var v := Value(c);
      && (c.issuers == null <==> v.issuers.None?)
      && (c.issuers != null ==>
            && |v.issuers.value| == c.issuers.Length
            && forall i :: 0 <= i < c.issuers.Length ==> v.issuers.value[i] == IssuerValue(c.issuers[i]))
      && Shows(c.shootIssuers, v.shootIssuers) && Shows(c.precheckNameservers, v.precheckNameservers)
      && Shows(c.generateControlPlaneCertificate, v.generateControlPlaneCertificate)
      && (c.dnsChallengeOnShoot == null <==> v.dnsChallengeOnShoot.None?)
      && (c.dnsChallengeOnShoot != null ==>
            && v.dnsChallengeOnShoot.value.enabled == c.dnsChallengeOnShoot.enabled
            && v.dnsChallengeOnShoot.value.namespace == c.dnsChallengeOnShoot.namespace
            && Shows(c.dnsChallengeOnShoot.dnsClass, v.dnsChallengeOnShoot.value.dnsClass))
      && (c.alerting == null <==> v.alerting.None?)
      && (c.alerting != null ==> Shows(c.alerting.days, v.alerting.value.certExpirationAlertDays))
  {
    hide IssuerCells, IssuerValue;
  }

  // ----- the copies

  method CopyStrings(a: array?<string>) returns (b: array?<string>)
    ensures Strings(b) == old(Strings(a)) && fresh(Ref(b))
  {
    if a == null {
      return null;
    }
    var c := new string[a.Length];
    forall i | 0 <= i < a.Length {
      c[i] := a[i];
    }
    assert c[..] == old(a[..]);
    return c;
  }

  method CopyCell<T>(p: Cell?<T>) returns (q: Cell?<T>)
    ensures At(q) == old(At(p)) && fresh(Ref(q))
  {
    if p == null {
      return null;
    }
    q := new Cell(p.v);
  }

  method CopySelection(s: Selection?) returns (t: Selection?)
    ensures SelectionValue(t) == old(SelectionValue(s)) && fresh(SelectionCells(t))
  {
    if s == null {
      return null;
    }
    t := new Selection(s.include_, s.exclude);
    t.include_ := CopyStrings(s.include_);
    t.exclude := CopyStrings(s.exclude);
  }

  /** IssuerConfig.DeepCopyInto: the plain assignment, then every pointer and slice anew. */
  method CopyIssuer(i: Issuer) returns (o: Issuer)
    ensures IssuerValue(o) == old(IssuerValue(i)) && fresh(IssuerCells(o))
  {
    hide SelectionCells, SelectionValue;
    ghost var theirs: set<object> :| theirs == SelectionCells(i.domains);
    o := i;
    var quota, secret, binding, skip := CopyScalars(i);
    var domains := CopySelection(i.domains);
    ghost var ours: set<object> :| ours == SelectionCells(domains);
    var nameservers := CopyStrings(i.precheckNameservers);
    o := o.(requestsPerDayQuota := quota, privateKeySecretName := secret, externalAccountBinding := binding,
    skipDNSChallengeValidation := skip, domains := domains, precheckNameservers := nameservers);
  }

  /** The pointers to plain values. */
  method CopyScalars(i: Issuer)
    returns (quota: Cell?<int>, secret: Cell?<string>, binding: Cell?<ExternalAccountBinding>, skip: Cell?<bool>)
    ensures At(quota) == old(At(i.requestsPerDayQuota)) && At(secret) == old(At(i.privateKeySecretName))
    ensures At(binding) == old(At(i.externalAccountBinding)) && At(skip) == old(At(i.skipDNSChallengeValidation))
    ensures fresh(Ref(quota) + Ref(secret) + Ref(binding) + Ref(skip))
  {
    quota := CopyCell(i.requestsPerDayQuota);
    secret := CopyCell(i.privateKeySecretName);
    binding := CopyCell(i.externalAccountBinding);
    skip := CopyCell(i.skipDNSChallengeValidation);
  }

  /** The index loop over the issuers. */
  method CopyElements(a: array<Issuer>, ghost s: seq<Issuer>, ghost value: seq<IssuerConfig>, ghost theirs: set<object>)
    returns (b: array<Issuer>, ghost ours: set<object>)
    requires a[..] == s && |value| == |s| && Holds(s, value, theirs)
    ensures fresh(b) && fresh(ours) && b !in ours && Owns(b[..], value, ours)
  {
    hide Holds, Owns, IssuerValue, IssuerCells;
    OwnsNothing();
    b, ours := new Issuer[a.Length], {};
    ghost var q: seq<Issuer> := [];
    var k := 0;
    while k < a.Length
      invariant 0 <= k <= a.Length && fresh(b)
      invariant a[..] == s && b !in theirs && Holds(s, value, theirs)
      invariant b[..k] == q && fresh(ours) && b !in ours && Owns(q, value[..k], ours)
    {
      HeldAt(s, value, theirs, k);
      assert s[k] == a[k];
      var o := CopyIssuer(a[k]);
      OwnsOneMore(q, value[..k], ours, o);
      q, ours := q + [o], ours + IssuerCells(o);
      b[k] := o;
      k := k + 1;
      assert value[..k] == value[..k - 1] + [value[k - 1]];
    }
    assert b[..] == q && value[..k] == value;
  }

  method CopyIssuers(a: array?<Issuer>) returns (b: array?<Issuer>)
    ensures SliceValue(b) == old(SliceValue(a)) && fresh(SliceCells(b)) && Unshared(b)
  {
    hide Holds, Owns, IssuerValue, IssuerCells, IssuersValue, IssuersCells, Selections;
    if a == null {
      return null;
    }
    AllHeld(a[..]);
    ghost var ours;
    b, ours := CopyElements(a, a[..], IssuersValue(a[..]), IssuersCells(a[..]));
    OwnsAll(b[..], old(IssuersValue(a[..])), ours);
  }

  method CopyChallenge(c: Challenge?) returns (d: Challenge?)
    ensures ChallengeValue(d) == old(ChallengeValue(c)) && fresh(ChallengeCells(d))
  {
    if c == null {
      return null;
    }
    d := new Challenge(c.enabled, c.namespace, c.dnsClass);
    d.dnsClass := CopyCell(c.dnsClass);
  }

  method CopyAlert(a: Alert?) returns (b: Alert?)
    ensures AlertValue(b) == old(AlertValue(a)) && fresh(AlertCells(b))
  {
    if a == null {
      return null;
    }
    b := new Alert(a.days);
    b.days := CopyCell(a.days);
  }

  method CopyPointers(c: Config, issuers: array?<Issuer>) returns (d: Config)
    ensures d.issuers == issuers && PointerValue(d) == old(PointerValue(c)) && fresh(PointerCells(d))
  {
    hide ChallengeCells, ChallengeValue, AlertCells, AlertValue, At, Ref;
    ghost var theirs: set<object> :| theirs == ChallengeCells(c.dnsChallengeOnShoot) + AlertCells(c.alerting);
    var challenge := CopyChallenge(c.dnsChallengeOnShoot);
    ghost var ours: set<object> :| ours == ChallengeCells(challenge);
    var shootIssuers := CopyCell(c.shootIssuers);
    var nameservers := CopyCell(c.precheckNameservers);
    var alerting := CopyAlert(c.alerting);
    ghost var ours': set<object> :| ours' == AlertCells(alerting);
    var generate := CopyCell(c.generateControlPlaneCertificate);
    d := Config(issuers, challenge, shootIssuers, nameservers, alerting, generate);
  }

  /** Every pointer and slice anew. */
  method CopyConfig(c: Config) returns (d: Config)
    ensures Value(d) == old(Value(c)) && fresh(Cells(d)) && Unshared(d.issuers)
  {
    hide SliceValue, SliceCells, PointerValue, PointerCells, Unshared, Selections;
    ghost var theirs: set<object> :| theirs == PointerCells(c);
    d := c;
    var issuers := CopyIssuers(c.issuers);
    ghost var ours: set<object> :| ours == SliceCells(issuers);
    d := CopyPointers(c, issuers);
  }

  /** What is left of a configuration that is copied onto itself: each pointer and slice is replaced before it is
      read. */
  function Blanked(c: CertConfig): CertConfig {
    CertConfig(
      if c.issuers.None? then None else Some(seq(|c.issuers.value|, _ => BLANK_CONFIG)),
      if c.dnsChallengeOnShoot.None? then None else Some(DNSChallengeOnShoot(false, "", None)),
      if c.shootIssuers.None? then None else Some(ShootIssuers(false)),
      if c.precheckNameservers.None? then None else Some(""),
      if c.alerting.None? then None else Some(Alerting(None)),
      if c.generateControlPlaneCertificate.None? then None else Some(false))
  }

  const BLANK_CONFIG := IssuerConfig("", "", "", None, None, None, None, None, None)
  const BLANK_ISSUER := Issuer("", "", "", null, null, null, null, null, null)

  /** A configuration that does not survive being copied onto itself. */
  lemma SelfCopyLoses()
    ensures var c := CertConfig(None, None, None, Some("dns.example.com"), None, None);
      Blanked(c) != c
  {
  }

  /** What make and new put into the target: pointers and slices of the same shape, with zero contents. */
  method BlankConfig(c: Config) returns (d: Config)
    ensures Value(d) == Blanked(old(Value(c))) && fresh(Cells(d))
  {
    hide SliceCells, PointerCells, PointerValue, Selections;
    ghost var theirs: set<object> :| theirs == PointerCells(c);
    var issuers := BlankIssuers(c.issuers);
    ghost var ours: set<object> :| ours == SliceCells(issuers);
    d := BlankPointers(c, issuers);
  }

  method BlankPointers(c: Config, issuers: array?<Issuer>) returns (d: Config)
    ensures d.issuers == issuers && PointerValue(d) == Blanked(old(PointerValue(c))) && fresh(PointerCells(d))
  {
    hide ChallengeCells, ChallengeValue, AlertCells, AlertValue, At, Ref;
    ghost var theirs: set<object> :| theirs == ChallengeCells(c.dnsChallengeOnShoot) + AlertCells(c.alerting);
    var challenge := BlankChallenge(c.dnsChallengeOnShoot);
    ghost var ours: set<object> :| ours == ChallengeCells(challenge);
    var shootIssuers := BlankCell(c.shootIssuers, ShootIssuers(false));
    var nameservers := BlankCell(c.precheckNameservers, "");
    var alerting := BlankAlert(c.alerting);
    ghost var ours': set<object> :| ours' == AlertCells(alerting);
    var generate := BlankCell(c.generateControlPlaneCertificate, false);
    d := Config(issuers, challenge, shootIssuers, nameservers, alerting, generate);
  }

  method BlankCell<T>(p: Cell?<T>, zero: T) returns (q: Cell?<T>)
    ensures At(q) == (if old(At(p)).None? then None else Some(zero)) && fresh(Ref(q))
  {
    if p == null {
      return null;
    }
    q := new Cell(zero);
  }

  method BlankChallenge(c: Challenge?) returns (d: Challenge?)
    ensures ChallengeValue(d) == if old(ChallengeValue(c)).None? then None
      else Some(DNSChallengeOnShoot(false, "", None))
    ensures fresh(ChallengeCells(d))
  {
    if c == null {
      return null;
    }
    d := new Challenge(false, "", null);
  }

  method BlankAlert(a: Alert?) returns (b: Alert?)
    ensures AlertValue(b) == if old(AlertValue(a)).None? then None else Some(Alerting(None))
    ensures fresh(AlertCells(b))
  {
    if a == null {
      return null;
    }
    b := new Alert(null);
  }

  lemma AllBlank(s: seq<Issuer>)
    requires forall i :: 0 <= i < |s| ==> s[i] == BLANK_ISSUER
    ensures IssuersValue(s) == seq(|s|, _ => BLANK_CONFIG) && IssuersCells(s) == {}
  {
    OneBlank();
    hide IssuerCells, IssuerValue;
  }

  lemma OneBlank()
    ensures IssuerValue(BLANK_ISSUER) == BLANK_CONFIG && IssuerCells(BLANK_ISSUER) == {}
  {
  }

  method BlankIssuers(a: array?<Issuer>) returns (b: array?<Issuer>)
    ensures SliceValue(b) == if a == null then None else Some(seq(a.Length, _ => BLANK_CONFIG))
    ensures fresh(SliceCells(b))
  {
    hide IssuersCells, IssuersValue, IssuerCells, IssuerValue, Selections;
    if a == null {
      return null;
    }
    b := new Issuer[a.Length](_ => BLANK_ISSUER);
    AllBlank(b[..]);
  }

  /** CertConfig.DeepCopyInto: the plain assignment, then new pointers and slices in the target, then what they hold.
      The source is read after the target has been written, so a target that is the source itself loses its
      contents. */
  method DeepCopyInto(from: Cell<Config>, out: Cell<Config>)
    modifies out
    ensures Value(out.v) == if out == from then Blanked(old(Value(from.v))) else old(Value(from.v))
    ensures fresh(Cells(out.v)) && Unshared(out.v.issuers)
  {
    hide SliceValue, SliceCells, Unshared, Value, Cells, Blanked;
    ghost var theirs: set<object> :| theirs == Cells(from.v);
    NeverACell(out, from.v);
    out.v := from.v;
    assert Value(from.v) == old(Value(from.v));
    var blank := BlankConfig(from.v);
    ghost var zeros: set<object> :| zeros == Cells(blank);
    out.v := blank;
    assert Value(from.v) == if out == from then Blanked(old(Value(from.v))) else old(Value(from.v));
    var copy := CopyConfig(from.v);
    ghost var ours: set<object> :| ours == Cells(copy);
    out.v := copy;
  }

  lemma NoIssuerCell(o: Cell<Config>, i: Issuer)
    ensures o !in IssuerCells(i)
  {
  }

  lemma NeverACell(o: Cell<Config>, c: Config)
    ensures o !in Cells(c)
  {
    hide IssuerCells;
    if c.issuers != null {
      forall i | 0 <= i < c.issuers.Length
        ensures o !in IssuerCells(c.issuers[i])
      {
        NoIssuerCell(o, c.issuers[i]);
      }
    }
  }

  method DeepCopy(from: Cell?<Config>) returns (out: Cell?<Config>)
    ensures (out == null) == (from == null)
    ensures from != null ==>
              && Value(out.v) == Value(from.v)
              && fresh(out) && fresh(Cells(out.v)) && Unshared(out.v.issuers)
  {
    hide SliceValue, SliceCells, Unshared, Value, Cells;
    if from == null {
      return null;
    }
    ghost var theirs: set<object> :| theirs == Cells(from.v);
    out := new Cell(Config(null, null, null, null, null, null));
    DeepCopyInto(from, out);
  }

  /** Whatever is later written into the copy, the original keeps its value, and the other way round. */
  method WritesStayApart(from: Cell<Config>, intoCopy: bool) returns (copy: Cell<Config>)
    modifies if intoCopy then {} else {from} + Cells(from.v)
    ensures intoCopy ==> Value(from.v) == old(Value(from.v))
    ensures !intoCopy ==> Value(copy.v) == old(Value(from.v))
  {
    hide Value, Cells;
    ghost var theirs: set<object> :| theirs == Cells(from.v);
    copy := DeepCopy(from);
    ghost var ours: set<object> :| ours == Cells(copy.v);
    if intoCopy {
      modify {copy} + Cells(copy.v);
    } else {
      modify {from} + Cells(from.v);
    }
  }
}
