/** The data of a Garden that the garden certificate depends on: its hash and the DNS names made from it. */
module GardenHash {
  import opened GoStrings
  import opened OrderedSets

  const NUL: char := '\0'

  /** The first provider of the Garden's DNS section. */
  datatype DNSProvider = DNSProvider(providerType: string, secretRef: string)

  datatype Garden = Garden(virtualDomains: seq<string>, ingressDomains: seq<string>, dns: Option<DNSProvider>) {
    function Domains(): seq<string> {
      virtualDomains + ingressDomains
    }
  }

  /** A SHA-256 digest in hex. Collision freedom is explicit: a digest stands for one preimage. */
  datatype Digest = Digest(preimage: string)

  // ----- the preimage of the hash

  /** Each name followed by a NUL byte. */
  function Preimage(names: seq<string>): string {
    if names == [] then "" else names[0] + [NUL] + Preimage(names[1..])
  }

  function HashOf(garden: Garden): Digest {
    Digest(Preimage(garden.Domains()))
  }

  /** The same as joining the names, with a NUL byte after the last one too. */
  lemma {:induction false} PreimageIsJoin(names: seq<string>)
    ensures Preimage(names) == Join(names + [""], NUL)
  {
    if names != [] {
      PreimageIsJoin(names[1..]);
      assert (names + [""])[1..] == names[1..] + [""];
    }
  }

  lemma {:induction false} PreimageAppend(a: seq<string>, b: seq<string>)
    ensures Preimage(a + b) == Preimage(a) + Preimage(b)
  {
    if a == [] {
      assert a + b == b;
    } else {
      assert (a + b)[1..] == a[1..] + b;
      PreimageAppend(a[1..], b);
    }
  }

  lemma PreimageNext(names: seq<string>, i: nat)
    requires i < |names|
    ensures Preimage(names[..i + 1]) == Preimage(names[..i]) + names[i] + [NUL]
  {
    assert names[..i + 1] == names[..i] + [names[i]];
    PreimageAppend(names[..i], [names[i]]);
    assert Preimage([names[i]]) == names[i] + [NUL] + Preimage([names[i]][1..]);
  }

  /** calcGardenRelevantDataHash: the digest of the virtual and then the ingress domains, with a NUL byte after each. */
  method CalcGardenRelevantDataHash(garden: Garden) returns (hash: Digest)
    ensures hash == Digest(Join(garden.virtualDomains + garden.ingressDomains + [""], '\0'))
    ensures hash == HashOf(garden)
  {
    var written := "";
    for i := 0 to |garden.virtualDomains|
      invariant written == Preimage(garden.virtualDomains[..i])
    {
      written := written + garden.virtualDomains[i];
      written := written + [NUL];
      PreimageNext(garden.virtualDomains, i);
    }
    assert garden.virtualDomains[..|garden.virtualDomains|] == garden.virtualDomains;
    for i := 0 to |garden.ingressDomains|
      invariant written == Preimage(garden.virtualDomains) + Preimage(garden.ingressDomains[..i])
    {
      written := written + garden.ingressDomains[i];
      written := written + [NUL];
      PreimageNext(garden.ingressDomains, i);
    }
    assert garden.ingressDomains[..|garden.ingressDomains|] == garden.ingressDomains;
    PreimageAppend(garden.virtualDomains, garden.ingressDomains);
    PreimageIsJoin(garden.virtualDomains + garden.ingressDomains);
    return Digest(written);
  }

  /** The names cut at their NUL bytes. */
  function NulPieces(names: seq<string>): seq<string> {
    if names == [] then [] else Split(names[0], NUL) + NulPieces(names[1..])
  }

  lemma {:induction false} SplitConcat(a: string, sep: char, b: string)
    ensures Split(a + [sep] + b, sep) == Split(a, sep) + Split(b, sep)
  {
    var s := a + [sep] + b;
    if a == "" {
      assert s[1..] == b;
    } else {
      assert s[1..] == a[1..] + [sep] + b;
      SplitConcat(a[1..], sep, b);
    }
  }

  lemma {:induction false} SplitPreimage(names: seq<string>)
    ensures Split(Preimage(names), NUL) == NulPieces(names) + [""]
  {
    if names != [] {
      SplitPreimage(names[1..]);
      SplitConcat(names[0], NUL, Preimage(names[1..]));
    }
  }

  /** The hash sees exactly the pieces between NUL bytes, and not where one list ends and the next begins. */
  lemma PreimageSees(a: seq<string>, b: seq<string>)
    ensures Preimage(a) == Preimage(b) <==> NulPieces(a) == NulPieces(b)
  {
    SplitPreimage(a);
    SplitPreimage(b);
    JoinSplit(Preimage(a), NUL);
    JoinSplit(Preimage(b), NUL);
    if Preimage(a) == Preimage(b) {
      assert NulPieces(a) == (NulPieces(a) + [""])[..|NulPieces(a)|];
      assert NulPieces(b) == (NulPieces(b) + [""])[..|NulPieces(b)|];
    }
  }

  predicate NulFree(names: seq<string>) {
    AllFree(names, NUL)
  }

  lemma {:induction false} NulFreePieces(names: seq<string>)
    requires NulFree(names)
    ensures NulPieces(names) == names
  {
    if names != [] {
      SplitFree(names[0], NUL);
      NulFreePieces(names[1..]);
    }
  }

  /** For names without NUL bytes the preimage determines the list of names. */
  lemma PreimageInjective(a: seq<string>, b: seq<string>)
    requires NulFree(a) && NulFree(b)
    ensures Preimage(a) == Preimage(b) <==> a == b
  {
    PreimageSees(a, b);
    NulFreePieces(a);
    NulFreePieces(b);
  }

  /** A NUL byte inside a name makes two different lists look the same. */
  lemma NulBytesCollide()
    ensures Preimage(["a\0b"]) == Preimage(["a", "b"])
    ensures DnsNames(["a\0b"]) != DnsNames(["a", "b"])
  {
    assert Preimage(["b"]) == "b" + [NUL] + Preimage(["b"][1..]);
    assert ["a", "b"][1..] == ["b"];
    assert Preimage(["a", "b"]) == "a" + [NUL] + Preimage(["b"]);
    assert Preimage(["a\0b"]) == "a\0b" + [NUL] + Preimage(["a\0b"][1..]);
    DedupDistinct(["a\0b"]);
    DedupDistinct(["a", "b"]);
  }

  // ----- the DNS names of the certificate

  function Wildcards(names: seq<string>): (r: seq<string>)
    ensures |r| == |names|
    ensures forall i :: 0 <= i < |names| ==> r[i] == "*." + names[i]
  {
    seq(|names|, i requires 0 <= i < |names| => "*." + names[i])
  }

  /** One wildcard name for each domain, in the order of first occurrence. */
  function DnsNames(domains: seq<string>): seq<string> {
    Wildcards(Dedup(domains))
  }

  /** The wildcard names "*.d" of the domains d in the two lists, virtual domains before ingress domains, each at the
      place where its domain comes first. */
  ghost predicate WildcardsOf(names: seq<string>, virtualDomains: seq<string>, ingressDomains: seq<string>) {
    && (forall d :: d in virtualDomains || d in ingressDomains ==> "*." + d in names)
    && (forall n :: n in names ==> exists d :: (d in virtualDomains || d in ingressDomains) && n == "*." + d)
    && InFirstOrder(names, virtualDomains + ingressDomains)
  }

  /** No name occurs twice, and names follow the first occurrences of their domains. */
  ghost predicate InFirstOrder(names: seq<string>, domains: seq<string>) {
    forall i, j :: 0 <= i < j < |names| ==>
      names[i] != names[j] &&
      exists a: nat, b: nat :: a < b && FirstAt(domains, a) && FirstAt(domains, b)
        && names[i] == "*." + domains[a] && names[j] == "*." + domains[b]
  }

  lemma DnsNamesAre(virtualDomains: seq<string>, ingressDomains: seq<string>)
    ensures WildcardsOf(DnsNames(virtualDomains + ingressDomains), virtualDomains, ingressDomains)
  {
    var domains := virtualDomains + ingressDomains;
    DnsNamesInFirstOrder(domains);
    hide Dedup, InFirstOrder;
    DedupElements(domains);
    var names, first := DnsNames(domains), Dedup(domains);
    forall d | d in domains
      ensures "*." + d in names
    {
      var i :| 0 <= i < |first| && first[i] == d;
      assert names[i] == "*." + d;
    }
    forall n | n in names
      ensures exists d :: (d in virtualDomains || d in ingressDomains) && n == "*." + d
    {
      var i :| 0 <= i < |names| && names[i] == n;
      assert first[i] in domains && n == "*." + first[i];
    }
  }

  lemma DnsNamesInFirstOrder(domains: seq<string>)
    ensures InFirstOrder(DnsNames(domains), domains)
  {
    hide Dedup;
    var at := DedupFirst(domains);
    DedupElements(domains);
    var names, first := DnsNames(domains), Dedup(domains);
    forall i, j | 0 <= i < j < |names|
      ensures names[i] != names[j] && at[i] < at[j]
      ensures names[i] == "*." + domains[at[i]] && names[j] == "*." + domains[at[j]]
    {
      assert names[i][2..] == first[i] && names[j][2..] == first[j];
    }
  }

  lemma DnsNamesEmpty(domains: seq<string>)
    ensures DnsNames(domains) == [] <==> domains == []
  {
    DedupElements(domains);
  }

  /** The loop over one of the two domain lists in gardenCert.reconcile. */
  method AppendDnsNames(ghost before: seq<string>, domains: seq<string>, seen: set<string>, names: seq<string>)
    returns (dnsNameSet: set<string>, dnsNames: seq<string>)
    requires names == DnsNames(before) && forall d :: d in seen <==> d in Dedup(before)
    ensures dnsNames == DnsNames(before + domains) && forall d :: d in dnsNameSet <==> d in Dedup(before + domains)
  {
    hide Dedup;
    dnsNameSet, dnsNames := seen, names;
    assert before + domains[..0] == before;
    for i := 0 to |domains|
      invariant dnsNames == DnsNames(before + domains[..i])
      invariant forall d :: d in dnsNameSet <==> d in Dedup(before + domains[..i])
    {
      var d := domains[i];
      DedupSnoc(before + domains[..i], d);
      assert before + domains[..i + 1] == before + domains[..i] + [d];
      if d !in dnsNameSet {
        dnsNameSet := dnsNameSet + {d};
        dnsNames := dnsNames + ["*." + d];
      }
    }
    assert domains[..|domains|] == domains;
  }

  method CollectDnsNames(garden: Garden) returns (dnsNames: seq<string>)
    ensures WildcardsOf(dnsNames, garden.virtualDomains, garden.ingressDomains)
    ensures dnsNames == DnsNames(garden.Domains())
  {
    hide WildcardsOf;
    DedupEmpty<string>();
    var dnsNameSet: set<string> := {};
    dnsNames := [];
    dnsNameSet, dnsNames := AppendDnsNames([], garden.virtualDomains, dnsNameSet, dnsNames);
    assert [] + garden.virtualDomains == garden.virtualDomains;
    dnsNameSet, dnsNames := AppendDnsNames(garden.virtualDomains, garden.ingressDomains, dnsNameSet, dnsNames);
    DnsNamesAre(garden.virtualDomains, garden.ingressDomains);
  }

  /** Two Gardens with the same hash have the same certificate names. */
  lemma SameHashSameNames(a: Garden, b: Garden)
    requires NulFree(a.Domains()) && NulFree(b.Domains())
    requires HashOf(a) == HashOf(b)
    ensures a.Domains() == b.Domains() && DnsNames(a.Domains()) == DnsNames(b.Domains())
  {
    PreimageInjective(a.Domains(), b.Domains());
  }
}
