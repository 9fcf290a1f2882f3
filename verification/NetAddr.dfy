/** Addresses as Go's net package and the Kubernetes name checks read them. */
module NetAddr {
  import opened GoStrings

  // ----- net.SplitHostPort

  /** The host and the port of "host:port" or "[host]:port"; None where net.SplitHostPort reports an error. */
  function SplitHostPort(hostport: string): Option<(string, string)> {
    var i := LastIndexByte(hostport, ':');
    if i < 0 then None
    else if hostport[0] == '[' then
      var end := IndexByte(hostport, ']');
      if end < 0 || end + 1 != i then None
      else if '[' in hostport[1..] || ']' in hostport[end + 1..] then None
      else Some((hostport[1..end], hostport[i + 1..]))
    else
      var host := hostport[..i];
      if ':' in host || '[' in hostport || ']' in hostport then None
      else Some((host, hostport[i + 1..]))
  }

  predicate NoBrackets(s: string) {
    Free(s, '[') && Free(s, ']')
  }

  /** s is written h:p with a colon-free h, or [h]:p. */
  predicate Endpoint(s: string, h: string, p: string) {
    && NoBrackets(h) && NoBrackets(p) && Free(p, ':')
    && ((Free(h, ':') && s == h + ":" + p) || s == "[" + h + "]:" + p)
  }

  /** net.SplitHostPort succeeds exactly on the two written forms, and returns their parts. */
  lemma SplitHostPortReads(s: string, h: string, p: string)
    ensures SplitHostPort(s) == Some((h, p)) <==> Endpoint(s, h, p)
  {
    if SplitHostPort(s) == Some((h, p)) {
      SplitGivesEndpoint(s, h, p);
    }
    if Endpoint(s, h, p) {
      EndpointSplits(s, h, p);
    }
  }

  lemma SplitGivesEndpoint(s: string, h: string, p: string)
    requires SplitHostPort(s) == Some((h, p))
    ensures Endpoint(s, h, p)
  {
    hide LastIndexByte, IndexByte;
    var i := LastIndexByte(s, ':');
    assert Free(p, ':');
    if s[0] == '[' {
      var end := IndexByte(s, ']');
      assert s == "[" + h + "]:" + p;
      InRange(s, 1, end);
      InRange(s, end + 2, |s|);
    } else {
      assert s == h + ":" + p;
    }
  }

  /** What a stretch of s contains, every longer stretch contains. */
  lemma InRange(s: string, lo: nat, hi: nat)
    requires 1 <= lo <= hi <= |s|
    ensures forall c :: c in s[lo..hi] ==> c in s[1..] && c in s[..hi] && c in s[lo - 1..]
  {
    forall c | c in s[lo..hi]
      ensures c in s[1..] && c in s[..hi] && c in s[lo - 1..]
    {
      var k :| 0 <= k < hi - lo && s[lo..hi][k] == c;
      assert s[1..][lo + k - 1] == c && s[..hi][lo + k] == c && s[lo - 1..][k + 1] == c;
    }
  }

  lemma EndpointSplits(s: string, h: string, p: string)
    requires Endpoint(s, h, p)
    ensures SplitHostPort(s) == Some((h, p))
  {
    if Free(h, ':') && s == h + ":" + p {
      PlainSplits(s, h, p);
    } else {
      BracketedSplits(s, h, p);
    }
  }

  lemma PlainSplits(s: string, h: string, p: string)
    requires NoBrackets(h) && NoBrackets(p) && Free(p, ':') && Free(h, ':') && s == h + ":" + p
    ensures SplitHostPort(s) == Some((h, p))
  {
    hide LastIndexByte, IndexByte;
    assert s[|h|] == ':' && s[|h| + 1..] == p && s[..|h|] == h;
    LastIndexIs(s, ':', |h|);
    assert '[' !in s && ']' !in s;
    assert s[0] in s;
  }

  lemma BracketedParts(s: string, h: string, p: string)
    requires s == "[" + h + "]:" + p
    ensures var n := |h|;
      && s[0] == '[' && s[n + 1] == ']' && s[n + 2] == ':'
      && s[..n + 1] == "[" + h && s[1..n + 1] == h && s[n + 2..] == ":" + p && s[n + 3..] == p && s[1..] == h + "]:" + p
  {
  }

  lemma BracketedSplits(s: string, h: string, p: string)
    requires NoBrackets(h) && NoBrackets(p) && Free(p, ':') && s == "[" + h + "]:" + p
    ensures SplitHostPort(s) == Some((h, p))
  {
    hide LastIndexByte, IndexByte;
    var n := |h|;
    BracketedParts(s, h, p);
    LastIndexIs(s, ':', n + 2);
    IndexIs(s, ']', n + 1);
  }

  // ----- net.ParseIP: the texts it turns into an address

  /** One field of a dotted-decimal address: 0..255 without leading zeros. */
  predicate Octet(s: string) {
    1 <= |s| <= 3 && Digits(s) && (s[0] == '0' ==> |s| == 1) && DigitsValue(s) <= 255
  }

  predicate IsIPv4(s: string) {
    var fields := Split(s, '.');
    |fields| == 4 && forall i :: 0 <= i < 4 ==> Octet(fields[i])
  }

  predicate HexDigit(c: char) {
    Digit(c) || 'a' <= c <= 'f' || 'A' <= c <= 'F'
  }

  predicate HexGroup(s: string) {
    1 <= |s| <= 4 && forall i :: 0 <= i < |s| ==> HexDigit(s[i])
  }

  predicate HexGroups(groups: seq<string>) {
    forall i :: 0 <= i < |groups| ==> HexGroup(groups[i])
  }

  /** How many 16-bit pieces a colon-separated list of fields stands for; None if it is not such a list.
      Only the last field may be a dotted-decimal address, which stands for two pieces. */
  function Pieces(s: string, mayEndDotted: bool): Option<nat> {
    if s == "" then Some(0)
    else
      var fields := Split(s, ':');
      var last := |fields| - 1;
      if HexGroups(fields) then Some(|fields|)
      else if mayEndDotted && HexGroups(fields[..last]) && IsIPv4(fields[last]) then Some(|fields| + 1)
      else None
  }

  /** The index of the first "::", or -1. */
  function EllipsisIndex(s: string): (i: int)
    ensures -1 <= i
    ensures i >= 0 ==> i + 2 <= |s| && s[i] == ':' && s[i + 1] == ':'
  {
    if |s| < 2 then -1
    else if s[0] == ':' && s[1] == ':' then 0
    else
      var j := EllipsisIndex(s[1..]);
      if j < 0 then -1 else j + 1
  }

  /** The textual forms of section 2.2 of RFC 4291; an ellipsis stands for at least one group of zeros. */
  predicate IsIPv6(s: string) {
    var e := EllipsisIndex(s);
    if e < 0 then
      s != "" && Pieces(s, true) == Some(8)
    else
      var left, right := Pieces(s[..e], false), Pieces(s[e + 2..], true);
      left.Some? && right.Some? && left.value + right.value <= 7
  }

  predicate IsIP(s: string) {
    IsIPv4(s) || IsIPv6(s)
  }

  predicate AddressChar(c: char) {
    HexDigit(c) || c == ':' || c == '.'
  }

  predicate AddressText(s: string) {
    forall c :: c in s ==> AddressChar(c)
  }

  /** An IPv4 text has digits and dots only. */
  lemma IPv4Text(s: string)
    requires IsIPv4(s)
    ensures AddressText(s) && Free(s, ':') && s != ""
  {
    forall c | c in s
      ensures AddressChar(c) && c != ':'
    {
      if c != '.' {
        SplitCovers(s, '.', c);
      }
    }
    assert |Split("", '.')| == 1;
  }

  lemma PiecesText(s: string, mayEndDotted: bool)
    requires Pieces(s, mayEndDotted).Some?
    ensures AddressText(s)
  {
    if s != "" {
      var fields := Split(s, ':');
      var last := |fields| - 1;
      forall c | c in s
        ensures AddressChar(c)
      {
        if c != ':' {
          SplitCovers(s, ':', c);
          var i :| 0 <= i < |fields| && c in fields[i];
          if !HexGroups(fields) {
            IPv4Text(fields[last]);
            if i < last {
              assert fields[..last][i] == fields[i];
            }
          }
        }
      }
    }
  }

  lemma {:induction false} ManyPartsManySeparators(s: string, sep: char)
    requires |Split(s, sep)| >= 3
    ensures exists i, j :: 0 <= i < j < |s| && s[i] == s[j] == sep
  {
    assert s != "";
    if s[0] == sep {
      if Free(s[1..], sep) {
        SplitFree(s[1..], sep);
      }
      var k := IndexByte(s[1..], sep);
      assert s[0] == s[k + 1] == sep;
    } else {
      ManyPartsManySeparators(s[1..], sep);
      var i, j :| 0 <= i < j < |s[1..]| && s[1..][i] == s[1..][j] == sep;
      assert s[i + 1] == s[j + 1] == sep;
    }
  }

  /** An IPv6 text has hex digits, dots and colons only, and at least two colons. */
  lemma IPv6Text(s: string)
    requires IsIPv6(s)
    ensures AddressText(s)
    ensures exists i, j :: 0 <= i < j < |s| && s[i] == s[j] == ':'
  {
    var e := EllipsisIndex(s);
    if e < 0 {
      PiecesText(s, true);
      ManyPartsManySeparators(s, ':');
    } else {
      PiecesText(s[..e], false);
      PiecesText(s[e + 2..], true);
      assert s == s[..e] + "::" + s[e + 2..];
      assert s[e] == s[e + 1] == ':';
    }
  }

  // ----- IsDNS1123Subdomain

  const SUBDOMAIN_MAX_LENGTH: nat := 253

  predicate LowerAlnum(c: char) {
    'a' <= c <= 'z' || Digit(c)
  }

  predicate Label(s: string) {
    && s != "" && LowerAlnum(s[0]) && LowerAlnum(s[|s| - 1])
    && forall i :: 0 <= i < |s| ==> LowerAlnum(s[i]) || s[i] == '-'
  }

  predicate IsDNS1123Subdomain(s: string) {
    var labels := Split(s, '.');
    |s| <= SUBDOMAIN_MAX_LENGTH && forall i :: 0 <= i < |labels| ==> Label(labels[i])
  }

  predicate DomainChar(c: char) {
    LowerAlnum(c) || c == '-' || c == '.'
  }

  lemma SubdomainText(s: string)
    requires IsDNS1123Subdomain(s)
    ensures s != "" && forall c :: c in s ==> DomainChar(c)
  {
    forall c | c in s
      ensures DomainChar(c)
    {
      if c != '.' {
        SplitCovers(s, '.', c);
      }
    }
    assert Label(Split(s, '.')[0]);
  }
}
