/** The texts of addresses, names and ports as they are built from their parts, and that the checks of NetAddr read
    exactly these. */
module AddressForms {
  import opened GoStrings
  import opened NetAddr

  // ----- decimal numbers

  lemma NatTextStep(high: nat, low: nat)
    requires high > 0 && low < 10
    ensures NatText(high * 10 + low) == NatText(high) + [low as char + '0']
  {
    var n := high * 10 + low;
    assert n / 10 == high && n % 10 == low;
  }

  /** Decimal texts without leading zeros are those that printing gives. */
  lemma {:induction false} Canonical(t: string)
    requires t != "" && Digits(t) && (t[0] == '0' ==> |t| == 1)
    ensures NatText(DigitsValue(t)) == t
  {
    hide NatText;
    var n := |t| - 1;
    assert t == t[..n] + [t[n]];
    if n == 0 {
      OneDigit(t);
    } else {
      Canonical(t[..n]);
      Positive(t[..n]);
      NatTextStep(DigitsValue(t[..n]), (t[n] - '0') as nat);
    }
  }

  lemma OneDigit(t: string)
    requires |t| == 1 && Digits(t)
    ensures NatText(DigitsValue(t)) == t
  {
    assert t[..0] == "" && DigitsValue("") == 0;
  }

  lemma {:induction false} Positive(t: string)
    requires t != "" && Digits(t) && t[0] != '0'
    ensures DigitsValue(t) > 0
  {
    if |t| > 1 {
      Positive(t[..|t| - 1]);
    } else {
      assert t[..0] == "" && DigitsValue("") == 0;
    }
  }

  lemma {:induction false} NoLeadingZero(n: nat)
    ensures NatText(n)[0] == '0' <==> n == 0
  {
    if n >= 10 {
      NoLeadingZero(n / 10);
    }
  }

  lemma OctetExactly(t: string)
    ensures Octet(t) <==> exists n: nat :: n <= 255 && t == NatText(n)
  {
    if Octet(t) {
      Canonical(t);
    }
    if n: nat :| n <= 255 && t == NatText(n) {
      NoLeadingZero(n);
      OctetLength(n);
    }
  }

  lemma OctetLength(n: nat)
    requires n <= 255
    ensures |NatText(n)| <= 3 && (n == 0 ==> |NatText(n)| == 1)
  {
    if n >= 10 {
      assert |NatText(n)| == |NatText(n / 10)| + 1;
      if n >= 100 {
        assert |NatText(n / 10)| == |NatText(n / 10 / 10)| + 1;
        assert n / 10 / 10 < 10;
      }
    }
  }

  lemma {:induction false} DigitsFree(t: string, c: char)
    requires Digits(t) && !Digit(c)
    ensures Free(t, c)
  {
  }

  // ----- dotted quads

  /** Four numbers from 0 to 255, joined by dots. */
  ghost predicate DottedQuad(s: string) {
    exists a: nat, b: nat, c: nat, d: nat :: a <= 255 && b <= 255 && c <= 255 && d <= 255 && s == Quad(a, b, c, d)
  }

  function Quad(a: nat, b: nat, c: nat, d: nat): string {
    NatText(a) + "." + NatText(b) + "." + NatText(c) + "." + NatText(d)
  }

  lemma JoinFour(a: string, b: string, c: string, d: string, sep: char)
    ensures Join([a, b, c, d], sep) == a + [sep] + b + [sep] + c + [sep] + d
  {
    assert [a, b, c, d][1..] == [b, c, d] && [b, c, d][1..] == [c, d] && [c, d][1..] == [d];
    assert Join([d], sep) == d;
    assert Join([c, d], sep) == c + [sep] + d;
    assert Join([b, c, d], sep) == b + [sep] + (c + [sep] + d);
    assert Join([a, b, c, d], sep) == a + [sep] + (b + [sep] + (c + [sep] + d));
  }

  lemma FourFields(s: string)
    requires IsIPv4(s)
    ensures DottedQuad(s)
  {
    hide Octet, Split, Join;
    var f := Split(s, '.');
    JoinSplit(s, '.');
    assert f == [f[0], f[1], f[2], f[3]];
    JoinFour(f[0], f[1], f[2], f[3], '.');
    OctetExactly(f[0]);
    OctetExactly(f[1]);
    OctetExactly(f[2]);
    OctetExactly(f[3]);
    var a: nat :| a <= 255 && f[0] == NatText(a);
    var b: nat :| b <= 255 && f[1] == NatText(b);
    var c: nat :| c <= 255 && f[2] == NatText(c);
    var d: nat :| d <= 255 && f[3] == NatText(d);
    assert s == Quad(a, b, c, d);
  }

  lemma OctetOf(n: nat)
    requires n <= 255
    ensures Octet(NatText(n)) && Free(NatText(n), '.')
  {
    OctetExactly(NatText(n));
    DigitsFree(NatText(n), '.');
  }

  lemma QuadIsIPv4(a: nat, b: nat, c: nat, d: nat)
    requires a <= 255 && b <= 255 && c <= 255 && d <= 255
    ensures IsIPv4(Quad(a, b, c, d))
  {
    hide Octet, Split, Join, NatText;
    var f := [NatText(a), NatText(b), NatText(c), NatText(d)];
    JoinFour(f[0], f[1], f[2], f[3], '.');
    OctetOf(a);
    OctetOf(b);
    OctetOf(c);
    OctetOf(d);
    SplitJoin(f, '.');
    assert Split(Quad(a, b, c, d), '.') == f;
  }

  /** The IPv4 texts are the dotted quads. */
  lemma IPv4Exactly(s: string)
    ensures IsIPv4(s) <==> DottedQuad(s)
  {
    hide IsIPv4, Quad;
    if IsIPv4(s) {
      FourFields(s);
    }
    if a: nat, b: nat, c: nat, d: nat :| a <= 255 && b <= 255 && c <= 255 && d <= 255 && s == Quad(a, b, c, d) {
      QuadIsIPv4(a, b, c, d);
    }
  }

  // ----- colon-separated groups

  /** One to four hex digits. */
  predicate HexText(t: string) {
    1 <= |t| <= 4 && forall i :: 0 <= i < |t| ==> t[i] in "0123456789abcdefABCDEF"
  }

  predicate AllHex(groups: seq<string>) {
    forall i :: 0 <= i < |groups| ==> HexText(groups[i])
  }

  /** Eight groups, or six and a dotted quad; or a "::" in the place of at least one group. */
  ghost predicate ColonHex(s: string) {
    || (exists g :: AllHex(g) && |g| == 8 && s == Join(g, ':'))
    || (exists g, q :: AllHex(g) && |g| == 6 && DottedQuad(q) && s == Join(g + [q], ':'))
    || (exists l, r :: AllHex(l) && AllHex(r) && |l| + |r| <= 7 && s == Join(l, ':') + "::" + Join(r, ':'))
    || (exists l, r, q :: AllHex(l) && AllHex(r) && |l| + |r| <= 5 && DottedQuad(q)
          && s == Join(l, ':') + "::" + Join(r + [q], ':'))
  }

  lemma HexDigitExactly(c: char)
    ensures HexDigit(c) <==> c in "0123456789abcdefABCDEF"
  {
    if HexDigit(c) {
      var s := "0123456789abcdefABCDEF";
      var i := if Digit(c) then c as int - '0' as int else if c >= 'a' then c as int - 'a' as int + 10
        else c as int - 'A' as int + 16;
      assert s[i] == c;
    }
  }

  lemma HexExactly(t: string)
    ensures HexGroup(t) <==> HexText(t)
  {
    hide HexDigit;
    forall i | 0 <= i < |t|
      ensures HexDigit(t[i]) <==> t[i] in "0123456789abcdefABCDEF"
    {
      HexDigitExactly(t[i]);
    }
  }

  lemma AllHexExactly(groups: seq<string>)
    ensures HexGroups(groups) <==> AllHex(groups)
  {
    hide HexGroup, HexText;
    forall i | 0 <= i < |groups|
      ensures HexGroup(groups[i]) <==> HexText(groups[i])
    {
      HexExactly(groups[i]);
    }
  }

  /** Neither a colon at an end, nor two in a row. */
  predicate Tidy(s: string) {
    s != "" && s[0] != ':' && s[|s| - 1] != ':' && forall i :: 0 <= i < |s| - 1 ==> !(s[i] == ':' && s[i + 1] == ':')
  }

  predicate Field(t: string) {
    t != "" && Free(t, ':')
  }

  predicate Fields(fields: seq<string>) {
    forall i :: 0 <= i < |fields| ==> Field(fields[i])
  }

  lemma {:induction false} JoinTidy(fields: seq<string>)
    requires fields != [] && Fields(fields)
    ensures Tidy(Join(fields, ':'))
  {
    var t := fields[0];
    assert Field(t) && forall i :: 0 <= i < |t| ==> t[i] in t;
    if |fields| > 1 {
      JoinTidy(fields[1..]);
      var rest := Join(fields[1..], ':');
      var s := t + [':'] + rest;
      forall i | 0 <= i < |s| - 1
        ensures !(s[i] == ':' && s[i + 1] == ':')
      {
        if i > |t| {
          assert s[i] == rest[i - |t| - 1] && s[i + 1] == rest[i - |t|];
        }
      }
    }
  }

  predicate PairAt(s: string, i: nat)
    requires i + 1 < |s|
  {
    s[i] == ':' && s[i + 1] == ':'
  }

  lemma {:induction false} EllipsisAt(s: string, n: nat)
    requires n + 1 < |s| && PairAt(s, n) && forall i :: 0 <= i < n ==> !PairAt(s, i)
    ensures EllipsisIndex(s) == n
  {
    if n > 0 {
      assert !PairAt(s, 0);
      forall i | 0 <= i < n - 1
        ensures !PairAt(s[1..], i)
      {
        assert !PairAt(s, i + 1);
      }
      EllipsisAt(s[1..], n - 1);
    }
  }

  lemma EllipsisIs(s: string, left: string, right: string)
    requires s == left + "::" + right && (left == "" || Tidy(left))
    ensures EllipsisIndex(s) == |left| && s[..|left|] == left && s[|left| + 2..] == right
  {
    var n := |left|;
    assert s[n] == ':' && s[n + 1] == ':';
    forall i | 0 <= i < n
      ensures !PairAt(s, i)
    {
      assert s[i] == left[i] && (i < n - 1 ==> s[i + 1] == left[i + 1]);
    }
    EllipsisAt(s, n);
  }

  lemma {:induction false} NoEllipsis(s: string)
    requires forall i :: 0 <= i < |s| - 1 ==> !PairAt(s, i)
    ensures EllipsisIndex(s) == -1
  {
    if |s| >= 2 {
      assert !PairAt(s, 0);
      forall i | 0 <= i < |s[1..]| - 1
        ensures !PairAt(s[1..], i)
      {
        assert !PairAt(s, i + 1);
      }
      NoEllipsis(s[1..]);
    }
  }

  lemma TidyHasNone(s: string)
    requires Tidy(s)
    ensures EllipsisIndex(s) == -1
  {
    NoEllipsis(s);
  }

  // ----- what the fields of an IPv6 text stand for

  lemma HexIsField(t: string)
    requires HexText(t)
    ensures Field(t) && Free(t, '.')
  {
    forall i | 0 <= i < |t|
      ensures t[i] != ':' && t[i] != '.'
    {
      HexDigitExactly(t[i]);
    }
  }

  lemma QuadIsField(q: string)
    requires DottedQuad(q)
    ensures Field(q) && !Free(q, '.')
  {
    IPv4Exactly(q);
    IPv4Text(q);
    if Free(q, '.') {
      SplitFree(q, '.');
    }
  }

  lemma HexFields(g: seq<string>)
    requires AllHex(g)
    ensures Fields(g)
  {
    forall i | 0 <= i < |g|
      ensures Field(g[i])
    {
      HexIsField(g[i]);
    }
  }

  lemma FieldsSplit(fields: seq<string>)
    requires fields != [] && Fields(fields)
    ensures Split(Join(fields, ':'), ':') == fields && Tidy(Join(fields, ':')) && Join(fields, ':') != ""
  {
    SplitJoin(fields, ':');
    JoinTidy(fields);
  }

  /** Groups stand for themselves, with or without a dotted quad at the end. */
  lemma PiecesOfGroups(g: seq<string>, mayEndDotted: bool)
    requires AllHex(g)
    ensures Pieces(Join(g, ':'), mayEndDotted) == Some(|g|)
    ensures g != [] ==> Tidy(Join(g, ':'))
  {
    hide Join, Split, HexGroups, Tidy;
    if g != [] {
      HexFields(g);
      FieldsSplit(g);
      AllHexExactly(g);
    } else {
      EmptyJoin();
    }
  }

  lemma EmptyJoin()
    ensures Join([], ':') == ""
  {
  }

  lemma PiecesOfQuad(g: seq<string>, q: string)
    requires AllHex(g) && DottedQuad(q)
    ensures Pieces(Join(g + [q], ':'), true) == Some(|g| + 2) && Tidy(Join(g + [q], ':'))
  {
    hide Join, Split, HexGroups, Tidy, IsIPv4, DottedQuad;
    var fields := g + [q];
    HexFields(g);
    QuadIsField(q);
    FieldsSplit(fields);
    AllHexExactly(fields);
    AllHexExactly(g);
    IPv4Exactly(q);
    assert fields[|g|] == q && fields[..|g|] == g;
    assert !HexText(q) by {
      if HexText(q) {
        HexIsField(q);
      }
    }
  }

  /** And nothing else does. */
  lemma GroupsOfPieces(s: string, mayEndDotted: bool) returns (g: seq<string>, q: Option<string>)
    requires Pieces(s, mayEndDotted).Some?
    ensures AllHex(g) && (q.Some? ==> mayEndDotted && DottedQuad(q.value))
    ensures s == Join(g + (if q.Some? then [q.value] else []), ':')
    ensures Pieces(s, mayEndDotted).value == |g| + if q.Some? then 2 else 0
  {
    hide Join, Split, HexGroups, IsIPv4, DottedQuad;
    g, q := [], None;
    if s == "" {
      EmptyJoin();
      assert g + [] == [];
    } else {
      var fields := Split(s, ':');
      var last := |fields| - 1;
      JoinSplit(s, ':');
      AllHexExactly(fields);
      if HexGroups(fields) {
        g := fields;
        assert g + [] == fields;
      } else {
        g, q := fields[..last], Some(fields[last]);
        AllHexExactly(g);
        IPv4Exactly(fields[last]);
        assert g + [fields[last]] == fields;
      }
    }
  }

  // ----- the IPv6 texts

  lemma ColonHexIsIPv6(l: seq<string>, r: seq<string>, q: Option<string>)
    requires AllHex(l) && AllHex(r) && (q.Some? ==> DottedQuad(q.value))
    requires |l| + |r| + (if q.Some? then 2 else 0) <= 7
    ensures IsIPv6(Join(l, ':') + "::" + Join(r + (if q.Some? then [q.value] else []), ':'))
  {
    hide Join, Pieces, Tidy, DottedQuad, AllHex;
    var right := r + if q.Some? then [q.value] else [];
    PiecesOfGroups(l, false);
    if q.Some? {
      PiecesOfQuad(r, q.value);
    } else {
      PiecesOfGroups(r, true);
      assert right == r;
    }
    if l == [] {
      EmptyJoin();
    }
    EllipsisIs(Join(l, ':') + "::" + Join(right, ':'), Join(l, ':'), Join(right, ':'));
  }

  lemma FullIsIPv6(g: seq<string>, q: Option<string>)
    requires AllHex(g) && (q.Some? ==> DottedQuad(q.value)) && |g| + (if q.Some? then 2 else 0) == 8
    ensures IsIPv6(Join(g + (if q.Some? then [q.value] else []), ':'))
  {
    hide Join, Pieces, DottedQuad, AllHex;
    if q.Some? {
      PiecesOfQuad(g, q.value);
      TidyHasNone(Join(g + [q.value], ':'));
    } else {
      PiecesOfGroups(g, true);
      TidyHasNone(Join(g, ':'));
      assert g + [] == g;
    }
  }

  lemma IPv6IsColonHex(s: string)
    requires IsIPv6(s)
    ensures ColonHex(s)
  {
    hide Join, Pieces, DottedQuad, AllHex;
    var e := EllipsisIndex(s);
    if e < 0 {
      var g, q := GroupsOfPieces(s, true);
      if q.Some? {
        assert AllHex(g) && |g| == 6 && DottedQuad(q.value) && s == Join(g + [q.value], ':');
      } else {
        assert g + [] == g;
        assert AllHex(g) && |g| == 8 && s == Join(g, ':');
      }
    } else {
      var l, none := GroupsOfPieces(s[..e], false);
      assert l + [] == l;
      var r, q := GroupsOfPieces(s[e + 2..], true);
      assert s == s[..e] + "::" + s[e + 2..];
      if q.Some? {
        assert s == Join(l, ':') + "::" + Join(r + [q.value], ':');
      } else {
        assert r + [] == r;
        assert s == Join(l, ':') + "::" + Join(r, ':');
      }
    }
  }

  /** The IPv6 texts are those forms. */
  lemma IPv6Exactly(s: string)
    ensures IsIPv6(s) <==> ColonHex(s)
  {
    hide Join, IsIPv6, DottedQuad, AllHex;
    if IsIPv6(s) {
      IPv6IsColonHex(s);
    }
    if g :| AllHex(g) && |g| == 8 && s == Join(g, ':') {
      FullIsIPv6(g, None);
      assert g + [] == g;
    }
    if g, q :| AllHex(g) && |g| == 6 && DottedQuad(q) && s == Join(g + [q], ':') {
      FullIsIPv6(g, Some(q));
    }
    if l, r :| AllHex(l) && AllHex(r) && |l| + |r| <= 7 && s == Join(l, ':') + "::" + Join(r, ':') {
      ColonHexIsIPv6(l, r, None);
      assert r + [] == r;
    }
    if l, r, q :| AllHex(l) && AllHex(r) && |l| + |r| <= 5 && DottedQuad(q)
                  && s == Join(l, ':') + "::" + Join(r + [q], ':') {
      ColonHexIsIPv6(l, r, Some(q));
    }
  }

  // ----- domain names

  /** Lower-case letters, digits and inner hyphens. */
  predicate LabelText(t: string) {
    && t != "" && t[0] != '-' && t[|t| - 1] != '-'
    && forall i :: 0 <= i < |t| ==> t[i] in "abcdefghijklmnopqrstuvwxyz" || t[i] in "0123456789" || t[i] == '-'
  }

  predicate AllLabels(labels: seq<string>) {
    forall i :: 0 <= i < |labels| ==> LabelText(labels[i])
  }

  /** Labels joined by dots, at most 253 chars. */
  ghost predicate DottedLabels(s: string) {
    |s| <= 253 && exists labels :: labels != [] && AllLabels(labels) && s == Join(labels, '.')
  }

  lemma LetterExactly(c: char)
    ensures 'a' <= c <= 'z' <==> c in "abcdefghijklmnopqrstuvwxyz"
  {
    var s := "abcdefghijklmnopqrstuvwxyz";
    if 'a' <= c <= 'z' {
      assert s[c as int - 'a' as int] == c;
    }
  }

  lemma DigitExactly(c: char)
    ensures Digit(c) <==> c in "0123456789"
  {
    var s := "0123456789";
    if Digit(c) {
      assert s[c as int - '0' as int] == c;
    }
  }

  lemma LabelExactly(t: string)
    ensures Label(t) <==> LabelText(t)
  {
    hide LowerAlnum;
    assert !LowerAlnum('-') by {
      HyphenIsNone();
    }
    forall i | 0 <= i < |t|
      ensures LowerAlnum(t[i]) <==> t[i] in "abcdefghijklmnopqrstuvwxyz" || t[i] in "0123456789"
    {
      AlnumExactly(t[i]);
    }
  }

  lemma AlnumExactly(c: char)
    ensures LowerAlnum(c) <==> c in "abcdefghijklmnopqrstuvwxyz" || c in "0123456789"
  {
    LetterExactly(c);
    DigitExactly(c);
  }

  lemma HyphenIsNone()
    ensures !LowerAlnum('-')
  {
  }

  lemma LabelFree(t: string)
    requires LabelText(t)
    ensures Free(t, '.')
  {
    forall i | 0 <= i < |t|
      ensures t[i] != '.'
    {
      AlnumExactly(t[i]);
    }
  }

  /** The subdomains of the name check are the labels joined by dots. */
  lemma SubdomainExactly(s: string)
    ensures IsDNS1123Subdomain(s) <==> DottedLabels(s)
  {
    hide Label, LabelText, Split, Join;
    if IsDNS1123Subdomain(s) {
      var labels := Split(s, '.');
      JoinSplit(s, '.');
      forall i | 0 <= i < |labels|
        ensures LabelText(labels[i])
      {
        LabelExactly(labels[i]);
      }
      assert AllLabels(labels);
    }
    if DottedLabels(s) {
      var labels :| labels != [] && AllLabels(labels) && s == Join(labels, '.');
      forall i | 0 <= i < |labels|
        ensures Label(labels[i]) && Free(labels[i], '.')
      {
        LabelExactly(labels[i]);
        LabelFree(labels[i]);
      }
      SplitJoin(labels, '.');
    }
  }

  // ----- port numbers

  function Zeros(k: nat): string {
    seq(k, _ => '0')
  }

  /** The number in decimal, with any zeros and possibly a plus sign in front. */
  ghost predicate NumberText(p: string, n: nat) {
    exists k: nat :: p == Zeros(k) + NatText(n) || p == "+" + Zeros(k) + NatText(n)
  }

  lemma {:induction false} ZerosValue(k: nat, t: string)
    requires Digits(t)
    ensures Digits(Zeros(k) + t) && DigitsValue(Zeros(k) + t) == DigitsValue(t)
    decreases |t|, k
  {
    var s := Zeros(k) + t;
    if t != "" {
      assert s[..|s| - 1] == Zeros(k) + t[..|t| - 1];
      ZerosValue(k, t[..|t| - 1]);
    } else if k > 0 {
      assert s == Zeros(k) && s[..|s| - 1] == Zeros(k - 1) + "";
      ZerosValue(k - 1, "");
    } else {
      assert s == "";
    }
  }

  lemma {:induction false} WithoutZeros(t: string) returns (k: nat)
    requires Digits(t) && DigitsValue(t) > 0
    ensures t == Zeros(k) + NatText(DigitsValue(t))
  {
    hide NatText, DigitsValue, Zeros;
    assert t != "" by {
      NoDigits();
    }
    if t[0] == '0' {
      OneZero(t);
      ZerosValue(1, t[1..]);
      k := WithoutZeros(t[1..]);
      ZeroBefore(k, NatText(DigitsValue(t)));
      k := k + 1;
    } else {
      Canonical(t);
      k := 0;
      ZeroBefore(0, t);
    }
  }

  lemma NoDigits()
    ensures DigitsValue("") == 0
  {
  }

  lemma OneZero(t: string)
    requires t != "" && t[0] == '0'
    ensures t == Zeros(1) + t[1..]
  {
  }

  lemma ZeroBefore(k: nat, t: string)
    ensures Zeros(k + 1) + t == Zeros(1) + (Zeros(k) + t)
    ensures Zeros(0) + t == t
  {
    assert Zeros(k + 1) == Zeros(1) + Zeros(k);
  }
}
