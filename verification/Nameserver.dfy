/** The nameserver language of pkg/apis/config/validation: an IP address or a domain name with an optional port. */
module Nameserver {
  import opened GoStrings
  import opened AddressForms
  import opened NetAddr

  datatype NameserverError =
    | NoAddress(server: string)
    | NoHost(host: string)
    | NoPort(port: string)
    | PortOutOfRange(port: string)

  // ----- the grammar

  predicate AllDigitsAndDots(s: string) {
    forall c :: c in s ==> Digit(c) || c == '.'
  }

  /** A lower-case DNS name, with one optional trailing dot, that does not look like a truncated IPv4 address. */
  predicate DomainName(s: string) {
    IsDNS1123Subdomain(TrimSuffix(s, ".")) && !AllDigitsAndDots(s)
  }

  predicate Host(s: string) {
    IsIP(s) || DomainName(s)
  }

  /** Decimal digits, possibly after a plus sign, with a value of at least 1 and at most 65535. */
  predicate PortNumber(p: string) {
    var digits := if p != "" && p[0] == '+' then p[1..] else p;
    digits != "" && Digits(digits) && 1 <= DigitsValue(digits) <= 65535
  }

  predicate BracketedIP(s: string) {
    |s| >= 2 && s[0] == '[' && s[|s| - 1] == ']' && IsIP(s[1..|s| - 1])
  }

  ghost predicate HostWithPort(s: string) {
    exists h, p :: Free(h, ':') && s == h + ":" + p && Host(h) && PortNumber(p)
  }

  ghost predicate BracketedHostWithPort(s: string) {
    exists h, p :: s == "[" + h + "]:" + p && Host(h) && PortNumber(p)
  }

  /** The language of nameservers. */
  ghost predicate IsNameserver(s: string) {
    Host(s) || BracketedIP(s) || HostWithPort(s) || BracketedHostWithPort(s)
  }

  // ----- the same language, as the texts that are built from numbers, groups and labels

  /** Labels with an optional dot at the end, and some char that is neither a digit nor a dot. */
  ghost predicate DomainForm(s: string) {
    && (exists base :: DottedLabels(base) && (s == base || s == base + "."))
    && exists i :: 0 <= i < |s| && s[i] !in "0123456789."
  }

  ghost predicate HostForm(s: string) {
    DottedQuad(s) || ColonHex(s) || DomainForm(s)
  }

  ghost predicate PortForm(p: string) {
    exists n: nat :: 1 <= n <= 65535 && NumberText(p, n)
  }

  /** A host; an IP address in brackets; a host with a port, in brackets or not, where IPv6 addresses need them. */
  ghost predicate NameserverForm(s: string) {
    || HostForm(s)
    || (exists ip :: (DottedQuad(ip) || ColonHex(ip)) && s == "[" + ip + "]")
    || (exists h, p :: HostForm(h) && !ColonHex(h) && PortForm(p) && s == h + ":" + p)
    || (exists h, p :: HostForm(h) && PortForm(p) && s == "[" + h + "]:" + p)
  }

  lemma DigitOrDot(c: char)
    ensures Digit(c) || c == '.' <==> c in "0123456789."
  {
    var s := "0123456789.";
    if Digit(c) {
      assert s[c as int - '0' as int] == c;
    } else if c == '.' {
      assert s[10] == c;
    }
  }

  lemma DigitsAndDotsExactly(s: string)
    ensures AllDigitsAndDots(s) <==> forall i :: 0 <= i < |s| ==> s[i] in "0123456789."
  {
    forall i | 0 <= i < |s|
      ensures Digit(s[i]) || s[i] == '.' <==> s[i] in "0123456789."
    {
      DigitOrDot(s[i]);
    }
  }

  /** Labels do not end with a dot, so an optional dot can be told apart. */
  lemma LabelsEndWithoutDot(s: string)
    requires DottedLabels(s)
    ensures s != "" && TrimSuffix(s, ".") == s && TrimSuffix(s + ".", ".") == s
  {
    hide Join, LabelText;
    var labels :| labels != [] && AllLabels(labels) && s == Join(labels, '.');
    LastLabel(labels);
  }

  lemma {:induction false} LastLabel(labels: seq<string>)
    requires labels != [] && AllLabels(labels)
    ensures var s := Join(labels, '.'); s != "" && s[|s| - 1] != '.'
  {
    if |labels| == 1 {
      LabelFree(labels[0]);
    } else {
      LastLabel(labels[1..]);
    }
  }

  lemma DomainExactly(s: string)
    ensures DomainName(s) <==> DomainForm(s)
  {
    hide IsDNS1123Subdomain, DottedLabels, AllDigitsAndDots;
    DigitsAndDotsExactly(s);
    var base := TrimSuffix(s, ".");
    SubdomainExactly(base);
    assert s == base || s == base + ".";
    if b :| DottedLabels(b) && (s == b || s == b + ".") {
      LabelsEndWithoutDot(b);
    }
  }

  lemma HostExactly(s: string)
    ensures Host(s) <==> HostForm(s)
    ensures IsIP(s) <==> DottedQuad(s) || ColonHex(s)
  {
    hide IsIPv4, IsIPv6, DomainName, DottedQuad, ColonHex, DomainForm;
    IPv4Exactly(s);
    IPv6Exactly(s);
    DomainExactly(s);
  }

  lemma FormOfPort(p: string)
    requires PortNumber(p)
    ensures PortForm(p)
  {
    hide NatText, Zeros, Digit;
    var signed := p[0] == '+';
    var digits := if signed then p[1..] else p;
    var k := WithoutZeros(digits);
    var n: nat := DigitsValue(digits);
    assert signed ==> p == "+" + Zeros(k) + NatText(n);
    assert NumberText(p, n);
  }

  lemma PortOfForm(p: string, k: nat, n: nat)
    requires 1 <= n <= 65535 && (p == Zeros(k) + NatText(n) || p == "+" + Zeros(k) + NatText(n))
    ensures PortNumber(p)
  {
    hide NatText, Zeros;
    ZerosValue(k, NatText(n));
    var digits := Zeros(k) + NatText(n);
    assert Digit(digits[0]);
    if p != digits {
      assert p == "+" + digits && p[1..] == digits;
    }
  }

  lemma PortExactly(p: string)
    ensures PortNumber(p) <==> PortForm(p)
  {
    hide NatText, Zeros, PortNumber;
    if PortNumber(p) {
      FormOfPort(p);
    }
    if n: nat :| 1 <= n <= 65535 && NumberText(p, n) {
      var k: nat :| p == Zeros(k) + NatText(n) || p == "+" + Zeros(k) + NatText(n);
      PortOfForm(p, k, n);
    }
  }

  /** The language of nameservers is the set of those texts. */
  lemma NameserverExactly(s: string)
    ensures IsNameserver(s) <==> NameserverForm(s)
  {
    hide IsIP, Host, DottedQuad, ColonHex, DomainForm, HostForm, PortForm, PortNumber;
    HostExactly(s);
    if IsNameserver(s) {
      FormOfNameserver(s);
    }
    if ip :| (DottedQuad(ip) || ColonHex(ip)) && s == "[" + ip + "]" {
      HostExactly(ip);
      assert s[1..|s| - 1] == ip;
    }
    if h, p :| HostForm(h) && !ColonHex(h) && PortForm(p) && s == h + ":" + p {
      HostExactly(h);
      PortExactly(p);
      IPv6Exactly(h);
      HostColon(h);
      assert HostWithPort(s);
    }
    if h, p :| HostForm(h) && PortForm(p) && s == "[" + h + "]:" + p {
      HostExactly(h);
      PortExactly(p);
      assert BracketedHostWithPort(s);
    }
  }

  lemma FormOfNameserver(s: string)
    requires IsNameserver(s)
    ensures NameserverForm(s)
  {
    hide IsIP, Host, DottedQuad, ColonHex, DomainForm, HostForm, PortForm, PortNumber;
    if Host(s) {
      HostExactly(s);
    } else if BracketedIP(s) {
      var ip := s[1..|s| - 1];
      HostExactly(ip);
      assert s == "[" + ip + "]";
    } else if HostWithPort(s) {
      var h, p :| Free(h, ':') && s == h + ":" + p && Host(h) && PortNumber(p);
      HostExactly(h);
      PortExactly(p);
      IPv6Exactly(h);
      HostColon(h);
    } else {
      var h, p :| s == "[" + h + "]:" + p && Host(h) && PortNumber(p);
      HostExactly(h);
      PortExactly(p);
    }
  }

  lemma PortNeedsColon(s: string)
    ensures HostWithPort(s) ==> ':' in s
    ensures BracketedHostWithPort(s) ==> '[' in s
    ensures BracketedIP(s) ==> '[' in s
  {
    if HostWithPort(s) {
      var h, p :| s == h + ":" + p;
      assert s[|h|] == ':';
    }
    if BracketedHostWithPort(s) {
      var h, p :| s == "[" + h + "]:" + p;
      assert s[0] == '[';
    }
  }

  /** Digits and dots that are no dotted quad are refused. */
  lemma NoTruncatedAddress(s: string)
    requires (forall i :: 0 <= i < |s| ==> s[i] in "0123456789.") && !DottedQuad(s)
    ensures !IsNameserver(s)
  {
    hide DottedQuad, DottedLabels, IsIP, DomainName, HostWithPort, BracketedHostWithPort, BracketedIP, ColonHex;
    DigitsAndDotsExactly(s);
    HostExactly(s);
    DomainExactly(s);
    forall i | 0 <= i < |s|
      ensures s[i] != ':' && s[i] != '['
    {
      DigitOrDot(s[i]);
    }
    PortNeedsColon(s);
    IPv6Exactly(s);
    assert !IsIPv6(s) by {
      if IsIPv6(s) {
        IPv6Text(s);
      }
    }
  }

  // ----- the chars of the pieces

  predicate HostChar(c: char) {
    AddressChar(c) || DomainChar(c)
  }

  lemma HostText(h: string)
    requires Host(h)
    ensures h != "" && forall c :: c in h ==> HostChar(c)
    ensures NoBrackets(h) && Free(h, ',')
  {
    if IsIPv4(h) {
      IPv4Text(h);
    } else if IsIPv6(h) {
      IPv6Text(h);
    } else {
      var t := TrimSuffix(h, ".");
      SubdomainText(t);
      assert h == t || h == t + ".";
    }
  }

  /** Of the hosts, exactly the IPv6 addresses contain a colon. */
  lemma HostColon(h: string)
    requires Host(h)
    ensures !IsIPv6(h) ==> Free(h, ':')
    ensures IsIPv6(h) ==> exists i, j :: 0 <= i < j < |h| && h[i] == h[j] == ':'
  {
    if IsIPv6(h) {
      IPv6Text(h);
    } else if IsIPv4(h) {
      IPv4Text(h);
    } else {
      var t := TrimSuffix(h, ".");
      SubdomainText(t);
      assert h == t || h == t + ".";
    }
  }

  lemma PortText(p: string)
    requires PortNumber(p)
    ensures p != "" && NoBrackets(p) && Free(p, ':') && Free(p, ',')
  {
    if p[0] == '+' {
      assert p == "+" + p[1..];
    }
  }

  /** strconv.Atoi followed by the range check accepts exactly the port numbers of the grammar. */
  lemma AtoiPort(p: string)
    ensures PortNumber(p) <==> Atoi(p).Some? && 1 <= Atoi(p).value <= 65535
  {
    if p != "" && p[0] == '-' {
      assert !Digit(p[0]);
    }
  }

  // ----- the validator

  /** ValidateNameserver: no error exactly for the texts that are built as nameservers. The error says what is wrong. */
  method ValidateNameserver(server: string) returns (err: Option<NameserverError>)
    ensures err == None <==> NameserverForm(server)
    ensures err == None <==> IsNameserver(server)
    ensures forall s :: err == Some(NoAddress(s)) ==>
      s == server && HasPrefix(server, "[") && !BracketedIP(server) && forall h, p :: !Endpoint(server, h, p)
    ensures forall h :: err == Some(NoHost(h)) ==>
      !Host(h) && (h == server || exists p :: Endpoint(server, h, p))
    ensures forall p :: err == Some(NoPort(p)) ==> Atoi(p) == None && exists h :: Endpoint(server, h, p) && Host(h)
    ensures forall p :: err == Some(PortOutOfRange(p)) ==>
      Atoi(p).Some? && !(1 <= Atoi(p).value <= 65535) && exists h :: Endpoint(server, h, p) && Host(h)
  {
    hide DottedQuad, ColonHex, DomainForm, PortForm, NameserverForm, IsIPv4, IsIPv6, IsDNS1123Subdomain,
      AllDigitsAndDots, SplitHostPort;
    NameserverExactly(server);
    var host, port := "", "";
    var hostport := SplitHostPort(server);
    if hostport.Some? {
      host, port := hostport.value.0, hostport.value.1;
      SplitHostPortReads(server, host, port);
    } else {
      forall h, p ensures !Endpoint(server, h, p) {
        SplitHostPortReads(server, h, p);
      }
      if HasPrefix(server, "[") {
        var inner := TrimSuffix(server[1..], "]");
        if !HasSuffix(server, "]") || !IsIP(inner) {
          BracketForm(server);
          PortForms(server);
          NoBareBracket(server);
          return Some(NoAddress(server));
        }
        host := inner;
      } else {
        host := server;
      }
      port := "53";
      assert PortNumber(port) by {
        assert port[..1] == "5" && "5"[..0] == "";
      }
    }
    Language(server, hostport, host, port);
    if !IsIP(host) {
      if !IsDNS1123Subdomain(TrimSuffix(host, ".")) || AllDigitsAndDots(host) {
        return Some(NoHost(host));
      }
    }
    AtoiPort(port);
    var n := Atoi(port);
    if n.None? {
      return Some(NoPort(port));
    }
    if n.value < 1 || n.value > 65535 {
      return Some(PortOutOfRange(port));
    }
    return None;
  }

  lemma BracketForm(s: string)
    requires HasPrefix(s, "[")
    ensures BracketedIP(s) <==> HasSuffix(s, "]") && IsIP(TrimSuffix(s[1..], "]"))
  {
    assert s[0] == '[';
    hide IsIP;
    assert HasSuffix(s, "]") <==> |s| >= 2 && s[|s| - 1] == ']';
    if HasSuffix(s, "]") {
      assert HasSuffix(s[1..], "]");
      assert TrimSuffix(s[1..], "]") == s[1..|s| - 1];
    }
  }

  lemma NoBareBracket(s: string)
    requires HasPrefix(s, "[")
    ensures !Host(s)
  {
    assert s[0] == '[';
    if Host(s) {
      HostText(s);
    }
  }

  /** The forms with a port are the endpoints whose parts are a host and a port. */
  lemma PortForms(s: string)
    ensures HostWithPort(s) || BracketedHostWithPort(s)
       <==> exists h, p :: Endpoint(s, h, p) && Host(h) && PortNumber(p)
  {
    hide Host, PortNumber;
    forall h, p | Host(h) && PortNumber(p)
      ensures NoBrackets(h) && NoBrackets(p) && Free(p, ':')
    {
      HostText(h);
      PortText(p);
    }
  }

  lemma OneColon(h: string, p: string, i: nat, j: nat)
    requires Free(h, ':') && Free(p, ':') && i < j <= |h| + |p|
    ensures !((h + ":" + p)[i] == (h + ":" + p)[j] == ':')
  {
    var s := h + ":" + p;
    assert i < |h| ==> s[i] == h[i];
    assert j > |h| ==> s[j] == p[j - |h| - 1];
  }

  /** An endpoint is neither a bare host nor a bracketed IP. */
  lemma EndpointIsNotBare(s: string, h: string, p: string)
    requires Endpoint(s, h, p)
    ensures !Host(s) && !BracketedIP(s)
  {
    if s == h + ":" + p && Free(h, ':') {
      forall i: nat, j: nat | i < j < |s|
        ensures !(s[i] == s[j] == ':')
      {
        OneColon(h, p, i, j);
      }
      assert s[|h|] == ':';
      if Host(s) {
        HostColon(s);
      }
      assert s[0] != '[';
    } else {
      assert s[0] == '[' && s[|h| + 1] == ']' && s[|h| + 2] == ':';
      if Host(s) {
        HostText(s);
      }
    }
  }

  /** The host and the port that ValidateNameserver settles on decide. */
  lemma Language(server: string, hostport: Option<(string, string)>, host: string, port: string)
    requires hostport == SplitHostPort(server)
    requires match hostport {
      case Some(parts) => host == parts.0 && port == parts.1
      case None => PortNumber(port) &&
        if HasPrefix(server, "[") then HasSuffix(server, "]") && IsIP(host) && host == TrimSuffix(server[1..], "]")
        else host == server
    }
    ensures IsNameserver(server) <==> Host(host) && PortNumber(port)
  {
    forall h, p
      ensures Endpoint(server, h, p) <==> hostport == Some((h, p))
    {
      SplitHostPortReads(server, h, p);
    }
    PortForms(server);
    if hostport.Some? {
      EndpointIsNotBare(server, host, port);
    } else if HasPrefix(server, "[") {
      BracketForm(server);
    }
  }

  // ----- laws of the language

  lemma PortTextOf(n: int)
    requires 1 <= n <= 65535
    ensures PortNumber(Decimal(n))
  {
    AtoiDecimal(n);
    AtoiPort(Decimal(n));
  }

  /** A port can be appended to every host that is not an IPv6 address. */
  lemma AppendPort(h: string, n: int)
    requires Host(h) && !IsIPv6(h) && 1 <= n <= 65535
    ensures IsNameserver(h) && IsNameserver(h + ":" + Decimal(n))
  {
    HostColon(h);
    PortTextOf(n);
    assert HostWithPort(h + ":" + Decimal(n));
  }

  /** Bracketed, every host takes a port, names included; nothing else does. */
  lemma AppendPortBracketed(h: string, n: int)
    requires NoBrackets(h) && 1 <= n <= 65535
    ensures IsNameserver("[" + h + "]:" + Decimal(n)) <==> Host(h)
  {
    var p := Decimal(n);
    var s := "[" + h + "]:" + p;
    PortTextOf(n);
    PortText(p);
    SplitHostPortReads(s, h, p);
    Language(s, SplitHostPort(s), h, p);
  }

  /** Without a port, brackets are accepted around an IP address and around nothing else. */
  lemma BracketsAlone(h: string)
    ensures IsNameserver("[" + h + "]") <==> IsIP(h)
  {
    var s := "[" + h + "]";
    assert s[1..|s| - 1] == h;
    assert s[|s| - 1] == ']';
    NoBareBracket(s);
    PortForms(s);
    forall h', p | Endpoint(s, h', p)
      ensures !PortNumber(p)
    {
    }
  }

  /** To a bare IPv6 address no port can be appended: the colon is then part of the address or the string is refused. */
  lemma BareIPv6TakesNoPort(h: string, p: string)
    requires IsIPv6(h)
    ensures IsNameserver(h + ":" + p) <==> IsIPv6(h + ":" + p)
  {
    var s := h + ":" + p;
    HostText(h);
    IPv6Text(h);
    assert s[0] == h[0] && h[0] in h;
    var i, j :| 0 <= i < j < |h| && h[i] == h[j] == ':';
    assert s[i] == s[j] == ':';
    forall h', p' | Endpoint(s, h', p')
      ensures false
    {
      OneColonOf(s, h', p', i, j);
    }
    PortForms(s);
    if Host(s) {
      HostColon(s);
    }
  }

  lemma OneColonOf(s: string, h: string, p: string, i: nat, j: nat)
    requires Endpoint(s, h, p) && s != "" && s[0] != '[' && i < j < |s|
    ensures !(s[i] == s[j] == ':')
  {
    assert s[0] == ("[" + h + "]:" + p)[0] || s == h + ":" + p;
    OneColon(h, p, i, j);
  }

  lemma IPIsHost(h: string)
    ensures IsIP(h) ==> Host(h)
  {
  }

  /** No nameserver contains a comma. */
  lemma NoComma(s: string)
    requires IsNameserver(s)
    ensures Free(s, ',') && s != ""
  {
    hide Host, PortNumber, IsIP;
    if Host(s) {
      HostText(s);
    } else if BracketedIP(s) {
      var inner := s[1..|s| - 1];
      IPIsHost(inner);
      HostText(inner);
      assert s == "[" + inner + "]";
    } else {
      PortForms(s);
      var h, p :| Endpoint(s, h, p) && Host(h) && PortNumber(p);
      HostText(h);
      PortText(p);
    }
  }

  lemma LetterIsNameserver()
    ensures IsNameserver("a")
  {
    hide IsIP, DomainName;
    LetterIsDomain();
  }

  lemma LetterIsDomain()
    ensures DomainName("a")
  {
    hide IsDNS1123Subdomain, DottedLabels, LowerAlnum, Label, Split;
    var s := "a";
    LetterIsSubdomain();
    assert TrimSuffix(s, ".") == s;
    assert !AllDigitsAndDots(s) by {
      assert s[0] in s && s[0] == 'a';
    }
  }

  lemma LetterIsSubdomain()
    ensures IsDNS1123Subdomain("a")
  {
    hide Split;
    SplitFree("a", '.');
    assert LowerAlnum('a');
  }
}
