/** Validation of a bundle of CA certificates in PEM format (validateCACertificates). */
module CACertificates {
  import opened GoStrings

  datatype Block = Block(bytes: string)

  /** pem.Decode and x509.ParseCertificate are foreign. Decoding finds the next block and returns what follows it. */
  datatype Decoder = Decoder(pem: string -> Option<(Block, string)>, certificate: Block -> bool)

  /** The rest after a block is shorter than the input (section 2 of RFC 7468: a block has a begin and an end line). */
  ghost predicate Consumes(d: Decoder) {
    forall data :: d.pem(data).Some? ==> |d.pem(data).value.1| < |data|
  }

  predicate Space(c: char) {
    c == ' ' || c == '\t' || c == '\n' || c == '\r' || c == 11 as char || c == 12 as char
  }

  /** strings.TrimSpace on ASCII text. */
  function TrimLeft(s: string): string {
    if s != "" && Space(s[0]) then TrimLeft(s[1..]) else s
  }

  function TrimRight(s: string): string {
    if s != "" && Space(s[|s| - 1]) then TrimRight(s[..|s| - 1]) else s
  }

  function TrimSpace(s: string): string {
    TrimRight(TrimLeft(s))
  }

  predicate Blank(s: string) {
    forall i :: 0 <= i < |s| ==> Space(s[i])
  }

  predicate WhiteSpace(c: char) {
    c in {' ', '\t', '\n', '\r', 11 as char, 12 as char}
  }

  /** t is s without the white space at its ends. */
  predicate Trimmed(s: string, before: string, t: string, after: string) {
    && s == before + t + after
    && (forall i :: 0 <= i < |before| ==> WhiteSpace(before[i]))
    && (forall i :: 0 <= i < |after| ==> WhiteSpace(after[i]))
    && (t != "" ==> !WhiteSpace(t[0]) && !WhiteSpace(t[|t| - 1]))
  }

  lemma {:induction false} TrimLeftIs(s: string) returns (before: string)
    ensures s == before + TrimLeft(s) && Blank(before) && (TrimLeft(s) != "" ==> !Space(TrimLeft(s)[0]))
  {
    before := "";
    if s != "" && Space(s[0]) {
      before := TrimLeftIs(s[1..]);
      before := [s[0]] + before;
    }
  }

  lemma {:induction false} TrimRightIs(s: string) returns (after: string)
    ensures s == TrimRight(s) + after && Blank(after)
    ensures TrimRight(s) != "" ==> !Space(TrimRight(s)[|TrimRight(s)| - 1])
    ensures TrimRight(s) <= s
  {
    after := "";
    if s != "" && Space(s[|s| - 1]) {
      after := TrimRightIs(s[..|s| - 1]);
      after := after + [s[|s| - 1]];
    }
  }

  lemma TrimSpaceIs(s: string) returns (before: string, after: string)
    ensures Trimmed(s, before, TrimSpace(s), after)
  {
    hide TrimLeft, TrimRight;
    before := TrimLeftIs(s);
    after := TrimRightIs(TrimLeft(s));
    assert before + (TrimSpace(s) + after) == before + TrimSpace(s) + after;
  }

  /** White space around a text makes no difference. */
  lemma SurroundingSpace(before: string, s: string, after: string)
    requires Blank(before) && Blank(after)
    ensures TrimSpace(before + s + after) == TrimSpace(s)
  {
    hide Blank;
    assert before + s + after == before + (s + after);
    LeadingSpace(before, s + after);
    SpaceBehind(s, after);
    if TrimLeft(s) != "" {
      TrailingSpace(TrimLeft(s), after);
    }
  }

  lemma {:induction false} LeadingSpace(before: string, s: string)
    requires Blank(before)
    ensures TrimLeft(before + s) == TrimLeft(s)
  {
    if before == "" {
      assert before + s == s;
    } else {
      assert (before + s)[1..] == before[1..] + s;
      LeadingSpace(before[1..], s);
    }
  }

  lemma {:induction false} SpaceBehind(s: string, after: string)
    requires Blank(after)
    ensures TrimLeft(s + after) == if TrimLeft(s) == "" then "" else TrimLeft(s) + after
  {
    if s == "" {
      assert s + after == after + "";
      LeadingSpace(after, "");
    } else if Space(s[0]) {
      assert (s + after)[1..] == s[1..] + after;
      SpaceBehind(s[1..], after);
    }
  }

  lemma {:induction false} TrailingSpace(s: string, after: string)
    requires Blank(after)
    ensures TrimRight(s + after) == TrimRight(s)
  {
    if after == "" {
      assert s + after == s;
    } else {
      var n := |after| - 1;
      assert (s + after)[..|s + after| - 1] == s + after[..n];
      TrailingSpace(s, after[..n]);
    }
  }

  datatype CertError = NotPEM | NotACertificate

  datatype Step = Ok(rest: string) | Err(error: CertError)

  /** validateCertificate */
  method ValidateCertificate(d: Decoder, data: string) returns (r: Step)
    ensures data == "" ==> r == Ok("")
    ensures data != "" && d.pem(data).None? ==> r == Err(NotPEM)
    ensures data != "" && d.pem(data).Some? ==>
      r == if d.certificate(d.pem(data).value.0) then Ok(d.pem(data).value.1) else Err(NotACertificate)
  {
    if |data| == 0 {
      return Ok("");
    }
    var decoded := d.pem(data);
    if decoded.None? {
      return Err(NotPEM);
    }
    var (block, rest) := decoded.value;
    if !d.certificate(block) {
      return Err(NotACertificate);
    }
    return Ok(rest);
  }

  /** The blocks are what decoding finds in the data one after the other, and nothing is left after them. */
  ghost predicate Decodes(d: Decoder, data: string, blocks: seq<Block>)
    decreases |blocks|
  {
    if blocks == [] then data == ""
    else
      data != "" && d.pem(data).Some? && d.pem(data).value.0 == blocks[0]
      && Decodes(d, d.pem(data).value.1, blocks[1..])
  }

  /** The data is a series of certificates. */
  ghost predicate Bundle(d: Decoder, data: string) {
    exists blocks :: Decodes(d, data, blocks) && forall i :: 0 <= i < |blocks| ==> d.certificate(blocks[i])
  }

  /** One certificate at the beginning decides for the rest. */
  lemma BundleStep(d: Decoder, data: string)
    requires data != ""
    ensures Bundle(d, data) <==>
      d.pem(data).Some? && d.certificate(d.pem(data).value.0) && Bundle(d, d.pem(data).value.1)
  {
    if Bundle(d, data) {
      var blocks :| Decodes(d, data, blocks) && forall i :: 0 <= i < |blocks| ==> d.certificate(blocks[i]);
      assert Decodes(d, d.pem(data).value.1, blocks[1..]);
    }
    if d.pem(data).Some? && d.certificate(d.pem(data).value.0) && Bundle(d, d.pem(data).value.1) {
      var rest :| Decodes(d, d.pem(data).value.1, rest) && forall i :: 0 <= i < |rest| ==> d.certificate(rest[i]);
      var blocks := [d.pem(data).value.0] + rest;
      assert blocks[1..] == rest;
      assert Decodes(d, data, blocks);
    }
  }

  lemma EmptyBundle(d: Decoder)
    ensures Bundle(d, "")
  {
    assert Decodes(d, "", []);
  }

  lemma TrimmedOnce(d: Decoder, s: string)
    ensures Bundle(d, TrimSpace(s)) <==> exists before, t, after :: Trimmed(s, before, t, after) && Bundle(d, t)
  {
    hide Bundle, TrimSpace;
    var before, after := TrimSpaceIs(s);
    forall b, t, a | Trimmed(s, b, t, a)
      ensures TrimSpace(s) == t
    {
      SurroundingSpace(b, t, a);
      AlreadyTrimmed(t);
    }
  }

  lemma AlreadyTrimmed(t: string)
    requires t != "" ==> !WhiteSpace(t[0]) && !WhiteSpace(t[|t| - 1])
    ensures TrimSpace(t) == t
  {
  }

  /** validateCACertificates ends on every input, and accepts exactly the series of certificates, in any white space. */
  method ValidateCACertificates(d: Decoder, caCertificates: string) returns (err: Option<CertError>)
    requires Consumes(d)
    ensures err.None? <==> Bundle(d, TrimSpace(caCertificates))
    ensures err.None? <==> exists before, t, after :: Trimmed(caCertificates, before, t, after) && Bundle(d, t)
  {
    hide TrimSpace;
    TrimmedOnce(d, caCertificates);
    var data := TrimSpace(caCertificates);
    while |data| > 0
      invariant Bundle(d, data) <==> Bundle(d, TrimSpace(caCertificates))
      decreases |data|
    {
      BundleStep(d, data);
      var step := ValidateCertificate(d, data);
      if step.Err? {
        return Some(step.error);
      }
      data := step.rest;
    }
    EmptyBundle(d);
    return None;
  }

  /** The blocks of a bundle are determined by the data. */
  lemma {:induction false} BlocksUnique(d: Decoder, data: string, a: seq<Block>, b: seq<Block>)
    requires Decodes(d, data, a) && Decodes(d, data, b)
    ensures a == b
    decreases |a|
  {
    if a != [] && b != [] {
      BlocksUnique(d, d.pem(data).value.1, a[1..], b[1..]);
      assert a == [a[0]] + a[1..] && b == [b[0]] + b[1..];
    }
  }
}
