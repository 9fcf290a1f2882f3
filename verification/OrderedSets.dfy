/** First-occurrence deduplication, as done by loops that keep a set of what they have seen. */
module OrderedSets {

  function Dedup<T(==)>(s: seq<T>): (d: seq<T>) {
    if s == [] then []
    else
      var init := Dedup(s[..|s| - 1]);
      var x := s[|s| - 1];
      if x in init then init else init + [x]
  }

  predicate Distinct<T(==)>(s: seq<T>) {
    forall i, j :: 0 <= i < j < |s| ==> s[i] != s[j]
  }

  lemma DedupEmpty<T>()
    ensures Dedup<T>([]) == []
  {
  }

  lemma DedupSnoc<T>(s: seq<T>, x: T)
    ensures Dedup(s + [x]) == if x in Dedup(s) then Dedup(s) else Dedup(s) + [x]
  {
    assert (s + [x])[..|s|] == s;
  }

  /** The result has exactly the elements of the input, each once. */
  lemma {:induction false} DedupElements<T>(s: seq<T>)
    ensures Distinct(Dedup(s))
    ensures forall x :: x in Dedup(s) <==> x in s
    ensures s != [] ==> Dedup(s) != []
  {
    if s != [] {
      var n := |s| - 1;
      DedupElements(s[..n]);
      assert s == s[..n] + [s[n]];
    }
  }

  /** s[i] is where its value occurs for the first time. */
  predicate FirstAt<T(==)>(s: seq<T>, i: nat) {
    i < |s| && s[i] !in s[..i]
  }

  /** x occurs in s for the first time before y does. */
  ghost predicate Before(s: seq<string>, x: string, y: string) {
    exists a: nat, b: nat :: a < b && FirstAt(s, a) && FirstAt(s, b) && s[a] == x && s[b] == y
  }

  /** r has the elements of s, each once, in the order in which they occur for the first time. */
  ghost predicate FirstOccurrences(r: seq<string>, s: seq<string>) {
    && (forall x :: x in r <==> x in s)
    && forall i, j :: 0 <= i < j < |r| ==> r[i] != r[j] && Before(s, r[i], r[j])
  }

  lemma {:induction false} DedupFirst<T>(s: seq<T>) returns (at: seq<nat>)
    ensures |at| == |Dedup(s)| && forall i :: 0 <= i < |at| ==> FirstAt(s, at[i]) && Dedup(s)[i] == s[at[i]]
    ensures forall i, j :: 0 <= i < j < |at| ==> at[i] < at[j]
  {
    at := [];
    if s != [] {
      var n := |s| - 1;
      at := DedupFirst(s[..n]);
      DedupElements(s[..n]);
      forall i | 0 <= i < |at|
        ensures FirstAt(s, at[i])
      {
        assert s[..n][..at[i]] == s[..at[i]];
      }
      if s[n] !in Dedup(s[..n]) {
        at := at + [n];
      }
    }
  }

  lemma DedupIs(s: seq<string>)
    ensures FirstOccurrences(Dedup(s), s)
  {
    hide Dedup, FirstAt;
    DedupElements(s);
    var at := DedupFirst(s);
    forall i, j | 0 <= i < j < |Dedup(s)|
      ensures Before(s, Dedup(s)[i], Dedup(s)[j])
    {
      FirstInOrder(s, at[i], at[j]);
    }
  }

  lemma FirstInOrder(s: seq<string>, a: nat, b: nat)
    requires a < b && FirstAt(s, a) && FirstAt(s, b)
    ensures Before(s, s[a], s[b])
  {
  }

  /** Elements keep the order of their first occurrences. */
  lemma {:induction false} DedupOrder<T>(s: seq<T>, i: nat, j: nat)
    requires i < j && FirstAt(s, i) && FirstAt(s, j)
    ensures exists a, b :: 0 <= a < b < |Dedup(s)| && Dedup(s)[a] == s[i] && Dedup(s)[b] == s[j]
  {
    var n := |s| - 1;
    DedupElements(s[..n]);
    var init := Dedup(s[..n]);
    assert s[..n][..i] == s[..i];
    if j == n {
      assert s[i] in s[..n];
      assert s[n] !in init;
      var a :| 0 <= a < |init| && init[a] == s[i];
      assert Dedup(s)[a] == s[i] && Dedup(s)[|init|] == s[j];
    } else {
      assert s[..n][..j] == s[..j];
      DedupOrder(s[..n], i, j);
      var a, b :| 0 <= a < b < |init| && init[a] == s[i] && init[b] == s[j];
      assert Dedup(s)[a] == s[i] && Dedup(s)[b] == s[j];
    }
  }

  lemma {:induction false} DedupDistinct<T>(s: seq<T>)
    requires Distinct(s)
    ensures Dedup(s) == s
  {
    if s != [] {
      var n := |s| - 1;
      DedupDistinct(s[..n]);
      assert s == s[..n] + [s[n]];
    }
  }

  /** What was already deduplicated can stand in for the original. */
  lemma {:induction false} DedupAbsorb<T>(s: seq<T>, t: seq<T>)
    ensures Dedup(Dedup(s) + t) == Dedup(s + t)
  {
    if t == [] {
      assert s + t == s && Dedup(s) + t == Dedup(s);
      DedupElements(s);
      DedupDistinct(Dedup(s));
    } else {
      var n := |t| - 1;
      DedupAbsorb(s, t[..n]);
      assert s + t == (s + t[..n]) + [t[n]];
      assert Dedup(s) + t == (Dedup(s) + t[..n]) + [t[n]];
      DedupSnoc(s + t[..n], t[n]);
      DedupSnoc(Dedup(s) + t[..n], t[n]);
    }
  }

  /** What adds nothing new changes nothing. */
  lemma {:induction false} DedupSubsumed<T>(s: seq<T>, t: seq<T>)
    requires forall x :: x in t ==> x in s
    ensures Dedup(s + t) == Dedup(s)
  {
    if t == [] {
      assert s + t == s;
    } else {
      var n := |t| - 1;
      DedupSubsumed(s, t[..n]);
      assert s + t == (s + t[..n]) + [t[n]];
      DedupSnoc(s + t[..n], t[n]);
      DedupElements(s);
    }
  }
}
