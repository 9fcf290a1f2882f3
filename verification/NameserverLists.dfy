/** Comma-separated nameserver lists: the two validators and the merge of the shoot's list with the default list. */
module NameserverLists {
  import opened GoStrings
  import opened OrderedSets
  import opened Nameserver

  /** A non-empty comma-separated list of nameservers. */
  ghost predicate IsNameserverList(s: string) {
    forall i :: 0 <= i < |Split(s, ',')| ==> IsNameserver(Split(s, ',')[i])
  }

  datatype ListError = EmptyList | BadItem(index: nat, server: string)

  /** The items that are no nameservers, in order, with their indices. */
  ghost function BadItems(items: seq<string>): (errs: seq<ListError>)
    ensures |errs| <= |items|
  {
    if items == [] then []
    else
      var n := |items| - 1;
      BadItems(items[..n]) + if IsNameserver(items[n]) then [] else [BadItem(n, items[n])]
  }

  lemma {:induction false} BadItemsExactly(items: seq<string>)
    ensures forall e :: e in BadItems(items) <==>
      e.BadItem? && e.index < |items| && e.server == items[e.index] && !IsNameserver(e.server)
    ensures forall i, j :: 0 <= i < j < |BadItems(items)| ==> BadItems(items)[i].index < BadItems(items)[j].index
  {
    hide IsNameserver;
    if items != [] {
      var n := |items| - 1;
      BadItemsExactly(items[..n]);
      assert items[..n] + [items[n]] == items;
      assert forall i :: 0 <= i < |BadItems(items[..n])| ==> BadItems(items[..n])[i] in BadItems(items[..n]);
    }
  }

  lemma NoBadItems(items: seq<string>)
    ensures BadItems(items) == [] <==> forall i :: 0 <= i < |items| ==> IsNameserver(items[i])
  {
    hide IsNameserver, BadItems;
    BadItemsExactly(items);
    if i :| 0 <= i < |items| && !IsNameserver(items[i]) {
      assert BadItem(i, items[i]) in BadItems(items);
    } else if BadItems(items) != [] {
      assert BadItems(items)[0] in BadItems(items);
    }
  }

  lemma BadItemsNext(items: seq<string>, i: nat)
    requires i < |items|
    ensures BadItems(items[..i + 1]) == BadItems(items[..i]) + if IsNameserver(items[i]) then []
      else [BadItem(i, items[i])]
  {
    hide IsNameserver;
    assert items[..i + 1][..i] == items[..i];
  }

  lemma OnlyEmptySplitsToEmpty(s: string)
    ensures |Split(s, ',')| == 1 && |Split(s, ',')[0]| == 0 <==> s == ""
  {
    JoinSplit(s, ',');
  }

  lemma EmptyIsNoNameserver()
    ensures !IsNameserver("")
  {
    if IsNameserver("") {
      NoComma("");
    }
  }

  /** The nameserver check of validateACME in the service configuration: one error for each bad item. */
  method ValidateACMEPrecheckNameservers(precheckNameservers: string) returns (errCount: nat)
    ensures errCount == 0 <==> IsNameserverList(precheckNameservers)
    ensures errCount == |BadItems(Split(precheckNameservers, ','))|
  {
    hide IsNameserver;
    errCount := 0;
    var servers := Split(precheckNameservers, ',');
    NoBadItems(servers);
    if |servers| == 1 && |servers[0]| == 0 {
      EmptyIsNoNameserver();
      errCount := 1;
    } else {
      for i := 0 to |servers|
        invariant errCount == |BadItems(servers[..i])|
      {
        BadItemsNext(servers, i);
        var err := ValidateNameserver(servers[i]);
        if err.Some? {
          errCount := errCount + 1;
        }
      }
      assert servers[..|servers|] == servers;
    }
  }

  /** What is wrong with a list: nothing if it is absent, that it is empty, or its bad items. */
  ghost function ListErrors(list: Option<string>): (errs: seq<ListError>) {
    if list.None? then []
    else if list.value == "" then [EmptyList]
    else BadItems(Split(list.value, ','))
  }

  /** validatePrecheckNameservers for a shoot: absent is fine; otherwise the errors name the bad items. */
  method ValidatePrecheckNameservers(precheckNameservers: Option<string>) returns (errs: seq<ListError>)
    ensures errs == [] <==> precheckNameservers.None? || IsNameserverList(precheckNameservers.value)
    ensures errs == ListErrors(precheckNameservers)
  {
    hide IsNameserver;
    errs := [];
    if precheckNameservers.Some? {
      var servers := Split(precheckNameservers.value, ',');
      NoBadItems(servers);
      OnlyEmptySplitsToEmpty(precheckNameservers.value);
      if |servers| == 1 && |servers[0]| == 0 {
        EmptyIsNoNameserver();
        errs := [EmptyList];
      } else {
        for i := 0 to |servers|
          invariant errs == BadItems(servers[..i])
        {
          BadItemsNext(servers, i);
          var err := ValidateNameserver(servers[i]);
          if err.Some? {
            errs := errs + [BadItem(i, servers[i])];
          }
        }
        assert servers[..|servers|] == servers;
      }
    }
  }

  // ----- mergeServers

  /** The items of all lists, one list after the other. */
  function Items(lists: seq<string>): seq<string> {
    if lists == [] then [] else Items(lists[..|lists| - 1]) + Split(lists[|lists| - 1], ',')
  }

  function Merge(lists: seq<string>): string {
    Join(Dedup(Items(lists)), ',')
  }

  method MergeServers(serversList: seq<string>) returns (result: string)
    ensures result == Merge(serversList)
  {
    hide Split, Dedup, Items;
    DedupEmpty<string>();
    ItemsNone();
    var existing: set<string> := {};
    var merged: seq<string> := [];
    for k := 0 to |serversList|
      invariant merged == Dedup(Items(serversList[..k]))
      invariant forall item :: item in existing <==> item in merged
    {
      var servers := Split(serversList[k], ',');
      ghost var before := Items(serversList[..k]);
      assert before + servers[..0] == before;
      for i := 0 to |servers|
        invariant merged == Dedup(before + servers[..i])
        invariant forall item :: item in existing <==> item in merged
      {
        var item := servers[i];
        DedupSnoc(before + servers[..i], item);
        assert before + servers[..i + 1] == before + servers[..i] + [item];
        if item !in existing {
          existing := existing + {item};
          merged := merged + [item];
        }
      }
      ItemsNext(serversList, k);
      assert servers[..|servers|] == servers;
    }
    assert serversList[..|serversList|] == serversList;
    result := Join(merged, ',');
  }

  lemma ItemsNone()
    ensures Items([]) == []
  {
  }

  lemma ItemsNext(lists: seq<string>, k: nat)
    requires k < |lists|
    ensures Items(lists[..k + 1]) == Items(lists[..k]) + Split(lists[k], ',')
  {
    assert lists[..k + 1][..k] == lists[..k];
  }

  lemma {:induction false} ItemsAppend(a: seq<string>, b: seq<string>)
    ensures Items(a + b) == Items(a) + Items(b)
  {
    if b == [] {
      assert a + b == a;
    } else {
      var n := |b| - 1;
      ItemsAppend(a, b[..n]);
      assert (a + b)[..|a + b| - 1] == a + b[..n];
    }
  }

  lemma {:induction false} ItemsFree(lists: seq<string>)
    ensures AllFree(Items(lists), ',')
    ensures lists != [] ==> Items(lists) != []
  {
    if lists != [] {
      var n := |lists| - 1;
      ItemsFree(lists[..n]);
      JoinSplit(lists[n], ',');
    }
  }

  /** Splitting the merged text gives the items of all lists, in the order of their first occurrences. */
  lemma SplitMerge(lists: seq<string>)
    requires lists != []
    ensures Split(Merge(lists), ',') == Dedup(Items(lists))
  {
    var items := Items(lists);
    ItemsFree(lists);
    DedupElements(items);
    forall i | 0 <= i < |Dedup(items)|
      ensures Free(Dedup(items)[i], ',')
    {
      assert Dedup(items)[i] in items;
    }
    SplitJoin(Dedup(items), ',');
  }

  lemma SplitMergeTwo(a: string, b: string)
    ensures FirstOccurrences(Split(Merge([a, b]), ','), Split(a, ',') + Split(b, ','))
  {
    hide Split, Join, Dedup, FirstOccurrences;
    SplitMerge([a, b]);
    assert [a, b] == [a] + [b];
    ItemsAppend([a], [b]);
    ItemsOne(a);
    ItemsOne(b);
    DedupIs(Split(a, ',') + Split(b, ','));
  }

  /** Merging in stages is merging at once; in particular a merged text merges to itself. */
  lemma MergeMerged(first: seq<string>, rest: seq<string>)
    requires first != []
    ensures Merge([Merge(first)] + rest) == Merge(first + rest)
    ensures Merge([Merge(first)]) == Merge(first)
  {
    var m := Merge(first);
    SplitMerge(first);
    assert [m][..0] == [] && Items([]) == [] && [] + Split(m, ',') == Split(m, ',');
    assert Items([m]) == Dedup(Items(first));
    ItemsAppend([m], rest);
    ItemsAppend(first, rest);
    DedupAbsorb(Items(first), Items(rest));
    assert Items(first) + [] == Items(first) && Items([m]) + [] == Items([m]);
    DedupAbsorb(Items(first), []);
  }

  lemma ItemsOne(s: string)
    ensures Items([s]) == Split(s, ',')
  {
    assert [s][..0] == [] && Items([]) + Split(s, ',') == Split(s, ',');
  }

  /** A list without repetitions is returned as it is, also when it is merged with itself. */
  lemma MergeUnchanged(s: string)
    requires Distinct(Split(s, ','))
    ensures Merge([s]) == s && Merge([s, s]) == s
  {
    hide Split, Join, Dedup;
    var items := Split(s, ',');
    ItemsOne(s);
    DedupDistinct(items);
    JoinSplit(s, ',');
    assert [s, s] == [s] + [s];
    ItemsAppend([s], [s]);
    DedupSubsumed(items, items);
  }

  ghost predicate EachItem(ok: string -> bool, s: string) {
    forall i :: 0 <= i < |Split(s, ',')| ==> ok(Split(s, ',')[i])
  }

  /** A merged text is a nameserver list exactly when all merged texts are. */
  lemma MergeAccepted(lists: seq<string>)
    requires lists != []
    ensures IsNameserverList(Merge(lists)) <==> forall k :: 0 <= k < |lists| ==> IsNameserverList(lists[k])
  {
    hide IsNameserver;
    var ok := s => IsNameserver(s);
    MergeEachItem(ok, lists);
    assert forall s :: EachItem(ok, s) <==> IsNameserverList(s);
  }

  /** Every item of a merged text satisfies a condition exactly when every item of each list does. */
  lemma MergeEachItem(ok: string -> bool, lists: seq<string>)
    requires lists != []
    ensures EachItem(ok, Merge(lists)) <==> forall k :: 0 <= k < |lists| ==> EachItem(ok, lists[k])
  {
    hide Split, Join, Dedup, Items;
    SplitMerge(lists);
    DedupElements(Items(lists));
    var merged := Dedup(Items(lists));
    if EachItem(ok, Merge(lists)) {
      forall k | 0 <= k < |lists|
        ensures EachItem(ok, lists[k])
      {
        ItemsOf(lists, k);
        forall i | 0 <= i < |Split(lists[k], ',')|
          ensures ok(Split(lists[k], ',')[i])
        {
          assert Split(lists[k], ',')[i] in merged;
        }
      }
    } else {
      var i :| 0 <= i < |merged| && !ok(merged[i]);
      ItemsFrom(lists, merged[i]);
    }
  }

  lemma {:induction false} ItemsOf(lists: seq<string>, k: nat)
    requires k < |lists|
    ensures forall x :: x in Split(lists[k], ',') ==> x in Items(lists)
  {
    var n := |lists| - 1;
    if k < n {
      ItemsOf(lists[..n], k);
    }
  }

  lemma {:induction false} ItemsFrom(lists: seq<string>, x: string)
    requires x in Items(lists)
    ensures exists k :: 0 <= k < |lists| && x in Split(lists[k], ',')
  {
    var n := |lists| - 1;
    if x !in Split(lists[n], ',') {
      ItemsFrom(lists[..n], x);
      var k :| 0 <= k < n && x in Split(lists[..n][k], ',');
      assert lists[..n][k] == lists[k];
    }
  }

  // ----- Values.precheckNameservers

  /** The text passed to the controller: the shoot's list in front of the default list. */
  function EffectiveNameservers(acmeDefault: Option<string>, shoot: Option<string>): string {
    if shoot.Some? then Merge([shoot.value, acmeDefault.GetOr("")]) else acmeDefault.GetOr("")
  }

  /** hasACME tells whether the service configuration has an ACME section at all. */
  method PrecheckNameservers(hasACME: bool, acmeDefault: Option<string>, shoot: Option<string>) returns (result: string)
    ensures result == EffectiveNameservers(if hasACME then acmeDefault else None, shoot)
    ensures var default := if hasACME && acmeDefault.Some? then acmeDefault.value else "";
      if shoot.None? then result == default
      else FirstOccurrences(Split(result, ','), Split(shoot.value, ',') + Split(default, ','))
  {
    hide Split, Join, Dedup, FirstOccurrences;
    result := "";
    if hasACME {
      result := acmeDefault.GetOr("");
    }
    if shoot.Some? {
      SplitMergeTwo(shoot.value, result);
      result := MergeServers([shoot.value, result]);
    }
  }

  /** For an accepted shoot list the text is accepted again exactly if there is an accepted default list;
      a missing default counts as the empty text, which leaves an empty item at the end. */
  lemma EffectiveAccepted(acmeDefault: Option<string>, shoot: string)
    requires IsNameserverList(shoot)
    ensures IsNameserverList(EffectiveNameservers(acmeDefault, Some(shoot))) <==>
      acmeDefault.Some? && IsNameserverList(acmeDefault.value)
    ensures acmeDefault.GetOr("") == "" ==>
      EffectiveNameservers(acmeDefault, Some(shoot)) == Merge([shoot]) + ","
  {
    var default := acmeDefault.GetOr("");
    MergeAccepted([shoot, default]);
    assert IsNameserverList(default) <==> acmeDefault.Some? && IsNameserverList(acmeDefault.value) by {
      EmptyIsNoNameserver();
      assert Split("", ',')[0] == "";
    }
    assert (forall k :: 0 <= k < 2 ==> IsNameserverList([shoot, default][k])) <==> IsNameserverList(default) by {
      assert [shoot, default][1] == default;
    }
    if default == "" {
      TrailingComma(shoot);
    }
  }

  lemma TrailingComma(shoot: string)
    requires IsNameserverList(shoot)
    ensures Merge([shoot, ""]) == Merge([shoot]) + ","
  {
    hide IsNameserver, Split, Dedup;
    var items := Items([shoot]);
    assert [shoot, ""] == [shoot] + [""];
    ItemsOne("");
    ItemsOne(shoot);
    ItemsAppend([shoot], [""]);
    EmptyIsNoNameserver();
    SplitFree("", ',');
    assert "" !in items;
    DedupElements(items);
    ItemsFree([shoot]);
    DedupSnoc(items, "");
    JoinSnoc(Dedup(items), "");
  }

  /** The smallest input on which it fails: an accepted shoot list, no default, and a text that is not accepted. */
  lemma MissingDefaultExample()
    ensures IsNameserverList("a") && EffectiveNameservers(None, Some("a")) == "a," && !IsNameserverList("a,")
  {
    hide IsNameserver, Split, Join, Dedup;
    var a := "a";
    SplitFree(a, ',');
    LetterIsNameserver();
    EffectiveAccepted(None, a);
    MergeUnchanged(a);
  }

  lemma {:induction false} JoinSnoc(parts: seq<string>, last: string)
    requires parts != []
    ensures Join(parts + [last], ',') == Join(parts, ',') + "," + last
  {
    if |parts| > 1 {
      JoinSnoc(parts[1..], last);
      assert (parts + [last])[1..] == parts[1..] + [last];
    } else {
      assert (parts + [last])[1..] == [last];
    }
  }
}
