/** The health check of the issuers of a shoot, pkg/controller/healthcheck/managed_resource_issuer.go. */
module HealthCheck {
  import opened GoStrings

  const STATE_READY := "Ready"

  datatype Issuer = Issuer(name: string, state: string, message: Option<string>)

  datatype Status = True | False | Unknown | Progressing

  /** The count, the total and the list that the text of a failed check shows. */
  datatype Detail = Detail(notReady: nat, total: nat, messages: map<string, string>)

  /** The outcome of a check: an error of the call, or a status. The wrapped check gives some detail of its own. */
  datatype Outcome = CallFailed | ByInner(status: Status) | ByIssuers(status: Status, detail: Option<Detail>)

  function Message(issuer: Issuer): string {
    "state='" + issuer.state + "'" + if issuer.message.Some? then ", message=" + issuer.message.value else ""
  }

  function NotReady(issuers: seq<Issuer>): seq<Issuer> {
    if issuers == [] then []
    else
      var n := |issuers| - 1;
      NotReady(issuers[..n]) + if issuers[n].state != STATE_READY then [issuers[n]] else []
  }

  /** The map that the loop fills: a later issuer replaces an earlier one of the same name. */
  function Messages(issuers: seq<Issuer>): map<string, string> {
    if issuers == [] then map[]
    else
      var n := |issuers| - 1;
      Messages(issuers[..n])[issuers[n].name := Message(issuers[n])]
  }

  lemma NotReadySnoc(issuers: seq<Issuer>, x: Issuer)
    ensures NotReady(issuers + [x]) == NotReady(issuers) + if x.state != STATE_READY then [x] else []
  {
    assert (issuers + [x])[..|issuers|] == issuers;
  }

  lemma MessagesSnoc(issuers: seq<Issuer>, x: Issuer)
    ensures Messages(issuers + [x]) == Messages(issuers)[x.name := Message(x)]
  {
    assert (issuers + [x])[..|issuers|] == issuers;
  }

  predicate Named(issuers: seq<Issuer>, name: string) {
    exists i :: 0 <= i < |issuers| && issuers[i].name == name
  }

  lemma {:induction false} MessagesNames(issuers: seq<Issuer>, name: string)
    ensures name in Messages(issuers) <==> Named(issuers, name)
  {
    hide Message;
    if issuers != [] {
      var n := |issuers| - 1;
      MessagesNames(issuers[..n], name);
      if Named(issuers, name) && issuers[n].name != name {
        var i :| 0 <= i < |issuers| && issuers[i].name == name;
        assert issuers[..n][i].name == name;
      }
    }
  }

  lemma MessageIs(x: Issuer)
    ensures Message(x) == match x.message {
      case None => "state='" + x.state + "'"
      case Some(text) => "state='" + x.state + "'" + ", message=" + text
    }
  {
  }

  /** What the map shows for a name is the message of the last issuer of that name. */
  lemma {:induction false} MessageOfLast(issuers: seq<Issuer>, i: nat)
    requires i < |issuers| && !Named(issuers[i + 1..], issuers[i].name)
    ensures issuers[i].name in Messages(issuers) && Messages(issuers)[issuers[i].name] ==
      match issuers[i].message {
        case None => "state='" + issuers[i].state + "'"
        case Some(text) => "state='" + issuers[i].state + "'" + ", message=" + text
      }
  {
    MessageIs(issuers[i]);
    hide Message;
    var n := |issuers| - 1;
    if i < n {
      assert issuers[i + 1..][n - i - 1] == issuers[n];
      assert issuers[..n][i + 1..] == issuers[i + 1..][..n - i - 1];
      MessageOfLast(issuers[..n], i);
    }
  }

  /** The wrapped check has the first word, and after it only the issuers count. */
  method Check(inner: Option<Status>, listed: Option<seq<Issuer>>) returns (outcome: Outcome)
    ensures inner == None ==> outcome == CallFailed
    ensures inner == Some(False) ==> outcome == ByInner(False)
    ensures inner.Some? && inner.value != False && listed == None ==> outcome == CallFailed
    ensures inner.Some? && inner.value != False && listed.Some? ==>
              var bad := NotReady(listed.value);
              outcome == if bad == [] then ByIssuers(True, None)
                         else ByIssuers(False, Some(Detail(|Messages(bad)|, |listed.value|, Messages(bad))))
  {
    if inner == None {
      return CallFailed;
    }
    if inner.value == False {
      return ByInner(inner.value);
    }
    if listed == None {
      return CallFailed;
    }
    var items := listed.value;
    var notReady := map[];
    for i := 0 to |items|
      invariant notReady == Messages(NotReady(items[..i]))
    {
      assert items[..i + 1] == items[..i] + [items[i]];
      NotReadySnoc(items[..i], items[i]);
      if items[i].state != STATE_READY {
        MessagesSnoc(NotReady(items[..i]), items[i]);
        var msg := "state='" + items[i].state + "'";
        if items[i].message.Some? {
          msg := msg + ", message=" + items[i].message.value;
        }
        assert msg == Message(items[i]);
        notReady := notReady[items[i].name := msg];
      } else {
        assert NotReady(items[..i]) + [] == NotReady(items[..i]);
      }
    }
    assert items[..|items|] == items;
    NoMessages(NotReady(items));
    if |notReady| > 0 {
      return ByIssuers(False, Some(Detail(|notReady|, |items|, notReady)));
    }
    return ByIssuers(True, None);
  }

  lemma NoMessages(issuers: seq<Issuer>)
    ensures |Messages(issuers)| == 0 <==> issuers == []
  {
    if issuers != [] {
      assert issuers[|issuers| - 1].name in Messages(issuers);
    }
  }

  /** An issuer is counted exactly if it is not ready. */
  lemma {:induction false} NotReadyExactly(issuers: seq<Issuer>)
    ensures forall x :: x in NotReady(issuers) <==> x in issuers && x.state != "Ready"
  {
    if issuers != [] {
      var n := |issuers| - 1;
      NotReadyExactly(issuers[..n]);
      assert issuers == issuers[..n] + [issuers[n]];
    }
  }

  predicate NamesDiffer(issuers: seq<Issuer>) {
    forall i, j :: 0 <= i < j < |issuers| ==> issuers[i].name != issuers[j].name
  }

  /** The reported number is the number of issuers that are not ready exactly if these have different names. */
  lemma {:induction false} CountIsExact(bad: seq<Issuer>)
    ensures |Messages(bad)| <= |bad|
    ensures |Messages(bad)| == |bad| <==> NamesDiffer(bad)
  {
    hide Message, Named, NamesDiffer;
    if bad != [] {
      var n := |bad| - 1;
      CountIsExact(bad[..n]);
      MessagesNames(bad[..n], bad[n].name);
      Grows(Messages(bad[..n]), bad[n].name, Message(bad[n]));
      NamesDifferSnoc(bad);
    } else {
      NamesDifferSnoc(bad);
    }
  }

  lemma NamesDifferSnoc(s: seq<Issuer>)
    ensures NamesDiffer(s) <==> s == [] || (NamesDiffer(s[..|s| - 1]) && !Named(s[..|s| - 1], s[|s| - 1].name))
  {
  }

  lemma Grows<K, V>(m: map<K, V>, k: K, v: V)
    ensures |m[k := v]| == if k in m then |m| else |m| + 1
  {
    assert m[k := v].Keys == m.Keys + {k};
  }
}
