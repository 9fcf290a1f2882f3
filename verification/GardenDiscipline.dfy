/** The discipline of the garden certificate protocol is exact: every step that it excludes can end badly. */
module GardenDiscipline {
  import opened GoStrings
  import opened GardenHash
  import opened GardenProtocol

  const DONE: Action := Call(Done)

  // ----- disciplined runs from one state to another

  ghost predicate Leads(s: State, actions: seq<Action>, t: State) {
    DisciplinedRun(s, actions) && Run(s, actions) == t
  }

  lemma Nowhere(s: State)
    ensures Leads(s, [], s)
  {
  }

  lemma OneStep(s: State, a: Action)
    requires Disciplined(s, a)
    ensures Leads(s, [a], Step(s, a))
  {
    hide Step, Disciplined;
    assert [a][1..] == [];
    assert DisciplinedRun(Step(s, a), []) && Run(Step(s, a), []) == Step(s, a);
  }

  lemma {:induction false} Onwards(s: State, first: seq<Action>, t: State, rest: seq<Action>, u: State)
    requires Leads(s, first, t) && Leads(t, rest, u)
    ensures Leads(s, first + rest, u)
    decreases |first|
  {
    hide Step, Disciplined;
    if first == [] {
      assert first + rest == rest;
    } else {
      assert (first + rest)[1..] == first[1..] + rest;
      Onwards(Step(s, first[0]), first[1..], t, rest, u);
    }
  }

  /** A settled state with the wrong certificate, or none, or one too many. */
  ghost predicate EndsBadly(s: State, actions: seq<Action>) {
    DisciplinedRun(s, actions) && Settled(Run(s, actions)) && !InSync(Run(s, actions))
  }

  /** What an excluded step leads to. */
  ghost predicate CanEndBadly(s: State) {
    exists actions :: EndsBadly(s, actions)
  }

  // ----- the reconcile in flight goes through

  /** How many calls are still to come at most. */
  function CallsLeft(task: Task): nat {
    match task
    case NoTask => 0
    case Task(_, _, _, Finishing) => 1
    case Task(_, _, _, Patching(_)) => 2
    case Task(_, _, _, Deleting) => 3
    case Task(_, _, _, Writing(_)) => 3
    case Task(_, _, _, Listing) => 4
    case Task(_, _, _, Deploying) => 5
  }

  /** s and t differ in what the calls of a reconcile change. */
  predicate SameBesides(s: State, t: State) {
    t.gardens == s.gardens && t.generate == s.generate && t.deleting == s.deleting && t.queued == s.queued
      && t.unseen == s.unseen
  }

  lemma DoneGoesOn(s: State)
    requires Invariant(s) && |s.gardens| == 1 && s.task.Task?
    ensures Disciplined(s, DONE) && Invariant(Step(s, DONE)) && GoesOn(s, Step(s, DONE))
  {
    hide GoesOn, CallStep, Invariant;
    CallInvariant(s, Done);
    if s.task.pc.Writing? || s.task.pc.Deleting? || s.task.pc.Patching? {
      DoneWrites(s);
    } else {
      DoneReads(s);
    }
  }

  predicate GoesOn(s: State, t: State)
    requires |s.gardens| == 1
  {
    SameBesides(s, t) && CallsLeft(t.task) < CallsLeft(s.task) && Heading(t) == Heading(s)
  }

  lemma DoneWrites(s: State)
    requires Invariant(s) && |s.gardens| == 1 && s.task.Task?
    requires s.task.pc.Writing? || s.task.pc.Deleting? || s.task.pc.Patching?
    ensures GoesOn(s, CallStep(s, Done))
  {
    hide Preimage, DnsNames, Agrees, Written;
  }

  lemma DoneReads(s: State)
    requires |s.gardens| == 1 && s.task.Task? && (s.task.pc.Deploying? || s.task.pc.Listing? || s.task.pc.Finishing?)
    ensures GoesOn(s, CallStep(s, Done))
  {
    hide Preimage, DnsNames, Written;
  }

  /** If all calls are done and nothing else happens, the certificate becomes what the state heads for. */
  lemma {:induction false} GoesThrough(s: State) returns (actions: seq<Action>)
    requires Invariant(s) && |s.gardens| == 1
    ensures var t := Run(s, actions);
      Leads(s, actions, t) && t.task.NoTask? && t.cert == Heading(s) && SameBesides(s, t)
    ensures |actions| <= CallsLeft(s.task) && forall i :: 0 <= i < |actions| ==> actions[i] == DONE
    decreases CallsLeft(s.task)
  {
    hide Invariant, Disciplined, Step, CallsLeft;
    if s.task.NoTask? {
      Nowhere(s);
      actions := [];
    } else {
      DoneGoesOn(s);
      OneStep(s, DONE);
      var rest := GoesThrough(Step(s, DONE));
      Onwards(s, [DONE], Step(s, DONE), rest, Run(Step(s, DONE), rest));
      actions := [DONE] + rest;
    }
  }

  /** A state that heads for the wrong certificate, with nothing to come that makes up for it. */
  lemma WrongHeading(s: State)
    requires Invariant(s) && |s.gardens| == 1 && !Covered(s) && !Fits(Heading(s), s.gardens[0])
    ensures CanEndBadly(s)
  {
    hide Invariant, DisciplinedRun, Run, Fits;
    var actions := GoesThrough(s);
    assert EndsBadly(s, actions);
  }

  // ----- an annotation without a certificate

  const NO_DOMAINS := Garden([], [], None)

  predicate Stale(s: State) {
    s.task.NoTask? && s.queued && !s.deleting && s.cert.None? && s.annotation.Some? && |s.gardens| == 1
  }

  function ReadEmpty(s: State): State {
    s.(gardens := [NO_DOMAINS], generate := true, unseen := true, queued := false,
      task := Task(Reconcile, true, false, Deleting))
  }

  /** The Garden loses its domains, and the retry finds no certificate and returns early. */
  lemma RetryReadsNothing(s: State) returns (actions: seq<Action>)
    requires Stale(s)
    ensures Leads(s, actions, ReadEmpty(s))
  {
    hide DnsNames, Preimage, Disciplined, DisciplinedRun, Run, Leads;
    assert NO_DOMAINS.Domains() == [];
    DnsNamesEmpty([]);
    var s1 := s.(generate := true);
    Harmless(s, SetGenerate(true));
    OneStep(s, SetGenerate(true));
    var s2 := s1.(gardens := [NO_DOMAINS], unseen := true);
    Harmless(s1, SetGardens([NO_DOMAINS]));
    OneStep(s1, SetGardens([NO_DOMAINS]));
    Onwards(s, [SetGenerate(true)], s1, [SetGardens([NO_DOMAINS])], s2);
    actions := [SetGenerate(true)] + [SetGardens([NO_DOMAINS])];
    var s3 := s2.(queued := false, task := Task(Reconcile, true, false, Deploying));
    Harmless(s2, Begin(Reconcile));
    OneStep(s2, Begin(Reconcile));
    Onwards(s, actions, s2, [Begin(Reconcile)], s3);
    actions := actions + [Begin(Reconcile)];
    var s4 := s3.(task := s3.task.(pc := Listing));
    Harmless(s3, DONE);
    OneStep(s3, DONE);
    Onwards(s, actions, s3, [DONE], s4);
    actions := actions + [DONE];
    Harmless(s4, DONE);
    OneStep(s4, DONE);
    Onwards(s, actions, s4, [DONE], ReadEmpty(s));
    actions := actions + [DONE];
  }

  lemma Harmless(s: State, a: Action)
    requires |s.gardens| == 1
    requires a == DONE || a == Begin(Reconcile) || a.SetGenerate? || (a.SetGardens? && OneGarden(a))
      || (a == MapGarden(true) && s.task.NoTask? && s.cert.None?)
    ensures Disciplined(s, a)
  {
  }

  /** Then a Garden with the hash of the annotation is not noticed. */
  lemma StaleEndsBadly(s: State)
    requires Stale(s) && IsHash(s.annotation.value)
    ensures CanEndBadly(s)
  {
    hide DnsNames, Preimage, Disciplined, DisciplinedRun, Run, Leads, Invariant;
    var domains :| NulFree(domains) && domains != [] && s.annotation.value == Digest(Preimage(domains));
    var garden := Garden(domains, [], None);
    assert garden.Domains() == domains;
    DnsNamesEmpty(domains);
    var actions := RetryReadsNothing(s);
    var s1 := ReadEmpty(s);
    var s2 := s1.(task := s1.task.(pc := Finishing));
    Harmless(s1, DONE);
    OneStep(s1, DONE);
    Onwards(s, actions, s1, [DONE], s2);
    actions := actions + [DONE];
    var s3 := s2.(task := NoTask);
    Harmless(s2, DONE);
    OneStep(s2, DONE);
    Onwards(s, actions, s2, [DONE], s3);
    actions := actions + [DONE];
    var s4 := s3.(gardens := [garden]);
    Harmless(s3, SetGardens([garden]));
    OneStep(s3, SetGardens([garden]));
    Onwards(s, actions, s3, [SetGardens([garden])], s4);
    actions := actions + [SetGardens([garden])];
    var s5 := s4.(unseen := false);
    Harmless(s4, MapGarden(true));
    OneStep(s4, MapGarden(true));
    assert Step(s4, MapGarden(true)) == s5;
    Onwards(s, actions, s4, [MapGarden(true)], s5);
    actions := actions + [MapGarden(true)];
    assert EndsBadly(s, actions) by {
      LeadsTo(s, actions, s5);
    }
  }

  lemma LeadsTo(s: State, actions: seq<Action>, t: State)
    requires Leads(s, actions, t)
    ensures DisciplinedRun(s, actions) && Run(s, actions) == t
  {
  }

  // ----- the theorem

  lemma ExcludedCallIsStale(s: State, fate: Fate)
    requires Tracks(s) && !Disciplined(s, Call(fate))
    ensures Stale(Step(s, Call(fate))) && IsHash(Step(s, Call(fate)).annotation.value)
  {
    hide DnsNames, Preimage, Agrees, IsHash, Fits, ShowsDNS, Written, Managed;
  }

  lemma ExcludedElseHeadsWrong(s: State, a: Action)
    requires Tracks(s) && OneGarden(a) && !Disciplined(s, a) && !a.Call?
    ensures var t := Step(s, a);
      |t.gardens| == 1 && !Covered(t) && !Fits(Heading(t), t.gardens[0])
  {
    hide DnsNames, Preimage, Invariant, IsHash, Fits, ShowsDNS, Written, Managed;
    ReconciledFits(s);
  }

  /** From every state that disciplined runs reach, an excluded step can end badly: steps within the discipline lead
      on to a settled state whose certificate is not that of the Garden. */
  lemma ExcludedStepsEndBadly(s: State, a: Action)
    requires Tracks(s) && OneGarden(a) && !Disciplined(s, a)
    ensures CanEndBadly(Step(s, a))
  {
    hide DnsNames, Preimage, CanEndBadly, Agrees, Disciplined;
    if a.Call? {
      ExcludedCallIsStale(s, a.fate);
      StaleEndsBadly(Step(s, a));
    } else {
      ExcludedElseHeadsWrong(s, a);
      StepInvariant(s, a);
      WrongHeading(Step(s, a));
    }
  }

  /** The discipline is exact: a step belongs to it if and only if nothing within the discipline can end badly after
      it. */
  lemma DisciplineIsExact(s: State, a: Action)
    requires Tracks(s) && OneGarden(a)
    ensures Disciplined(s, a) <==> !CanEndBadly(Step(s, a))
  {
    hide Tracks, Disciplined, Step, DisciplinedRun, Run;
    if Disciplined(s, a) {
      StepTracks(s, a);
      forall actions
        ensures !EndsBadly(Step(s, a), actions)
      {
        if DisciplinedRun(Step(s, a), actions) {
          CertificateFollowsGarden(Step(s, a), actions);
        }
      }
    } else {
      ExcludedStepsEndBadly(s, a);
    }
  }

  /** For a new Extension: as long as the steps are disciplined, the next one may be taken if and only if it is, too. */
  lemma ExactFromTheBeginning(garden: Garden, actions: seq<Action>, a: Action)
    requires NulFree(garden.Domains()) && DisciplinedRun(Fresh(garden), actions) && OneGarden(a)
    ensures Disciplined(Run(Fresh(garden), actions), a) <==> !CanEndBadly(Step(Run(Fresh(garden), actions), a))
  {
    hide Tracks, Disciplined, Step, DisciplinedRun, Run, CanEndBadly;
    FreshInvariant(garden);
    CertificateFollowsGarden(Fresh(garden), actions);
    DisciplineIsExact(Run(Fresh(garden), actions), a);
  }

  // ----- convergence

  /** What happens by itself: calls are done, a queued reconcile starts, a pending event is delivered and mapped. */
  predicate Progress(a: Action) {
    a == DONE || a == Begin(Reconcile) || a == MapGarden(true)
  }

  predicate AllProgress(actions: seq<Action>) {
    forall i :: 0 <= i < |actions| ==> Progress(actions[i])
  }

  predicate Wanted(s: State) {
    s.generate && !s.deleting
  }

  /** A reconcile that starts from the queue, and whose calls are done, leaves the certificate of the current Garden. */
  lemma ReconcileOnce(s: State) returns (actions: seq<Action>)
    requires Tracks(s) && Wanted(s) && s.task.NoTask? && s.queued
    ensures var t := Run(s, actions);
      Leads(s, actions, t) && AtRest(t) && t.gardens == s.gardens && InSync(t) && Wanted(t) && t.unseen == s.unseen
    ensures |actions| <= 6 && AllProgress(actions)
  {
    hide Invariant, Disciplined, Run, DisciplinedRun, Fits, Leads;
    var s1 := s.(queued := false, task := Task(Reconcile, true, false, Deploying));
    Harmless(s, Begin(Reconcile));
    OneStep(s, Begin(Reconcile));
    assert Step(s, Begin(Reconcile)) == s1;
    StepInvariant(s, Begin(Reconcile));
    ReconciledFits(s1);
    var rest := GoesThrough(s1);
    Onwards(s, [Begin(Reconcile)], s1, rest, Run(s1, rest));
    actions := [Begin(Reconcile)] + rest;
    LeadsTo(s, actions, Run(s1, rest));
  }

  /** With nothing in flight or queued, only a pending event is left. */
  lemma DeliverEvent(s: State) returns (actions: seq<Action>)
    requires Tracks(s) && Wanted(s) && AtRest(s)
    ensures Settled(Run(s, actions)) && |actions| <= 7 && AllProgress(actions)
    ensures DisciplinedRun(s, actions) <==> InSync(Run(s, actions))
    ensures InSync(s) || !s.unseen ==> InSync(Run(s, actions))
  {
    hide Invariant, Disciplined, Run, DisciplinedRun, Fits, Leads, Step;
    if !s.unseen {
      Nowhere(s);
      LeadsTo(s, [], s);
      actions := [];
    } else {
      var s1 := Step(s, MapGarden(true));
      Delivered(s);
      if s1.queued {
        OneStep(s, MapGarden(true));
        StepTracks(s, MapGarden(true));
        var rest := ReconcileOnce(s1);
        Onwards(s, [MapGarden(true)], s1, rest, Run(s1, rest));
        actions := [MapGarden(true)] + rest;
        LeadsTo(s, actions, Run(s1, rest));
      } else {
        actions := [MapGarden(true)];
        RunOne(s, MapGarden(true));
        if Disciplined(s, MapGarden(true)) {
          StepTracks(s, MapGarden(true));
        }
      }
    }
  }

  lemma Delivered(s: State)
    requires Tracks(s) && Wanted(s) && AtRest(s) && s.unseen
    ensures var t := Step(s, MapGarden(true));
      && t == s.(unseen := false, queued := HashDiffers(s))
      && (t.queued ==> Disciplined(s, MapGarden(true)))
      && (InSync(s) ==> Disciplined(s, MapGarden(true)))
  {
  }

  lemma RunOne(s: State, a: Action)
    ensures Run(s, [a]) == Step(s, a) && (DisciplinedRun(s, [a]) <==> Disciplined(s, a))
  {
    hide Step, Disciplined;
    assert [a][1..] == [];
    assert Run(Step(s, a), []) == Step(s, a) && DisciplinedRun(Step(s, a), []);
  }

  /** From every state that satisfies the invariant, with a certificate wanted: if the calls are done, what is queued
      starts and the pending event is delivered, at most 18 steps lead to a settled state. Its certificate is that of
      the Garden, unless the event is one that the discipline excludes: that cannot be if something is queued, or if
      no event is pending. */
  lemma Converges(s: State) returns (actions: seq<Action>)
    requires Tracks(s) && Wanted(s)
    ensures Settled(Run(s, actions)) && |actions| <= 18 && AllProgress(actions)
    ensures DisciplinedRun(s, actions) <==> InSync(Run(s, actions))
    ensures s.queued || !s.unseen ==> InSync(Run(s, actions))
  {
    hide Invariant, Disciplined, Run, DisciplinedRun, Fits, Leads, Step, Tracks;
    TracksFacts(s);
    var first := GoesThrough(s);
    CallsAtMost5(s.task);
    var t := Run(s, first);
    LeadsTo(s, first, t);
    CertificateFollowsGarden(s, first);
    if t.queued {
      var second := ReconcileOnce(t);
      var u := Run(t, second);
      LeadsTo(t, second, u);
      CertificateFollowsGarden(t, second);
      Onwards(s, first, t, second, u);
      var third := DeliverEvent(u);
      Then(s, first + second, u, third);
      actions := first + second + third;
    } else {
      var third := DeliverEvent(t);
      Then(s, first, t, third);
      actions := first + third;
    }
  }

  lemma TracksFacts(s: State)
    requires Tracks(s)
    ensures Invariant(s) && |s.gardens| == 1
  {
  }

  lemma CallsAtMost5(task: Task)
    ensures CallsLeft(task) <= 5
  {
  }

  lemma {:induction false} Then(s: State, first: seq<Action>, t: State, rest: seq<Action>)
    requires Leads(s, first, t)
    ensures Run(s, first + rest) == Run(t, rest)
    ensures DisciplinedRun(s, first + rest) <==> DisciplinedRun(t, rest)
    decreases |first|
  {
    hide Step, Disciplined;
    if first == [] {
      assert first + rest == rest;
    } else {
      assert (first + rest)[1..] == first[1..] + rest;
      Then(Step(s, first[0]), first[1..], t, rest);
    }
  }
}
