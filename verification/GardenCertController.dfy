/** The garden certificate handler and the garden part of the controlplane actuator, as they call the API server. */
module GardenCertController {
  import opened GoStrings
  import opened GardenHash
  import opened GardenProtocol

  // ----- a reconcile among the actions of others

  /** What happens around the API calls of one reconcile: how each call ends, and what others do before it. */
  datatype Fortune = Fortune(fate: Pc -> Fate, before: Pc -> seq<Action>)

  /** The queue starts no second reconcile of an Extension while one is in flight. */
  predicate Environment(a: Action) {
    !a.Begin? && !a.Call?
  }

  ghost predicate Proper(f: Fortune) {
    forall pc :: forall i :: 0 <= i < |f.before(pc)| ==> Environment(f.before(pc)[i])
  }

  lemma {:induction false} EnvironmentLeavesAlone(s: State, actions: seq<Action>)
    requires forall i :: 0 <= i < |actions| ==> Environment(actions[i])
    ensures Run(s, actions).task == s.task && Run(s, actions).cert == s.cert
      && Run(s, actions).annotation == s.annotation
    decreases |actions|
  {
    if actions != [] {
      EnvironmentLeavesAlone(Step(s, actions[0]), actions[1..]);
    }
  }

  /** One call together with what comes before it. */
  function Turn(s: State, f: Fortune): State
    requires s.task.Task?
  {
    Run(s, f.before(s.task.pc) + [Call(f.fate(s.task.pc))])
  }

  lemma TurnIs(s: State, f: Fortune)
    requires s.task.Task? && Proper(f)
    ensures var t := Run(s, f.before(s.task.pc));
      && t.task == s.task && t.cert == s.cert && t.annotation == s.annotation
      && Turn(s, f) == CallStep(t, f.fate(s.task.pc))
  {
    hide CallStep;
    var before, call := f.before(s.task.pc), Call(f.fate(s.task.pc));
    var t := Run(s, before);
    EnvironmentLeavesAlone(s, before);
    RunAppend(s, before, [call]);
    assert [call][1..] == [];
    assert Run(t, [call]) == Run(Step(t, call), []);
  }

  /** How many calls are still to come at most. */
  function Left(pc: Pc): (n: nat)
    ensures n > 0
  {
    match pc
    case Deploying => 5
    case Listing => 4
    case Writing(_) => 3
    case Deleting => 3
    case Patching(_) => 2
    case Finishing => 1
  }

  lemma TurnComesNearer(s: State, f: Fortune)
    requires s.task.Task? && Proper(f)
    ensures Turn(s, f).task.Task? ==> Left(Turn(s, f).task.pc) < Left(s.task.pc)
    ensures s.task.pc.Finishing? ==> Turn(s, f).task.NoTask?
  {
    hide CallStep, Turn, Run, Left;
    TurnIs(s, f);
    CallComesNearer(Run(s, f.before(s.task.pc)), f.fate(s.task.pc));
  }

  predicate Nearer(pc: Pc, fate: Fate, t: State) {
    if t.task.Task? then Left(t.task.pc) < Left(pc) else t.queued || (pc.Finishing? && fate.Done?)
  }

  /** A call fails and queues the Extension again, or comes nearer to the end. */
  lemma CallComesNearer(s: State, fate: Fate)
    requires s.task.Task?
    ensures Nearer(s.task.pc, fate, CallStep(s, fate))
    ensures s.task.pc.Finishing? ==> CallStep(s, fate).task.NoTask?
  {
    hide CallStep, Nearer;
    if s.task.pc.Writing? || s.task.pc.Deleting? || s.task.pc.Patching? {
      WriteComesNearer(s, fate);
    } else {
      ReadComesNearer(s, fate);
    }
  }

  lemma WriteComesNearer(s: State, fate: Fate)
    requires s.task.Task? && (s.task.pc.Writing? || s.task.pc.Deleting? || s.task.pc.Patching?)
    ensures Nearer(s.task.pc, fate, CallStep(s, fate))
  {
    hide CallStep, DnsNames, Written;
    match s.task.pc
    case Writing(_) => WritingStep(s, fate);
    case Deleting => DeletingStep(s, fate);
    case Patching(_) => PatchingStep(s, fate);
  }

  lemma ReadComesNearer(s: State, fate: Fate)
    requires s.task.Task? && (s.task.pc.Deploying? || s.task.pc.Listing? || s.task.pc.Finishing?)
    ensures Nearer(s.task.pc, fate, CallStep(s, fate))
    ensures s.task.pc.Finishing? ==> CallStep(s, fate).task.NoTask?
  {
    hide CallStep, DnsNames;
    match s.task.pc
    case Deploying => DeployingStep(s, fate);
    case Listing => ListingStep(s, fate);
    case Finishing => FinishingStep(s, fate);
  }

  /** The certificate handler, up to its last call or its first failure. */
  ghost function Handler(s: State, f: Fortune): State
    requires Proper(f)
    decreases if s.task.NoTask? then 0 else Left(s.task.pc)
  {
    if s.task.NoTask? || s.task.pc.Finishing? then s
    else
      TurnComesNearer(s, f);
      Handler(Turn(s, f), f)
  }

  /** The whole reconcile: after the handler comes the last call. */
  ghost function Flight(s: State, f: Fortune): State
    requires Proper(f)
  {
    var t := Handler(s, f);
    if t.task.NoTask? then t else Turn(t, f)
  }

  /** All calls are done. */
  ghost predicate Succeeds(s: State, f: Fortune)
    requires Proper(f)
  {
    var t := Handler(s, f);
    t.task.Task? && f.fate(t.task.pc).Done?
  }

  lemma HandlerTurn(s: State, f: Fortune)
    requires Proper(f)
    ensures s.task.NoTask? || s.task.pc.Finishing? ==> Handler(s, f) == s
    ensures s.task.Task? && !s.task.pc.Finishing? ==> Handler(s, f) == Handler(Turn(s, f), f)
  {
    hide Turn;
  }

  /** A handler ends: with a failure that queues the Extension again, or with one more call to come. */
  lemma {:induction false} HandlerEnds(s: State, f: Fortune)
    requires Proper(f) && s.task.Task?
    ensures var t := Handler(s, f); if t.task.NoTask? then t.queued else t.task.pc.Finishing?
    decreases Left(s.task.pc)
  {
    hide Turn, Left, CallStep, Run;
    HandlerTurn(s, f);
    if !s.task.pc.Finishing? {
      TurnIs(s, f);
      CallComesNearer(Run(s, f.before(s.task.pc)), f.fate(s.task.pc));
      TurnComesNearer(s, f);
      HandlerTurn(Turn(s, f), f);
      if Turn(s, f).task.Task? {
        HandlerEnds(Turn(s, f), f);
      }
    }
  }

  /** A flight ends, and without success the Extension is queued again. */
  lemma FlightEnds(s: State, f: Fortune)
    requires Proper(f) && s.task.Task?
    ensures Flight(s, f).task.NoTask?
    ensures !Succeeds(s, f) ==> Flight(s, f).queued
  {
    hide Turn, CallStep, Run, Handler;
    HandlerEnds(s, f);
    var t := Handler(s, f);
    if t.task.Task? {
      TurnIs(t, f);
      FinishingStep(Run(t, f.before(t.task.pc)), f.fate(t.task.pc));
    }
  }

  ghost predicate Among(f: Fortune, actions: seq<Action>) {
    forall i :: 0 <= i < |actions| ==>
      actions[i].Call? || exists pc, j :: 0 <= j < |f.before(pc)| && f.before(pc)[j] == actions[i]
  }

  /** A flight is a run of the protocol, made of its calls and of what others do: what holds over every run holds for
      the code, whatever falls between its calls. */
  lemma FlightIsRun(s: State, f: Fortune)
    requires Proper(f) && s.task.Task?
    ensures exists actions :: Flight(s, f) == Run(s, actions) && Among(f, actions)
  {
    hide Turn, Run, Handler, Among;
    var first := HandlerIsRun(s, f);
    var t := Handler(s, f);
    if t.task.Task? {
      TurnUnfolds(t, f);
      var last := f.before(t.task.pc) + [Call(f.fate(t.task.pc))];
      RunAppend(s, first, last);
      AmongAppend(f, first, last);
      assert Flight(s, f) == Run(s, first + last);
    }
  }

  lemma {:induction false} HandlerIsRun(s: State, f: Fortune) returns (actions: seq<Action>)
    requires Proper(f)
    ensures Handler(s, f) == Run(s, actions) && Among(f, actions)
    decreases if s.task.NoTask? then 0 else Left(s.task.pc)
  {
    hide Turn, Left, Step, Among;
    HandlerTurn(s, f);
    if s.task.NoTask? || s.task.pc.Finishing? {
      actions := [];
      AmongNothing(f);
    } else {
      TurnComesNearer(s, f);
      var rest := HandlerIsRun(Turn(s, f), f);
      TurnUnfolds(s, f);
      var first := f.before(s.task.pc) + [Call(f.fate(s.task.pc))];
      RunAppend(s, first, rest);
      AmongAppend(f, first, rest);
      actions := first + rest;
    }
  }

  lemma AmongNothing(f: Fortune)
    ensures Among(f, [])
  {
  }

  lemma AmongAppend(f: Fortune, a: seq<Action>, b: seq<Action>)
    requires Among(f, a) && Among(f, b)
    ensures Among(f, a + b)
  {
    forall i | 0 <= i < |a + b|
      ensures (a + b)[i].Call? || exists pc, j :: 0 <= j < |f.before(pc)| && f.before(pc)[j] == (a + b)[i]
    {
      assert (a + b)[i] == if i < |a| then a[i] else b[i - |a|];
    }
  }

  lemma TurnUnfolds(s: State, f: Fortune)
    requires s.task.Task?
    ensures var actions := f.before(s.task.pc) + [Call(f.fate(s.task.pc))];
      Turn(s, f) == Run(s, actions) && Among(f, actions)
  {
    hide Run;
    var before, actions := f.before(s.task.pc), f.before(s.task.pc) + [Call(f.fate(s.task.pc))];
    forall i | 0 <= i < |actions|
      ensures actions[i].Call? || exists pc, j :: 0 <= j < |f.before(pc)| && f.before(pc)[j] == actions[i]
    {
      if i < |before| {
        assert f.before(s.task.pc)[i] == actions[i];
      }
    }
  }

  /** A reconcile that succeeds leaves annotation and certificate in agreement, whatever failed before it and whatever
      others do during it, as long as there is always a Garden. */
  lemma SuccessfulReconcileAgrees(s: State, f: Fortune)
    requires Invariant(s) && s.task.Task? && Proper(f)
    requires forall pc :: forall i :: 0 <= i < |f.before(pc)| ==> Sound(f.before(pc)[i])
    ensures Invariant(Flight(s, f)) && (Succeeds(s, f) ==> Agrees(Flight(s, f)))
  {
    hide Turn, Run, Handler, Invariant, CallStep, Agrees;
    var first := HandlerIsRun(s, f);
    AmongSound(f, first);
    AnnotationTellsNames(s, first);
    HandlerEnds(s, f);
    var t := Handler(s, f);
    if t.task.Task? {
      TurnIs(t, f);
      AnnotationTellsNames(t, f.before(t.task.pc));
      var u := Run(t, f.before(t.task.pc));
      CallInvariant(u, f.fate(t.task.pc));
      FinishingStep(u, f.fate(t.task.pc));
      FinishingAgrees(u);
      if f.fate(t.task.pc).Done? {
        AgreesSame(u, Flight(s, f));
      }
    }
  }

  lemma FinishingAgrees(s: State)
    requires Invariant(s) && s.task.Task? && s.task.pc.Finishing?
    ensures Agrees(s)
  {
  }

  lemma AmongSound(f: Fortune, actions: seq<Action>)
    requires Among(f, actions) && forall pc :: forall i :: 0 <= i < |f.before(pc)| ==> Sound(f.before(pc)[i])
    ensures forall i :: 0 <= i < |actions| ==> Sound(actions[i])
  {
  }

  // ----- what a reconcile leaves

  /** The Gardens after what others did. */
  function GardensAfter(gardens: seq<Garden>, actions: seq<Action>): seq<Garden> {
    if actions == [] then gardens
    else
      var last := actions[|actions| - 1];
      if last.SetGardens? then last.gardens else GardensAfter(gardens, actions[..|actions| - 1])
  }

  lemma {:induction false} EnvironmentGardens(s: State, actions: seq<Action>)
    requires forall i :: 0 <= i < |actions| ==> Environment(actions[i])
    ensures Run(s, actions).gardens == GardensAfter(s.gardens, actions)
    decreases |actions|
  {
    if actions != [] {
      var n := |actions| - 1;
      EnvironmentGardens(s, actions[..n]);
      assert actions == actions[..n] + [actions[n]];
      RunAppend(s, actions[..n], [actions[n]]);
      assert [actions[n]][1..] == [];
    }
  }

  /** The Gardens that there are when the reconcile lists them. */
  function Listed(s: State, f: Fortune): seq<Garden> {
    GardensAfter(GardensAfter(s.gardens, f.before(Deploying)), f.before(Listing))
  }

  /** The delete handler leaves no certificate. It clears the annotation if it found a certificate, except for an
      Extension that is being deleted. */
  predicate Cleared(s: State, t: State)
    requires s.task.Task?
  {
    t.cert == None && t.annotation == if s.cert.None? || s.task.deleting then s.annotation else None
  }

  /** The certificate and the annotation of a Garden. */
  ghost predicate WrittenFor(s: State, t: State, garden: Garden) {
    && t.cert.Some? && CertificateOf(t.cert.value, s.cert, garden)
    && t.annotation == Some(Digest(Join(garden.virtualDomains + garden.ingressDomains + [""], '\0')))
  }

  /** What a successful reconcile leaves, by the Gardens it listed. */
  ghost predicate Outcome(s: State, t: State, gardens: seq<Garden>)
    requires s.task.Task?
  {
    if !s.task.generate then Cleared(s, t)
    else if gardens == [] then t.cert == s.cert && t.annotation == s.annotation
    else if gardens[0].virtualDomains == [] && gardens[0].ingressDomains == [] then Cleared(s, t)
    else WrittenFor(s, t, gardens[0])
  }

  lemma LastTurn(s: State, f: Fortune)
    requires Proper(f)
    requires s.task.Task? ==> s.task.pc.Finishing?
    ensures Handler(s, f) == s
    ensures Flight(s, f).cert == s.cert && Flight(s, f).annotation == s.annotation
  {
    hide Turn, Run, Handler, CallStep;
    HandlerTurn(s, f);
    if s.task.Task? {
      TurnIs(s, f);
      FinishingStep(Run(s, f.before(Finishing)), f.fate(Finishing));
    }
  }

  /** The outcome of the last two stages, the annotation and the end. */
  lemma PatchingOutcome(s: State, f: Fortune)
    requires Proper(f) && s.task.Task? && s.task.pc.Patching?
    ensures Succeeds(s, f) ==> f.fate(s.task.pc).Done?
    ensures f.fate(s.task.pc).Done? && f.fate(Finishing).Done? ==> Succeeds(s, f)
    ensures Succeeds(s, f) ==> Flight(s, f).cert == s.cert
    ensures var hashed := s.task.pc.hashed;
      Succeeds(s, f) ==> Flight(s, f).annotation == if hashed.Some? then Some(HashOf(hashed.value)) else None
  {
    hide Turn, Run, Handler, CallStep, Preimage;
    HandlerTurn(s, f);
    TurnIs(s, f);
    PatchingStep(Run(s, f.before(s.task.pc)), f.fate(s.task.pc));
    LastTurn(Turn(s, f), f);
  }

  lemma DeletingOutcome(s: State, f: Fortune)
    requires Proper(f) && s.task.Task? && s.task.pc.Deleting?
    ensures Succeeds(s, f) ==> Cleared(s, Flight(s, f))
    ensures AllDone(f) ==> Succeeds(s, f)
  {
    hide Turn, Run, Handler, CallStep;
    HandlerTurn(s, f);
    TurnIs(s, f);
    DeletingStep(Run(s, f.before(Deleting)), f.fate(Deleting));
    var t := Turn(s, f);
    if t.task.Task? && t.task.pc.Patching? {
      PatchingOutcome(t, f);
    } else {
      LastTurn(t, f);
    }
  }

  lemma WritingOutcome(s: State, f: Fortune)
    requires Proper(f) && s.task.Task? && s.task.pc.Writing?
    ensures Succeeds(s, f) ==> WrittenFor(s, Flight(s, f), s.task.pc.garden)
    ensures AllDone(f) ==> Succeeds(s, f)
  {
    hide Turn, Run, Handler, CallStep, Written, CertificateOf, Preimage;
    var garden := s.task.pc.garden;
    HandlerTurn(s, f);
    TurnIs(s, f);
    WritingStep(Run(s, f.before(s.task.pc)), f.fate(s.task.pc));
    WrittenIs(s.cert, garden);
    PreimageIsJoin(garden.Domains());
    var t := Turn(s, f);
    if t.task.Task? {
      PatchingOutcome(t, f);
    } else {
      LastTurn(t, f);
    }
  }

  ghost predicate AllDone(f: Fortune) {
    forall pc :: f.fate(pc) == Done
  }

  lemma ListingOutcome(s: State, f: Fortune)
    requires Proper(f) && s.task.Task? && s.task.pc.Listing? && s.task.generate
    ensures var gardens := GardensAfter(s.gardens, f.before(Listing));
      && (Succeeds(s, f) ==> |gardens| <= 1 && Outcome(s, Flight(s, f), gardens))
      && (AllDone(f) && |gardens| <= 1 ==> Succeeds(s, f))
  {
    hide Turn, Run, Handler, CallStep, DnsNames, Preimage, CertificateOf;
    HandlerTurn(s, f);
    TurnIs(s, f);
    EnvironmentGardens(s, f.before(Listing));
    var u := Run(s, f.before(Listing));
    ListingStep(u, f.fate(Listing));
    var t := Turn(s, f);
    if t.task.NoTask? || t.task.pc.Finishing? {
      LastTurn(t, f);
    } else {
      DnsNamesEmpty(u.gardens[0].Domains());
      if t.task.pc.Deleting? {
        DeletingOutcome(t, f);
      } else {
        WritingOutcome(t, f);
      }
    }
  }

  /** A successful reconcile leaves the certificate and the annotation of the Garden it listed, and if no call fails,
      it succeeds unless it lists several Gardens. */
  lemma ReconcileOutcome(s: State, f: Fortune)
    requires Proper(f) && s.task.Task? && s.task.op.Reconcile? && s.task.pc.Deploying?
    ensures Succeeds(s, f) ==> Outcome(s, Flight(s, f), Listed(s, f)) && (s.task.generate ==> |Listed(s, f)| <= 1)
    ensures AllDone(f) ==> (Succeeds(s, f) <==> s.task.generate ==> |Listed(s, f)| <= 1)
  {
    hide Turn, Run, Handler, CallStep, CertificateOf, Proper;
    HandlerTurn(s, f);
    TurnIs(s, f);
    DeployingStep(Run(s, f.before(Deploying)), f.fate(Deploying));
    GardensBefore(s, f);
    var t := Turn(s, f);
    if t.task.NoTask? {
      LastTurn(t, f);
    } else if t.task.generate {
      ListingOutcome(t, f);
    } else {
      DeletingOutcome(t, f);
    }
  }

  lemma GardensBefore(s: State, f: Fortune)
    requires Proper(f)
    ensures Run(s, f.before(Deploying)).gardens == GardensAfter(s.gardens, f.before(Deploying))
  {
    EnvironmentGardens(s, f.before(Deploying));
  }

  /** And what a successful deletion leaves. */
  lemma DeleteOutcome(s: State, f: Fortune)
    requires Proper(f) && s.task.Task? && s.task.op.Delete? && s.task.pc.Deleting?
    ensures Succeeds(s, f) ==> Cleared(s, Flight(s, f))
    ensures AllDone(f) ==> Succeeds(s, f)
  {
    DeletingOutcome(s, f);
  }

  // ----- single calls

  lemma DeployingStep(s: State, fate: Fate)
    requires s.task.Task? && s.task.pc.Deploying?
    ensures CallStep(s, fate) ==
      if fate.Done? then s.(task := s.task.(pc := if s.task.generate then Listing else Deleting)) else Fail(s)
  {
    hide Written, DnsNames, Preimage;
  }

  lemma FinishingStep(s: State, fate: Fate)
    requires s.task.Task? && s.task.pc.Finishing?
    ensures CallStep(s, fate) == if fate.Done? then s.(task := NoTask) else Fail(s)
  {
    hide Written, DnsNames, Preimage;
  }

  lemma PatchingStep(s: State, fate: Fate)
    requires s.task.Task? && s.task.pc.Patching?
    ensures CallStep(s, fate) ==
      var hash := if s.task.pc.hashed.Some? then Some(HashOf(s.task.pc.hashed.value)) else None;
      var t := s.(annotation := if fate.Refused? then s.annotation else hash);
      if fate.Done? then t.(task := t.task.(pc := Finishing)) else Fail(t)
  {
    hide Preimage, DnsNames, Written;
  }

  lemma ListingStep(s: State, fate: Fate)
    requires s.task.Task? && s.task.pc.Listing?
    ensures CallStep(s, fate) ==
      if !fate.Done? || |s.gardens| > 1 then Fail(s)
      else s.(task := s.task.(pc :=
        if |s.gardens| == 0 then Finishing
        else if DnsNames(s.gardens[0].Domains()) == [] then Deleting
        else Writing(s.gardens[0])))
  {
    hide Written, DnsNames, Preimage;
  }

  lemma WritingStep(s: State, fate: Fate)
    requires s.task.Task? && s.task.pc.Writing?
    ensures CallStep(s, fate) ==
      var t := s.(cert := if fate.Refused? then s.cert else Some(Written(s.cert, s.task.pc.garden)));
      if fate.Done? then t.(task := t.task.(pc := Patching(Some(s.task.pc.garden)))) else Fail(t)
  {
    hide Written, DnsNames, Preimage;
  }

  lemma DeletingStep(s: State, fate: Fate)
    requires s.task.Task? && s.task.pc.Deleting?
    ensures CallStep(s, fate) ==
      if fate.Done? && s.cert.None? then s.(task := s.task.(pc := Finishing))
      else
        var t := s.(cert := if fate.Refused? then s.cert else None);
        if fate.Done? then t.(task := t.task.(pc := if s.task.deleting then Finishing else Patching(None))) else Fail(t)
  {
    hide Written, DnsNames, Preimage;
  }

  // ----- the API server

  datatype ApiResult = Ok | NotFound | Failed

  /** The objects in the API server that the handler touches. Each call takes the fate that befalls it. */
  class Cluster {
    var gardens: seq<Garden>
    var cert: Option<Certificate>
    var annotation: Option<Digest>

    constructor (gardens: seq<Garden>)
      ensures this.gardens == gardens && cert == None && annotation == None
    {
      this.gardens, cert, annotation := gardens, None, None;
    }

    predicate Is(s: State)
      reads this
    {
      gardens == s.gardens && cert == s.cert && annotation == s.annotation
    }

    /** Others act. Of the objects here they change the Gardens. */
    method Interfere(actions: seq<Action>, ghost s: State)
      requires Is(s) && forall i :: 0 <= i < |actions| ==> Environment(actions[i])
      modifies this`gardens
      ensures Is(Run(s, actions))
    {
      hide Run;
      ghost var t := s;
      assert actions[0..] == actions;
      for i := 0 to |actions|
        invariant Is(t) && Run(s, actions) == Run(t, actions[i..])
      {
        if actions[i].SetGardens? {
          gardens := actions[i].gardens;
        }
        RunUnfolds(t, actions, i);
        t := Step(t, actions[i]);
      }
      RunNothing(t, actions[|actions|..]);
    }

    method ListGardens(fate: Fate) returns (result: ApiResult, items: seq<Garden>)
      ensures result == if fate.Done? then Ok else Failed
      ensures result.Ok? ==> items == gardens
    {
      items := gardens;
      result := if fate.Done? then Ok else Failed;
    }

    method PutCertificate(c: Certificate, fate: Fate) returns (result: ApiResult)
      modifies this`cert
      ensures cert == if fate.Refused? then old(cert) else Some(c)
      ensures result == if fate.Done? then Ok else Failed
    {
      if !fate.Refused? {
        cert := Some(c);
      }
      result := if fate.Done? then Ok else Failed;
    }

    method DeleteCertificate(fate: Fate) returns (result: ApiResult)
      modifies this`cert
      ensures cert == if fate.Refused? then old(cert) else None
      ensures result == if !fate.Done? then Failed else if old(cert).None? then NotFound else Ok
    {
      var found := cert.Some?;
      if !fate.Refused? {
        cert := None;
      }
      result := if !fate.Done? then Failed else if found then Ok else NotFound;
    }

    /** A merge patch carries the difference between the object before and after it was changed. */
    method PatchAnnotation(before: Option<Digest>, after: Option<Digest>, fate: Fate) returns (result: ApiResult)
      modifies this`annotation
      ensures annotation == if fate.Refused? || before == after then old(annotation) else after
      ensures result == if fate.Done? then Ok else Failed
    {
      if !fate.Refused? && before != after {
        annotation := after;
      }
      result := if fate.Done? then Ok else Failed;
    }
  }

  /** The Extension object in memory, read when the reconcile begins. */
  class Extension {
    var annotation: Option<Digest>
    const deleting: bool
    const generate: bool

    constructor (annotation: Option<Digest>, deleting: bool, generate: bool)
      ensures this.annotation == annotation && this.deleting == deleting && this.generate == generate
    {
      this.annotation, this.deleting, this.generate := annotation, deleting, generate;
    }
  }

  lemma RunUnfolds(s: State, actions: seq<Action>, i: nat)
    requires i < |actions|
    ensures Run(s, actions[i..]) == Run(Step(s, actions[i]), actions[i + 1..])
  {
    hide Step;
    assert actions[i..][0] == actions[i] && actions[i..][1..] == actions[i + 1..];
  }

  lemma RunNothing(s: State, actions: seq<Action>)
    requires actions == []
    ensures Run(s, actions) == s
  {
  }

  // ----- the handler

  class GardenCert {
    const client: Cluster

    constructor (client: Cluster)
      ensures this.client == client
    {
      this.client := client;
    }

    method PatchHashAnnotation(ex: Extension, garden: Option<Garden>, f: Fortune, ghost s: State) returns (err: bool)
      requires client.Is(s) && ex.annotation == client.annotation && Proper(f)
      requires s.task.Task? && s.task.pc == Patching(garden)
      modifies client`gardens, client`annotation, ex`annotation
      ensures client.Is(Handler(s, f)) && err == Handler(s, f).task.NoTask?
    {
      hide Handler, Turn, Run, Preimage;
      HandlerTurn(s, f);
      HandlerTurn(Turn(s, f), f);
      TurnIs(s, f);
      client.Interfere(f.before(Patching(garden)), s);
      var before := ex.annotation;
      if garden.Some? {
        var hash := CalcGardenRelevantDataHash(garden.value);
        ex.annotation := Some(hash);
      } else {
        ex.annotation := None;
      }
      var result := client.PatchAnnotation(before, ex.annotation, f.fate(Patching(garden)));
      return result.Failed?;
    }

    /** gardenCert.delete: one or two calls, up to the end of the handler or its first failure. */
    method Delete(ex: Extension, f: Fortune, ghost s: State) returns (err: bool)
      requires client.Is(s) && ex.annotation == client.annotation && Proper(f)
      requires s.task.Task? && s.task.pc.Deleting? && s.task.deleting == ex.deleting
      modifies client`gardens, client`cert, client`annotation, ex`annotation
      ensures client.Is(Handler(s, f)) && err == Handler(s, f).task.NoTask?
    {
      hide Handler, Turn, Run, CallStep;
      HandlerTurn(s, f);
      HandlerTurn(Turn(s, f), f);
      TurnIs(s, f);
      DeletingStep(Run(s, f.before(Deleting)), f.fate(Deleting));
      client.Interfere(f.before(Deleting), s);
      var result := client.DeleteCertificate(f.fate(Deleting));
      if result != Ok {
        return result != NotFound;
      }
      if ex.deleting {
        return false;
      }
      err := PatchHashAnnotation(ex, None, f, Turn(s, f));
    }

    /** The changes that gardenCert.reconcile makes to the certificate it got, or to a new one. */
    method MutateCertificate(current: Option<Certificate>, dnsNames: seq<string>, garden: Garden)
      returns (cert: Certificate)
      requires dnsNames == DnsNames(garden.Domains())
      ensures CertificateOf(cert, current, garden)
      ensures cert == Written(current, garden)
    {
      hide DnsNames, CertificateOf;
      var annotations: map<AnnotationKey, string> := if current.Some? then current.value.annotations else map[];
      annotations := annotations[ClassKey := CLASS_GARDEN];
      if garden.dns.Some? {
        ghost var before := annotations;
        annotations := annotations[DNSRecordProviderTypeKey := garden.dns.value.providerType];
        annotations := annotations[DNSRecordSecretRefKey := garden.dns.value.secretRef];
        annotations := annotations[DNSRecordClassKey := CLASS_GARDEN];
        assert annotations == before + DNSAnnotations(garden.dns);
      }
      var labels: map<LabelKey, string> := if current.Some? then current.value.labels else map[];
      labels := labels + SECRET_LABELS;
      cert := Certificate(dnsNames, SECRET_LABELS, (SECRET_NAME, GARDEN_NAMESPACE), annotations, labels);
      assert cert == Written(current, garden);
      WrittenIs(current, garden);
    }

    /** The two writes at the end of gardenCert.reconcile. */
    method Write(ex: Extension, garden: Garden, dnsNames: seq<string>, f: Fortune, ghost s: State) returns (err: bool)
      requires client.Is(s) && ex.annotation == client.annotation && Proper(f) && dnsNames == DnsNames(garden.Domains())
      requires s.task.Task? && s.task.pc == Writing(garden)
      modifies client`gardens, client`cert, client`annotation, ex`annotation
      ensures client.Is(Handler(s, f)) && err == Handler(s, f).task.NoTask?
    {
      hide Written, DnsNames, Handler, Turn, Run, CallStep;
      HandlerTurn(s, f);
      HandlerTurn(Turn(s, f), f);
      TurnIs(s, f);
      WritingStep(Run(s, f.before(Writing(garden))), f.fate(Writing(garden)));
      client.Interfere(f.before(Writing(garden)), s);
      var cert := MutateCertificate(client.cert, dnsNames, garden);
      var put := client.PutCertificate(cert, f.fate(Writing(garden)));
      if put != Ok {
        return true;
      }
      err := PatchHashAnnotation(ex, Some(garden), f, Turn(s, f));
    }

    /** gardenCert.reconcile: at most three calls, with the effects and the failures of the protocol. */
    method Reconcile(ex: Extension, f: Fortune, ghost s: State) returns (err: bool)
      requires client.Is(s) && ex.annotation == client.annotation && Proper(f)
      requires s.task.Task? && s.task.pc.Listing? && s.task.deleting == ex.deleting
      modifies client`gardens, client`cert, client`annotation, ex`annotation
      ensures client.Is(Handler(s, f)) && err == Handler(s, f).task.NoTask?
    {
      hide DnsNames, WildcardsOf, Preimage, Handler, Turn, Run, CallStep;
      HandlerTurn(s, f);
      HandlerTurn(Turn(s, f), f);
      TurnIs(s, f);
      ListingStep(Run(s, f.before(Listing)), f.fate(Listing));
      client.Interfere(f.before(Listing), s);
      var listed, gardens := client.ListGardens(f.fate(Listing));
      if listed != Ok {
        return true;
      }
      if |gardens| == 0 {
        return false;
      }
      if |gardens| > 1 {
        return true;
      }
      var garden := gardens[0];
      var dnsNames := CollectDnsNames(garden);
      if |dnsNames| == 0 {
        err := Delete(ex, f, Turn(s, f));
        return;
      }
      err := Write(ex, garden, dnsNames, f, Turn(s, f));
    }
  }

  // ----- the actuator

  /** actuator.Reconcile for a garden Extension whose config is valid: deploy the resources, run the certificate
      handler, update the status. The whole is a flight of the protocol. */
  method ReconcileExtension(client: Cluster, ex: Extension, f: Fortune, ghost s: State) returns (err: bool)
    requires client.Is(s) && ex.annotation == client.annotation && Proper(f)
    requires s.task == Task(Reconcile, ex.generate, ex.deleting, Deploying)
    modifies client`gardens, client`cert, client`annotation, ex`annotation
    ensures client.Is(Flight(s, f)) && err == !Succeeds(s, f)
    ensures !err ==> Outcome(s, Flight(s, f), Listed(s, f))
    ensures AllDone(f) ==> (err <==> ex.generate && |Listed(s, f)| > 1)
  {
    hide Handler, Turn, Run, CallStep, CertificateOf, GardensAfter;
    ReconcileOutcome(s, f);
    HandlerTurn(s, f);
    HandlerTurn(Turn(s, f), f);
    TurnIs(s, f);
    DeployingStep(Run(s, f.before(Deploying)), f.fate(Deploying));
    client.Interfere(f.before(Deploying), s);
    if !f.fate(Deploying).Done? {
      return true;
    }
    err := RunHandler(client, ex, f, Turn(s, f));
    if err {
      return;
    }
    err := FinishExtension(client, f, Handler(s, f));
  }

  /** The generate/delete switch. */
  method RunHandler(client: Cluster, ex: Extension, f: Fortune, ghost s: State) returns (err: bool)
    requires client.Is(s) && ex.annotation == client.annotation && Proper(f)
    requires s.task == Task(Reconcile, ex.generate, ex.deleting, if ex.generate then Listing else Deleting)
    modifies client`gardens, client`cert, client`annotation, ex`annotation
    ensures client.Is(Handler(s, f)) && err == Handler(s, f).task.NoTask?
    ensures !err ==> Handler(s, f).task.pc.Finishing?
  {
    hide Handler;
    HandlerEnds(s, f);
    var handler := new GardenCert(client);
    if ex.generate {
      err := handler.Reconcile(ex, f, s);
    } else {
      err := handler.Delete(ex, f, s);
    }
  }

  /** The status update, or the deletion of the resources. */
  method FinishExtension(client: Cluster, f: Fortune, ghost s: State) returns (err: bool)
    requires client.Is(s) && Proper(f) && s.task.Task? && s.task.pc.Finishing?
    modifies client`gardens
    ensures client.Is(Turn(s, f)) && err == !f.fate(Finishing).Done?
  {
    hide Turn, Run, CallStep;
    TurnIs(s, f);
    FinishingStep(Run(s, f.before(Finishing)), f.fate(Finishing));
    client.Interfere(f.before(Finishing), s);
    err := !f.fate(Finishing).Done?;
  }

  /** actuator.Delete for a garden Extension: run the delete handler, then delete the resources. */
  method DeleteExtension(client: Cluster, ex: Extension, f: Fortune, ghost s: State) returns (err: bool)
    requires client.Is(s) && ex.annotation == client.annotation && Proper(f)
    requires s.task == Task(GardenProtocol.Delete, ex.generate, ex.deleting, Deleting)
    modifies client`gardens, client`cert, client`annotation, ex`annotation
    ensures client.Is(Flight(s, f)) && err == !Succeeds(s, f)
    ensures !err ==> Cleared(s, Flight(s, f)) && client.cert.None?
    ensures AllDone(f) ==> !err
  {
    hide Handler, Turn, Run, CallStep;
    HandlerEnds(s, f);
    DeleteOutcome(s, f);
    var handler := new GardenCert(client);
    err := handler.Delete(ex, f, s);
    if err {
      return;
    }
    TurnIs(Handler(s, f), f);
    FinishingStep(Run(Handler(s, f), f.before(Finishing)), f.fate(Finishing));
    err := FinishExtension(client, f, Handler(s, f));
  }

  // ----- what repeated writes leave in the certificate

  /** The certificate after a series of writes for the given Gardens. */
  function WriteAll(cert: Option<Certificate>, gardens: seq<Garden>): Option<Certificate> {
    if gardens == [] then cert
    else Some(Written(WriteAll(cert, gardens[..|gardens| - 1]), gardens[|gardens| - 1]))
  }

  function DNSPart(cert: Option<Certificate>): map<AnnotationKey, string> {
    if cert.None? then map[]
    else
      map k | k in {DNSRecordProviderTypeKey, DNSRecordSecretRefKey, DNSRecordClassKey} && k in cert.value.annotations
        :: cert.value.annotations[k]
  }

  /** The DNS section of the last Garden that has one. */
  function LastDNS(gardens: seq<Garden>): Option<DNSProvider> {
    if gardens == [] then None
    else
      var last := gardens[|gardens| - 1];
      if last.dns.Some? then last.dns else LastDNS(gardens[..|gardens| - 1])
  }

  /** The names are those of the last Garden and nothing earlier shows in them. The DNS annotations are those of the
      last Garden with a DNS section: a Garden without one does not clear them. */
  lemma {:induction false} WritesForgetNamesKeepDNS(cert: Option<Certificate>, gardens: seq<Garden>)
    requires gardens != []
    ensures WriteAll(cert, gardens).value.dnsNames == DnsNames(gardens[|gardens| - 1].Domains())
    ensures DNSPart(WriteAll(cert, gardens)) ==
      if LastDNS(gardens).Some? then DNSAnnotations(LastDNS(gardens)) else DNSPart(cert)
  {
    hide DnsNames;
    var n := |gardens| - 1;
    var before := WriteAll(cert, gardens[..n]);
    if n > 0 {
      WritesForgetNamesKeepDNS(cert, gardens[..n]);
    } else {
      assert gardens[..n] == [];
    }
    DNSPartWritten(before, gardens[n]);
  }

  /** A Garden that loses its DNS section: the annotations of the old one stay, and the next reconcile keeps them. */
  lemma RemovedDNSStays(garden: Garden, p: DNSProvider)
    ensures var before, after := garden.(dns := Some(p)), garden.(dns := None);
      DNSPart(WriteAll(None, [before, after])) == DNSAnnotations(Some(p)) != DNSPart(WriteAll(None, [after]))
  {
    hide WriteAll, DNSPart;
    var before, after := garden.(dns := Some(p)), garden.(dns := None);
    WritesForgetNamesKeepDNS(None, [before, after]);
    WritesForgetNamesKeepDNS(None, [after]);
    assert [before, after][..1] == [before] && [after][..0] == [];
    assert DNSPart(None) == map[] by {
      NoDNSPart();
    }
    assert DNSRecordClassKey in DNSAnnotations(Some(p));
  }

  lemma NoDNSPart()
    ensures DNSPart(None) == map[]
  {
  }

  lemma DNSPartWritten(before: Option<Certificate>, garden: Garden)
    ensures DNSPart(Some(Written(before, garden))) == if garden.dns.Some? then DNSAnnotations(garden.dns)
      else DNSPart(before)
  {
    hide DnsNames;
  }
}
