/** The operations of the shoot actuator among the actions of the environment, from their first call to their end. */
module ShootFlights {
  import opened GoStrings
  import opened ShootLifecycle

  /** What happens around the API calls of one operation: how each call ends, and what the environment does before
      it. */
  datatype Fortune = Fortune(fate: Pc -> Fate, before: Pc -> seq<Action>)

  predicate Environment(a: Action) {
    a.GrmApply? || a.GrmRemove? || a.GrmRelease? || a.SeedRelease? || a.ClusterChanges?
  }

  /** The environment does not issue the actuator's calls. */
  ghost predicate Proper(f: Fortune) {
    forall pc :: forall i :: 0 <= i < |f.before(pc)| ==> Environment(f.before(pc)[i])
  }

  lemma {:induction false} EnvironmentKeepsPlace(s: State, actions: seq<Action>)
    requires s.task.Task? && forall i :: 0 <= i < |actions| ==> Environment(actions[i])
    ensures Run(s, actions).task.Task? && Run(s, actions).task.pc == s.task.pc && Run(s, actions).task.op == s.task.op
    decreases |actions|
  {
    if actions != [] {
      EnvironmentKeepsPlace(Step(s, actions[0]), actions[1..]);
    }
  }

  /** One call together with what comes before it. */
  function Turn(s: State, f: Fortune): State
    requires s.task.Task?
  {
    Run(s, f.before(s.task.pc) + [Call(f.fate(s.task.pc))])
  }

  /** How many calls are still to come at most. */
  function Left(pc: Pc): (n: nat)
    ensures n > 0
  {
    match pc
    case ShootAccess => 4
    case DeployShoot => 3
    case DeploySeed => 2
    case UpdateStatus => 1
    case SetKeep => 8
    case DeleteShoot => 7
    case WaitShoot => 6
    case GetCluster => 5
    case DropShoot => 4
    case DeleteAccess => 3
    case DeleteSeed => 2
    case WaitSeed => 1
  }

  lemma TurnIs(s: State, f: Fortune)
    requires s.task.Task? && Proper(f)
    ensures var t := Run(s, f.before(s.task.pc));
      t.task.Task? && t.task.pc == s.task.pc && Turn(s, f) == Step(t, Call(f.fate(s.task.pc)))
  {
    hide Step;
    var pc := s.task.pc;
    var t := Run(s, f.before(pc));
    EnvironmentKeepsPlace(s, f.before(pc));
    RunAppend(s, f.before(pc), [Call(f.fate(pc))]);
    assert [Call(f.fate(pc))][1..] == [];
    assert Run(t, [Call(f.fate(pc))]) == Run(Step(t, Call(f.fate(pc))), []);
  }

  lemma AfterIsNearer(pc: Pc, ok: bool, hibernated: bool)
    ensures After(pc, ok, hibernated).Some? ==> Left(After(pc, ok, hibernated).value) < Left(pc)
  {
  }

  lemma CallComesNearer(s: State, fate: Fate)
    requires s.task.Task?
    ensures Step(s, Call(fate)).task.Task? ==> Left(Step(s, Call(fate)).task.pc) < Left(s.task.pc)
  {
    hide Effect, After, Left, Success;
    var found := s.task.pc.DropShoot? ==> s.shoot.Some?;
    var t := if fate.Refused? then s else Effect(s);
    AfterIsNearer(s.task.pc, Success(t, fate.Done? && found), t.hibernated);
  }

  lemma TurnComesNearer(s: State, f: Fortune)
    requires s.task.Task? && Proper(f)
    ensures Turn(s, f).task.Task? ==> Left(Turn(s, f).task.pc) < Left(s.task.pc)
  {
    hide Step, Run, Turn, Left;
    TurnIs(s, f);
    CallComesNearer(Run(s, f.before(s.task.pc)), f.fate(s.task.pc));
  }

  /** The operation from its pending call to its end. */
  ghost function Flight(s: State, f: Fortune): State
    requires Proper(f)
    decreases if s.task.NoTask? then 0 else Left(s.task.pc)
  {
    if s.task.NoTask? then s
    else
      TurnComesNearer(s, f);
      Flight(Turn(s, f), f)
  }

  /** A flight is a run of the lifecycle that ends: what holds over every run holds for the code. */
  lemma {:induction false} FlightIsRun(s: State, f: Fortune)
    requires Proper(f)
    ensures Flight(s, f).task.NoTask?
    ensures exists actions :: Flight(s, f) == Run(s, actions)
    decreases if s.task.NoTask? then 0 else Left(s.task.pc)
  {
    hide Step, Turn, Left;
    if s.task.NoTask? {
      assert Flight(s, f) == Run(s, []);
    } else {
      TurnComesNearer(s, f);
      FlightIsRun(Turn(s, f), f);
      var rest :| Flight(Turn(s, f), f) == Run(Turn(s, f), rest);
      var first := f.before(s.task.pc) + [Call(f.fate(s.task.pc))];
      assert Turn(s, f) == Run(s, first) by { TurnUnfolds(s, f); }
      RunAppend(s, first, rest);
      assert Flight(s, f) == Run(s, first + rest);
    }
  }

  lemma TurnUnfolds(s: State, f: Fortune)
    requires s.task.Task?
    ensures Turn(s, f) == Run(s, f.before(s.task.pc) + [Call(f.fate(s.task.pc))])
  {
  }

  // ----- what a successful Delete leaves

  predicate Intact(s: State) {
    s.shoot.Some? && !s.shoot.value.deleting
  }

  lemma CallKeepsIntact(s: State, fate: Fate)
    requires Intact(s) && s.task.Task? && (s.task.pc.DeleteShoot? ==> fate.Refused?)
    ensures Intact(Step(s, Call(fate)))
  {
    hide Step, RawStep, After, Success, Doomed, Released;
    CallContinues(s, fate);
    ObservingChangesNothing(s, Call(fate));
  }

  lemma OthersKeepIntact(s: State, a: Action)
    requires Intact(s) && Environment(a)
    ensures Intact(Step(s, a))
  {
    hide CallStep;
  }

  lemma {:induction false} EnvironmentKeepsIntact(s: State, actions: seq<Action>)
    requires Intact(s) && forall i :: 0 <= i < |actions| ==> Environment(actions[i])
    ensures Intact(Run(s, actions))
    decreases |actions|
  {
    hide Step, Intact;
    if actions != [] {
      OthersKeepIntact(s, actions[0]);
      EnvironmentKeepsIntact(Step(s, actions[0]), actions[1..]);
    }
  }

  lemma {:induction false} IntactStays(s: State, f: Fortune)
    requires Proper(f) && Intact(s) && f.fate(DeleteShoot).Refused?
    ensures Intact(Flight(s, f))
    decreases if s.task.NoTask? then 0 else Left(s.task.pc)
  {
    hide Step, Run, Turn, Left, Intact;
    FlightTurn(s, f);
    if s.task.Task? {
      TurnComesNearer(s, f);
      TurnIs(s, f);
      EnvironmentKeepsIntact(s, f.before(s.task.pc));
      CallKeepsIntact(Run(s, f.before(s.task.pc)), f.fate(s.task.pc));
      IntactStays(Turn(s, f), f);
    }
  }

  lemma {:induction false} EnvironmentKeepsOrder(s: State, actions: seq<Action>)
    requires Ordered(s) && s.task.Task? && forall i :: 0 <= i < |actions| ==> Environment(actions[i])
    ensures var t := Run(s, actions);
      Ordered(t) && t.task.Task? && t.task.pc == s.task.pc && t.task.op == s.task.op
        && (s.task.doomed ==> t.task.doomed)
    decreases |actions|
  {
    hide Ordered, Step;
    if actions != [] {
      StepOrdered(s, actions[0]);
      EnvironmentKeepsTask(s, actions[0]);
      EnvironmentKeepsOrder(Step(s, actions[0]), actions[1..]);
    }
  }

  lemma EnvironmentKeepsTask(s: State, a: Action)
    requires s.task.Task? && Environment(a)
    ensures var t := Step(s, a);
      t.task.Task? && t.task.pc == s.task.pc && t.task.op == s.task.op && (s.task.doomed ==> t.task.doomed)
  {
  }

  lemma CallKeepsTask(s: State, fate: Fate)
    requires s.task.Task?
    ensures var t := Step(s, Call(fate));
      && (t.task.Task? ==> t.task.op == s.task.op && (s.task.doomed || Doomed(t) ==> t.task.doomed))
      && (t.task.NoTask? && !t.failed ==> Completes(s, fate))
  {
    hide Effect, Success, After;
  }

  /** From any state of a Delete or Migrate: success means that the seed side is gone, and the shoot resource if it
      was seen gone or being deleted. */
  lemma {:induction false} SuccessRemoves(s: State, f: Fortune)
    requires Proper(f) && Ordered(s) && s.task.Task? && !s.task.op.Reconcile? && !Flight(s, f).failed
    ensures Flight(s, f).seed.None? && !Flight(s, f).accessSecret
    ensures s.task.doomed ==> Flight(s, f).shoot.None?
    decreases Left(s.task.pc)
  {
    hide Step, Run, Turn, Left, Ordered, Completes, Flight, Doomed;
    FlightTurn(s, f);
    TurnIs(s, f);
    TurnComesNearer(s, f);
    EnvironmentKeepsOrder(s, f.before(s.task.pc));
    var t := Run(s, f.before(s.task.pc));
    var fate := f.fate(s.task.pc);
    CallKeepsTask(t, fate);
    StepOrdered(t, Call(fate));
    FlightTurn(Turn(s, f), f);
    if Turn(s, f).task.Task? {
      SuccessRemoves(Turn(s, f), f);
    } else {
      CompletingCall(t, fate);
    }
  }

  /** A Delete or Migrate that returns without error leaves nothing on the seed side. It leaves the shoot resource
      behind exactly if that was there and not being deleted, and the request to delete it was refused. */
  lemma CompletedDelete(s: State, op: Op, f: Fortune)
    requires s.task.NoTask? && !op.Reconcile? && Proper(f)
    requires !Flight(Step(s, Begin(op)), f).failed
    ensures var t := Flight(Step(s, Begin(op)), f);
      && t.seed.None? && !t.accessSecret
      && (t.shoot.Some? <==> Intact(s) && f.fate(DeleteShoot).Refused?)
  {
    hide Step, Run, Turn, Left, Flight, Ordered, Intact, Doomed;
    var b := Step(s, Begin(op));
    Begun(s, op);
    SuccessRemoves(b, f);
    if Intact(s) {
      if f.fate(DeleteShoot).Refused? {
        IntactStays(b, f);
        IntactIsThere(Flight(b, f));
      } else if op.Delete? {
        RequestDooms(b, f);
      } else {
        KeepThenRequestDooms(b, f);
      }
    }
  }

  lemma IntactIsThere(s: State)
    requires Intact(s)
    ensures s.shoot.Some?
  {
  }

  lemma Begun(s: State, op: Op)
    requires s.task.NoTask? && !op.Reconcile?
    ensures var b := Step(s, Begin(op));
      && Ordered(b) && b.task.Task? && b.task.op == op && b.task.pc == (if op.Delete? then DeleteShoot else SetKeep)
      && Intact(b) == Intact(s) && (!Intact(s) ==> b.task.doomed)
  {
  }

  /** Once the request has its effect, the shoot resource is gone at a successful end. */
  lemma RequestDooms(s: State, f: Fortune)
    requires Proper(f) && Ordered(s) && s.task.Task? && !s.task.op.Reconcile? && s.task.pc.DeleteShoot?
    requires !f.fate(DeleteShoot).Refused? && !Flight(s, f).failed
    ensures Flight(s, f).shoot.None?
  {
    hide Step, Run, Turn, Left, Flight, Ordered, Doomed;
    FlightTurn(s, f);
    TurnIs(s, f);
    EnvironmentKeepsOrder(s, f.before(DeleteShoot));
    var t := Run(s, f.before(DeleteShoot));
    RequestMarks(t, f.fate(DeleteShoot));
    CallKeepsTask(t, f.fate(DeleteShoot));
    StepOrdered(t, Call(f.fate(DeleteShoot)));
    SuccessRemoves(Turn(s, f), f);
  }

  lemma RequestMarks(s: State, fate: Fate)
    requires s.task.Task? && s.task.pc.DeleteShoot? && !fate.Refused?
    ensures Doomed(Step(s, Call(fate))) && Step(s, Call(fate)).task.Task?
  {
  }

  lemma KeepThenRequestDooms(s: State, f: Fortune)
    requires Proper(f) && Ordered(s) && s.task.Task? && s.task.op.Migrate? && s.task.pc.SetKeep?
    requires !f.fate(DeleteShoot).Refused? && !Flight(s, f).failed
    ensures Flight(s, f).shoot.None?
  {
    hide Step, Run, Turn, Left, Flight, Ordered, Doomed;
    FlightTurn(s, f);
    FlightTurn(Turn(s, f), f);
    TurnIs(s, f);
    EnvironmentKeepsOrder(s, f.before(SetKeep));
    var t := Run(s, f.before(SetKeep));
    CallKeepsTask(t, f.fate(SetKeep));
    StepOrdered(t, Call(f.fate(SetKeep)));
    KeepGoesOn(t, f.fate(SetKeep));
    RequestDooms(Turn(s, f), f);
  }

  lemma KeepGoesOn(s: State, fate: Fate)
    requires s.task.Task? && s.task.pc.SetKeep?
    ensures var t := Step(s, Call(fate));
      if t.task.Task? then t.task.pc.DeleteShoot? else t.failed
  {
  }

  lemma FlightTurn(s: State, f: Fortune)
    requires Proper(f)
    ensures s.task.Task? ==> Flight(s, f) == Flight(Turn(s, f), f)
    ensures s.task.NoTask? ==> Flight(s, f) == s
  {
  }

  // ----- what one call does

  /** What a call comes down to: its effect, its success, and the next call. */
  lemma CallContinues(s: State, fate: Fate)
    requires s.task.Task?
    ensures var t := if fate.Refused? then s else Effect(s);
      var ok := Success(t, fate.Done? && (s.task.pc.DropShoot? ==> s.shoot.Some?));
      var r := RawStep(s, Call(fate));
      && r.shoot == t.shoot && r.seed == t.seed && r.accessSecret == t.accessSecret && r.shootObjects == t.shootObjects
      && r.hibernated == t.hibernated && r.deletingForLong == t.deletingForLong
      && match After(s.task.pc, ok, t.hibernated) {
           case None => r.task.NoTask? && r.failed == !ok
           case Some(pc) => r.task.Task? && r.task.pc == pc
         }
  {
    hide After, Effect, Success;
  }

  /** Observing a state changes nothing in the cluster. */
  lemma ObservingChangesNothing(s: State, a: Action)
    ensures var t, r := Step(s, a), RawStep(s, a);
      t.shoot == r.shoot && t.seed == r.seed && t.accessSecret == r.accessSecret && t.shootObjects == r.shootObjects
      && t.hibernated == r.hibernated && t.deletingForLong == r.deletingForLong
  {
    hide RawStep;
  }

  lemma ObservingKeepsPlace(s: State, a: Action)
    ensures var t, r := Step(s, a), RawStep(s, a);
      t.failed == r.failed && (t.task.NoTask? <==> r.task.NoTask?) && (t.task.Task? ==> t.task.pc == r.task.pc)
  {
    hide RawStep;
  }
}
