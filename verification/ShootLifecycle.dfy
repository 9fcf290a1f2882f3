/** Reconcile, Delete and Migrate of the shoot actuator, one API call at a time, with the resource manager acting
    between any two calls and every call subject to failure. */
module ShootLifecycle {
  import opened GoStrings

  /** A ManagedResource: deletion waits for the finalizer that the resource manager puts on it. */
  datatype ManagedResource = ManagedResource(keepObjects: bool, deleting: bool, finalizer: bool)

  datatype Op = Reconcile | Delete | Migrate

  /** The next API call of the operation in flight. */
  datatype Pc =
    | ShootAccess | DeployShoot | DeploySeed | UpdateStatus
    | SetKeep
    | DeleteShoot | WaitShoot | GetCluster | DropShoot
    | DeleteAccess | DeleteSeed | WaitSeed

  /** What was seen since the operation began: the shoot resource gone or without finalizer (released), and the shoot
      resource gone or being deleted (doomed). The actuator does not know either. */
  datatype Task = NoTask | Task(op: Op, pc: Pc, released: bool, doomed: bool)

  datatype State = State(
    shoot: Option<ManagedResource>,
    seed: Option<ManagedResource>,
    accessSecret: bool,
    shootObjects: set<string>,
    hibernated: bool,
    deletingForLong: bool,
    task: Task,
    failed: bool)

  datatype Fate = Done | Refused | Lost

  datatype Action =
    | Begin(op: Op)
    | Call(fate: Fate)
    | GrmApply(names: set<string>)
    | GrmRemove(name: string)
    | GrmRelease
    | SeedRelease
    | ClusterChanges(hibernated: bool, deletingForLong: bool)

  // ----- the API server

  /** managedresources.Create: an existing resource is updated, and its objects are not kept any more. */
  function Upserted(mr: Option<ManagedResource>): ManagedResource {
    if mr.None? then ManagedResource(false, false, false) else mr.value.(keepObjects := false)
  }

  /** A delete request removes the object, or marks it if there is a finalizer. */
  function AfterDelete(mr: Option<ManagedResource>): Option<ManagedResource> {
    if mr.None? || !mr.value.finalizer then None else Some(mr.value.(deleting := true))
  }

  /** Removing the finalizers removes an object that is marked. */
  function AfterDrop(mr: Option<ManagedResource>): Option<ManagedResource> {
    if mr.None? || mr.value.deleting then None else Some(mr.value.(finalizer := false))
  }

  function AfterKeep(mr: Option<ManagedResource>): Option<ManagedResource> {
    if mr.None? then None else Some(mr.value.(keepObjects := true))
  }

  // ----- controller calls

  function End(s: State, failed: bool): State {
    s.(task := NoTask, failed := failed)
  }

  function Goto(s: State, pc: Pc): State
    requires s.task.Task?
  {
    s.(task := s.task.(pc := pc))
  }

  /** The effect of the pending call on the API server. */
  function Effect(s: State): (t: State)
    requires s.task.Task?
    ensures t.task == s.task
  {
    match s.task.pc
    case ShootAccess => s.(accessSecret := true)
    case DeployShoot => s.(shoot := Some(Upserted(s.shoot)))
    case DeploySeed => s.(seed := Some(Upserted(s.seed)))
    case SetKeep => s.(shoot := AfterKeep(s.shoot))
    case DeleteShoot => s.(shoot := AfterDelete(s.shoot))
    case DropShoot => s.(shoot := AfterDrop(s.shoot))
    case DeleteAccess => s.(accessSecret := false)
    case DeleteSeed => s.(seed := AfterDelete(s.seed))
    case UpdateStatus | WaitShoot | GetCluster | WaitSeed => s
  }

  /** Whether a call that returned goes on: the waits succeed if the resource is gone, and otherwise time out; the
      finalizers are dropped only for a shoot that has been deleting for long. */
  predicate Success(s: State, ok: bool)
    requires s.task.Task?
  {
    && ok
    && (s.task.pc.WaitShoot? ==> s.shoot.None?)
    && (s.task.pc.WaitSeed? ==> s.seed.None?)
    && (s.task.pc.GetCluster? ==> s.deletingForLong)
  }

  /** The next call, if any. */
  function After(pc: Pc, ok: bool, hibernated: bool): Option<Pc> {
    match pc
    case ShootAccess => if !ok then None else Some(if hibernated then DeploySeed else DeployShoot)
    case DeployShoot => if !ok then None else Some(DeploySeed)
    case DeploySeed => if !ok then None else Some(UpdateStatus)
    case UpdateStatus => None
    case SetKeep => if !ok then None else Some(DeleteShoot)
    case DeleteShoot => Some(if ok then WaitShoot else GetCluster)
    case WaitShoot => Some(if ok then DeleteAccess else GetCluster)
    case GetCluster => if !ok then None else Some(DropShoot)
    case DropShoot => if !ok then None else Some(DeleteAccess)
    case DeleteAccess => if !ok then None else Some(DeleteSeed)
    case DeleteSeed => if !ok then None else Some(WaitSeed)
    case WaitSeed => None
  }

  function Continue(s: State, ok: bool): State
    requires s.task.Task?
  {
    match After(s.task.pc, Success(s, ok), s.hibernated)
    case None => End(s, !Success(s, ok))
    case Some(pc) => Goto(s, pc)
  }

  /** A call is done, refused, or done although the caller gets an error. Dropping needs the resource to be there. */
  function CallStep(s: State, fate: Fate): State
    requires s.task.Task?
  {
    var found := s.task.pc.DropShoot? ==> s.shoot.Some?;
    Continue(if fate.Refused? then s else Effect(s), fate.Done? && found)
  }

  // ----- steps

  predicate Released(s: State) {
    s.shoot.None? || !s.shoot.value.finalizer
  }

  predicate Doomed(s: State) {
    s.shoot.None? || s.shoot.value.deleting
  }

  /** Writes down what the state shows. */
  function Observed(s: State): State {
    if s.task.NoTask? then s
    else s.(task := s.task.(released := s.task.released || Released(s), doomed := s.task.doomed || Doomed(s)))
  }

  function FirstCall(op: Op): Pc {
    match op
    case Reconcile => ShootAccess
    case Delete => DeleteShoot
    case Migrate => SetKeep
  }

  function RawStep(s: State, a: Action): State {
    match a
    case Begin(op) => if s.task.NoTask? then s.(task := Task(op, FirstCall(op), false, false)) else s
    case Call(fate) => if s.task.Task? then CallStep(s, fate) else s
    case GrmApply(names) =>
      if s.shoot.Some? && !s.shoot.value.deleting then
        s.(shoot := Some(s.shoot.value.(finalizer := true)), shootObjects := s.shootObjects + names)
      else s
    case GrmRemove(name) =>
      if s.shoot.Some? && s.shoot.value.deleting && !s.shoot.value.keepObjects
        then s.(shootObjects := s.shootObjects - {name})
      else s
    case GrmRelease => if s.shoot.Some? && s.shoot.value.deleting then s.(shoot := None) else s
    case SeedRelease => if s.seed.Some? && s.seed.value.deleting then s.(seed := None) else s
    case ClusterChanges(hibernated, deletingForLong) => s.(hibernated := hibernated, deletingForLong := deletingForLong)
  }

  function Step(s: State, a: Action): State {
    Observed(RawStep(s, a))
  }

  function Run(s: State, actions: seq<Action>): State
    decreases |actions|
  {
    if actions == [] then s else Run(Step(s, actions[0]), actions[1..])
  }

  lemma {:induction false} RunAppend(s: State, a: seq<Action>, b: seq<Action>)
    ensures Run(s, a + b) == Run(Run(s, a), b)
    decreases |a|
  {
    if a == [] {
      assert a + b == b;
    } else {
      assert (a + b)[1..] == a[1..] + b;
      RunAppend(Step(s, a[0]), a[1..], b);
    }
  }

  // ----- the seed side goes last

  predicate SeedPhase(pc: Pc) {
    pc.DeleteAccess? || pc.DeleteSeed? || pc.WaitSeed?
  }

  predicate ShootPhase(pc: Pc) {
    pc.WaitShoot? || pc.DropShoot? || pc.GetCluster? || pc.DeleteShoot?
  }

  /** The access secret goes, or the seed resource is deleted. */
  predicate RemovesSeedSide(s: State, t: State) {
    (s.accessSecret && !t.accessSecret)
      || (s.seed.Some? && (t.seed.None? || (t.seed.value.deleting && !s.seed.value.deleting)))
  }

  predicate Ordered(s: State) {
    && (s.task.Task? && SeedPhase(s.task.pc) ==> s.task.released)
    && (s.task.Task? && (SeedPhase(s.task.pc) || ShootPhase(s.task.pc)) ==> !s.task.op.Reconcile?)
    && (s.task.Task? && s.task.doomed && !s.task.op.Reconcile? ==> Doomed(s))
    && (s.task.Task? && SeedPhase(s.task.pc) && s.task.doomed ==> s.shoot.None?)
    && (s.task.Task? && (s.task.pc.DeleteSeed? || s.task.pc.WaitSeed?) ==> !s.accessSecret)
    && (s.task.Task? && Released(s) ==> s.task.released)
    && (s.task.Task? && Doomed(s) ==> s.task.doomed)
    && (s.task.Task? && s.task.op.Reconcile? ==> s.task.pc in {ShootAccess, DeployShoot, DeploySeed, UpdateStatus})
    && (s.task.Task? && !s.task.op.Reconcile? ==> s.task.pc !in {ShootAccess, DeployShoot, DeploySeed, UpdateStatus})
  }

  lemma CallOrdered(s: State, fate: Fate)
    requires Ordered(s) && s.task.Task?
    ensures Ordered(Step(s, Call(fate)))
    ensures RemovesSeedSide(s, Step(s, Call(fate))) ==> s.task.released && SeedPhase(s.task.pc)
  {
    hide Step, Ordered, RemovesSeedSide, SeedPhase;
    if s.task.pc.ShootAccess? || s.task.pc.DeployShoot? || s.task.pc.DeploySeed? || s.task.pc.UpdateStatus? {
      DeployOrdered(s, fate);
    } else if s.task.pc.SetKeep? || s.task.pc.WaitShoot? {
      KeepOrWaitOrdered(s, fate);
    } else if s.task.pc.DeleteShoot? {
      ReleaseOrdered(s, fate);
    } else if s.task.pc.GetCluster? || s.task.pc.DropShoot? {
      DropOrdered(s, fate);
    } else {
      RemovalOrdered(s, fate);
    }
  }

  lemma DeployOrdered(s: State, fate: Fate)
    requires Ordered(s) && s.task.Task?
    requires s.task.pc.ShootAccess? || s.task.pc.DeployShoot? || s.task.pc.DeploySeed? || s.task.pc.UpdateStatus?
    ensures Ordered(Step(s, Call(fate)))
    ensures RemovesSeedSide(s, Step(s, Call(fate))) ==> s.task.released && SeedPhase(s.task.pc)
  {
  }

  lemma KeepOrWaitOrdered(s: State, fate: Fate)
    requires Ordered(s) && s.task.Task?
    requires s.task.pc.SetKeep? || s.task.pc.WaitShoot?
    ensures Ordered(Step(s, Call(fate)))
    ensures RemovesSeedSide(s, Step(s, Call(fate))) ==> s.task.released && SeedPhase(s.task.pc)
  {
  }

  lemma ReleaseOrdered(s: State, fate: Fate)
    requires Ordered(s) && s.task.Task?
    requires s.task.pc.DeleteShoot?
    ensures Ordered(Step(s, Call(fate)))
    ensures RemovesSeedSide(s, Step(s, Call(fate))) ==> s.task.released && SeedPhase(s.task.pc)
  {
  }

  lemma DropOrdered(s: State, fate: Fate)
    requires Ordered(s) && s.task.Task?
    requires s.task.pc.GetCluster? || s.task.pc.DropShoot?
    ensures Ordered(Step(s, Call(fate)))
    ensures RemovesSeedSide(s, Step(s, Call(fate))) ==> s.task.released && SeedPhase(s.task.pc)
  {
  }

  lemma RemovalOrdered(s: State, fate: Fate)
    requires Ordered(s) && s.task.Task?
    requires s.task.pc.DeleteAccess? || s.task.pc.DeleteSeed? || s.task.pc.WaitSeed?
    ensures Ordered(Step(s, Call(fate)))
    ensures RemovesSeedSide(s, Step(s, Call(fate))) ==> s.task.released && SeedPhase(s.task.pc)
  {
  }

  lemma StepOrdered(s: State, a: Action)
    requires Ordered(s)
    ensures Ordered(Step(s, a))
  {
    if a.Call? && s.task.Task? {
      CallOrdered(s, a.fate);
    }
  }

  /** Over every run: the actuator starts to remove the seed side only after the shoot resource was gone or had lost its
      finalizer since the operation began. */
  lemma {:induction false} SeedSideGoesLast(s: State, actions: seq<Action>, fate: Fate)
    requires Ordered(s)
    ensures Ordered(Run(s, actions))
    ensures var t := Run(s, actions);
      t.task.Task? && RemovesSeedSide(t, Step(t, Call(fate))) ==> t.task.released
    decreases |actions|
  {
    if actions == [] {
      if s.task.Task? {
        CallOrdered(s, fate);
      }
    } else {
      StepOrdered(s, actions[0]);
      SeedSideGoesLast(Step(s, actions[0]), actions[1..], fate);
    }
  }

  /** The operation in flight ends with this call and without an error. */
  predicate Completes(s: State, fate: Fate) {
    s.task.Task? && Step(s, Call(fate)).task.NoTask? && !Step(s, Call(fate)).failed
  }

  /** The last call of a Delete or Migrate without error leaves nothing on the seed side. If the shoot resource was
      seen gone or being deleted since the operation began, it is gone. */
  lemma CompletingCall(s: State, fate: Fate)
    requires Ordered(s) && Completes(s, fate) && !s.task.op.Reconcile?
    ensures Step(s, Call(fate)).seed.None? && !Step(s, Call(fate)).accessSecret
    ensures s.task.doomed ==> Step(s, Call(fate)).shoot.None?
  {
    LastCall(s, fate);
  }

  /** Waiting for the seed resource is the last call. */
  lemma LastCall(s: State, fate: Fate)
    requires Completes(s, fate) && !s.task.pc.UpdateStatus?
    ensures s.task.pc.WaitSeed?
  {
  }

  // ----- a shoot resource that survives a successful Delete

  function Installed(objects: set<string>): State {
    State(Some(ManagedResource(false, false, true)), Some(ManagedResource(false, false, true)), true, objects, false,
      true, NoTask, false)
  }

  const REFUSED_DELETE: seq<Action> := [Begin(Delete), Call(Refused), Call(Done), Call(Done)]
  const SEED_REMOVAL: seq<Action> := [Call(Done), Call(Done), SeedRelease, Call(Done)]

  lemma FinalizerDropped(s: State)
    requires s == Installed(s.shootObjects)
    ensures Run(s, REFUSED_DELETE) ==
            s.(shoot := Some(ManagedResource(false, false, false)), task := Task(Delete, DeleteAccess, true, false))
  {
    hide Step, Run;
    Four(s, Begin(Delete), Call(Refused), Call(Done), Call(Done));
    DeleteBegins(s);
    DeleteRefused(s.(task := Task(Delete, DeleteShoot, false, false)));
    ClusterRead(s.(task := Task(Delete, GetCluster, false, false)));
    ShootDropped(s.(task := Task(Delete, DropShoot, false, false)));
  }

  lemma DeleteBegins(s: State)
    requires s.task.NoTask? && !Released(s) && !Doomed(s)
    ensures Step(s, Begin(Delete)) == s.(task := Task(Delete, DeleteShoot, false, false))
  {
  }

  lemma DeleteRefused(s: State)
    requires s.task == Task(Delete, DeleteShoot, false, false) && !Released(s) && !Doomed(s)
    ensures Step(s, Call(Refused)) == s.(task := Task(Delete, GetCluster, false, false))
  {
  }

  lemma ClusterRead(s: State)
    requires s.task == Task(Delete, GetCluster, false, false) && !Released(s) && !Doomed(s) && s.deletingForLong
    ensures Step(s, Call(Done)) == s.(task := Task(Delete, DropShoot, false, false))
  {
  }

  lemma ShootDropped(s: State)
    requires s.task == Task(Delete, DropShoot, false, false) && !Released(s) && !Doomed(s)
    ensures Step(s, Call(Done)) ==
            s.(shoot := Some(s.shoot.value.(finalizer := false)), task := Task(Delete, DeleteAccess, true, false))
  {
  }

  lemma SeedRemoved(s: State)
    requires s.task == Task(Delete, DeleteAccess, true, false) && !Doomed(s) && Released(s)
    requires s.seed == Some(ManagedResource(false, false, true))
    ensures Run(s, SEED_REMOVAL) == s.(accessSecret := false, seed := None, task := NoTask, failed := false)
  {
    hide Step, Run, Doomed, Released;
    Four(s, Call(Done), Call(Done), SeedRelease, Call(Done));
    AccessDeleted(s);
    var s1 := s.(accessSecret := false, task := Task(Delete, DeleteSeed, true, false));
    SeedDeleted(s1);
    SeedGone(s1.(seed := Some(ManagedResource(false, true, true)), task := Task(Delete, WaitSeed, true, false)));
  }

  lemma AccessDeleted(s: State)
    requires s.task == Task(Delete, DeleteAccess, true, false) && !Doomed(s) && Released(s)
    ensures var t := s.(accessSecret := false, task := Task(Delete, DeleteSeed, true, false));
      Step(s, Call(Done)) == t && !Doomed(t) && Released(t)
  {
  }

  lemma SeedDeleted(s: State)
    requires s.task == Task(Delete, DeleteSeed, true, false) && !Doomed(s) && Released(s)
    requires s.seed == Some(ManagedResource(false, false, true))
    ensures var t := s.(seed := Some(ManagedResource(false, true, true)), task := Task(Delete, WaitSeed, true, false));
      Step(s, Call(Done)) == t && !Doomed(t) && Released(t)
  {
  }

  lemma SeedGone(s: State)
    requires s.task == Task(Delete, WaitSeed, true, false) && !Doomed(s) && Released(s)
    requires s.seed == Some(ManagedResource(false, true, true))
    ensures Step(Step(s, SeedRelease), Call(Done)) == s.(seed := None, task := NoTask, failed := false)
  {
    assert Step(s, SeedRelease) == s.(seed := None);
  }

  /** The delete request for the shoot resource is refused, the shoot has been deleting for long, so the finalizers are
      dropped and the seed side is removed. The operation succeeds, the shoot resource stays. */
  lemma SurvivingShootResource(objects: set<string>)
    ensures var t := Run(Installed(objects), REFUSED_DELETE + SEED_REMOVAL);
      t.task.NoTask? && !t.failed && t.seed.None? && !t.accessSecret
        && t.shoot == Some(ManagedResource(false, false, false))
  {
    hide Run;
    FinalizerDropped(Installed(objects));
    SeedRemoved(Run(Installed(objects), REFUSED_DELETE));
    RunAppend(Installed(objects), REFUSED_DELETE, SEED_REMOVAL);
  }

  lemma Four(s: State, a: Action, b: Action, c: Action, d: Action)
    ensures Run(s, [a, b, c, d]) == Step(Step(Step(Step(s, a), b), c), d)
  {
    hide Step;
    assert [a, b, c, d][1..] == [b, c, d];
    assert [b, c, d][1..] == [c, d];
    assert [c, d][1..] == [d];
    assert Run(s, [a, b, c, d]) == Run(Step(s, a), [b, c, d]);
    assert Run(Step(s, a), [b, c, d]) == Run(Step(Step(s, a), b), [c, d]);
    assert Run(Step(Step(s, a), b), [c, d]) == Run(Step(Step(Step(s, a), b), c), [d]);
    assert [d][1..] == [];
    assert Run(Step(Step(Step(s, a), b), c), [d]) == Run(Step(Step(Step(Step(s, a), b), c), d), []);
  }

  // ----- a migration keeps the objects in the shoot

  /** The resource manager is about to remove objects, or may be. */
  predicate AtRisk(s: State) {
    s.shoot.Some? && s.shoot.value.deleting && !s.shoot.value.keepObjects
  }

  /** Objects are kept, or nothing is being deleted and the next thing that could delete it first has them kept. */
  predicate Kept(s: State) {
    && (s.shoot.Some? && !s.shoot.value.keepObjects ==>
          !s.shoot.value.deleting && (s.task.Task? ==> s.task.op.Migrate? && s.task.pc.SetKeep?))
    && (s.task.Task? ==> !s.task.op.Reconcile? && s.task.pc !in {ShootAccess, DeployShoot, DeploySeed, UpdateStatus})
  }

  /** During and after a migration: no Reconcile, and a Delete only once the objects are kept. */
  predicate Migrating(s: State, a: Action) {
    a.Begin? && s.task.NoTask? ==> a.op.Migrate? || (a.op.Delete? && (s.shoot.Some? ==> s.shoot.value.keepObjects))
  }

  ghost predicate MigratingRun(s: State, actions: seq<Action>)
    decreases |actions|
  {
    actions != [] ==> Migrating(s, actions[0]) && MigratingRun(Step(s, actions[0]), actions[1..])
  }

  lemma StepKept(s: State, a: Action)
    requires Kept(s) && Migrating(s, a)
    ensures Kept(Step(s, a)) && s.shootObjects <= Step(s, a).shootObjects
  {
    if a.Call? && s.task.Task? {
      CallKept(s, a.fate);
    }
  }

  lemma CallKept(s: State, fate: Fate)
    requires Kept(s) && s.task.Task?
    ensures Kept(Step(s, Call(fate))) && s.shootObjects == Step(s, Call(fate)).shootObjects
  {
    hide Step;
    if s.task.pc.SetKeep? || s.task.pc.DeleteShoot? || s.task.pc.WaitShoot? {
      ReleaseKept(s, fate);
    } else if s.task.pc.GetCluster? || s.task.pc.DropShoot? {
      DropKept(s, fate);
    } else {
      RemovalKept(s, fate);
    }
  }

  lemma ReleaseKept(s: State, fate: Fate)
    requires Kept(s) && s.task.Task?
    requires s.task.pc.SetKeep? || s.task.pc.DeleteShoot? || s.task.pc.WaitShoot?
    ensures Kept(Step(s, Call(fate))) && s.shootObjects == Step(s, Call(fate)).shootObjects
  {
  }

  lemma DropKept(s: State, fate: Fate)
    requires Kept(s) && s.task.Task?
    requires s.task.pc.GetCluster? || s.task.pc.DropShoot?
    ensures Kept(Step(s, Call(fate))) && s.shootObjects == Step(s, Call(fate)).shootObjects
  {
  }

  lemma RemovalKept(s: State, fate: Fate)
    requires Kept(s) && s.task.Task?
    requires s.task.pc.DeleteAccess? || s.task.pc.DeleteSeed? || s.task.pc.WaitSeed?
    ensures Kept(Step(s, Call(fate))) && s.shootObjects == Step(s, Call(fate)).shootObjects
  {
  }

  lemma {:induction false} KeptRun(s: State, actions: seq<Action>)
    requires Kept(s) && MigratingRun(s, actions)
    ensures Kept(Run(s, actions)) && s.shootObjects <= Run(s, actions).shootObjects
    decreases |actions|
  {
    if actions != [] {
      StepKept(s, actions[0]);
      KeptRun(Step(s, actions[0]), actions[1..]);
    }
  }

  /** A run that begins with a Migrate, and ends with success and nothing in flight. */
  ghost predicate Migration(s: State, actions: seq<Action>) {
    && actions != [] && actions[0] == Begin(Migrate) && MigratingRun(s, actions)
    && Run(s, actions).task.NoTask? && !Run(s, actions).failed
  }

  /** Successful migrations never remove an object from the shoot, exactly if the shoot resource is not already being
      deleted with its objects when the Migrate begins. */
  lemma MigrateKeepsObjects(s: State)
    requires s.task.NoTask?
    ensures (forall actions :: Migration(s, actions) ==> s.shootObjects <= Run(s, actions).shootObjects) <==>
      !(AtRisk(s) && s.shootObjects != {})
  {
    hide Run, MigratingRun, Kept;
    if AtRisk(s) && s.shootObjects != {} {
      var name :| name in s.shootObjects;
      var actions := LosingMigration(s, name);
    } else {
      forall actions | Migration(s, actions)
        ensures s.shootObjects <= Run(s, actions).shootObjects
      {
        if AtRisk(s) {
          assert s.shootObjects == {};
        } else {
          StartsKept(s);
          KeptRun(s, actions);
        }
      }
    }
  }

  lemma StartsKept(s: State)
    requires s.task.NoTask? && !AtRisk(s)
    ensures Kept(s)
  {
  }

  /** The resource manager removes the object before the Migrate can have it kept; all calls are done. */
  lemma LosingMigration(s: State, name: string) returns (actions: seq<Action>)
    requires s.task.NoTask? && AtRisk(s) && name in s.shootObjects
    ensures Migration(s, actions) && name !in Run(s, actions).shootObjects
  {
    hide Step, Run, MigratingRun, Migrating;
    var s1 := Step(s, Begin(Migrate));
    MigrateBegins(s);
    var s2 := Step(s1, GrmRemove(name));
    ObjectRemoved(s1, name);
    var s3 := Step(s2, Call(Done));
    KeepSet(s2, name);
    var s4 := Step(s3, Call(Done));
    ShootDeleted(s3, name);
    var s5 := Step(s4, GrmRelease);
    ShootReleased(s4, name);
    actions := SeedSideRemoved(s5, name);
    LosesBefore(s4, GrmRelease, actions, name);
    actions := [GrmRelease] + actions;
    LosesBefore(s3, Call(Done), actions, name);
    actions := [Call(Done)] + actions;
    LosesBefore(s2, Call(Done), actions, name);
    actions := [Call(Done)] + actions;
    LosesBefore(s1, GrmRemove(name), actions, name);
    actions := [GrmRemove(name)] + actions;
    LosesBefore(s, Begin(Migrate), actions, name);
    actions := [Begin(Migrate)] + actions;
  }

  ghost predicate Loses(s: State, actions: seq<Action>, name: string) {
    var t := Run(s, actions);
    MigratingRun(s, actions) && t.task.NoTask? && !t.failed && name !in t.shootObjects
  }

  lemma LosesBefore(s: State, a: Action, rest: seq<Action>, name: string)
    requires (a.Begin? ==> a.op.Migrate?) && Loses(Step(s, a), rest, name)
    ensures Loses(s, [a] + rest, name)
  {
    hide Step;
    assert ([a] + rest)[1..] == rest;
  }

  predicate At(s: State, pc: Pc, name: string) {
    s.task.Task? && s.task.op.Migrate? && s.task.pc == pc && name !in s.shootObjects
  }

  lemma MigrateBegins(s: State)
    requires s.task.NoTask? && AtRisk(s)
    ensures var t := Step(s, Begin(Migrate));
      AtRisk(t) && t.task.Task? && t.task.op.Migrate? && t.task.pc.SetKeep?
  {
  }

  lemma ObjectRemoved(s: State, name: string)
    requires AtRisk(s) && s.task.Task? && s.task.op.Migrate?
    ensures At(Step(s, GrmRemove(name)), s.task.pc, name) && Doomed(Step(s, GrmRemove(name)))
  {
  }

  lemma KeepSet(s: State, name: string)
    requires At(s, SetKeep, name) && Doomed(s)
    ensures At(Step(s, Call(Done)), DeleteShoot, name) && Doomed(Step(s, Call(Done)))
  {
  }

  lemma ShootDeleted(s: State, name: string)
    requires At(s, DeleteShoot, name) && Doomed(s)
    ensures At(Step(s, Call(Done)), WaitShoot, name) && Doomed(Step(s, Call(Done)))
  {
  }

  lemma ShootReleased(s: State, name: string)
    requires At(s, WaitShoot, name) && Doomed(s)
    ensures At(Step(s, GrmRelease), WaitShoot, name) && Step(s, GrmRelease).shoot.None?
  {
  }

  lemma SeedSideRemoved(s: State, name: string) returns (actions: seq<Action>)
    requires At(s, WaitShoot, name) && s.shoot.None?
    ensures Loses(s, actions, name)
  {
    hide Step, Run, MigratingRun, Migrating;
    var s1 := Step(s, Call(Done));
    ShootAwaited(s, name);
    var s2 := Step(s1, Call(Done));
    AccessRemoved(s1, name);
    var s3 := Step(s2, Call(Done));
    SeedMarked(s2, name);
    var s4 := Step(s3, SeedRelease);
    SeedReleased(s3, name);
    var s5 := Step(s4, Call(Done));
    SeedAwaited(s4, name);
    LosesNothingMore(s5, name);
    LosesBefore(s4, Call(Done), [], name);
    actions := [Call(Done)] + [];
    LosesBefore(s3, SeedRelease, actions, name);
    actions := [SeedRelease] + actions;
    LosesBefore(s2, Call(Done), actions, name);
    actions := [Call(Done)] + actions;
    LosesBefore(s1, Call(Done), actions, name);
    actions := [Call(Done)] + actions;
    LosesBefore(s, Call(Done), actions, name);
    actions := [Call(Done)] + actions;
  }

  lemma LosesNothingMore(s: State, name: string)
    requires s.task.NoTask? && !s.failed && name !in s.shootObjects
    ensures Loses(s, [], name)
  {
  }

  lemma ShootAwaited(s: State, name: string)
    requires At(s, WaitShoot, name) && s.shoot.None?
    ensures At(Step(s, Call(Done)), DeleteAccess, name)
  {
  }

  lemma AccessRemoved(s: State, name: string)
    requires At(s, DeleteAccess, name)
    ensures At(Step(s, Call(Done)), DeleteSeed, name)
  {
  }

  lemma SeedMarked(s: State, name: string)
    requires At(s, DeleteSeed, name)
    ensures var t := Step(s, Call(Done));
      At(t, WaitSeed, name) && (t.seed.Some? ==> t.seed.value.deleting)
  {
  }

  lemma SeedReleased(s: State, name: string)
    requires At(s, WaitSeed, name) && (s.seed.Some? ==> s.seed.value.deleting)
    ensures At(Step(s, SeedRelease), WaitSeed, name) && Step(s, SeedRelease).seed.None?
  {
  }

  lemma SeedAwaited(s: State, name: string)
    requires At(s, WaitSeed, name) && s.seed.None?
    ensures var t := Step(s, Call(Done));
      t.task.NoTask? && !t.failed && name !in t.shootObjects
  {
  }
}
