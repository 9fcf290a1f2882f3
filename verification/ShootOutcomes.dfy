/** When the operations of the shoot actuator end without error and what a Reconcile leaves, in terms of the fates of
    their calls and of what the environment does before each. */
module ShootOutcomes {
  import opened GoStrings
  import opened ShootLifecycle
  import opened ShootFlights

  // ----- what the environment makes of a resource

  /** The resource manager puts its finalizer on the shoot resource, and releases one that is being deleted. */
  function ShootLater(mr: Option<ManagedResource>, actions: seq<Action>): Option<ManagedResource> {
    if actions == [] then mr
    else
      var before, last := ShootLater(mr, actions[..|actions| - 1]), actions[|actions| - 1];
      if before.None? then None
      else if last.GrmApply? && !before.value.deleting then Some(before.value.(finalizer := true))
      else if last.GrmRelease? && before.value.deleting then None
      else before
  }

  /** A seed resource that is being deleted is gone once it is released. */
  function SeedLater(mr: Option<ManagedResource>, actions: seq<Action>): Option<ManagedResource> {
    if mr.Some? && mr.value.deleting && SeedRelease in actions then None else mr
  }

  function HibernatedLater(hibernated: bool, actions: seq<Action>): bool {
    if actions == [] then hibernated
    else
      var last := actions[|actions| - 1];
      if last.ClusterChanges? then last.hibernated else HibernatedLater(hibernated, actions[..|actions| - 1])
  }

  function LongLater(deletingForLong: bool, actions: seq<Action>): bool {
    if actions == [] then deletingForLong
    else
      var last := actions[|actions| - 1];
      if last.ClusterChanges? then last.deletingForLong else LongLater(deletingForLong, actions[..|actions| - 1])
  }

  /** Where the environment leads from s. */
  predicate Later(s: State, t: State, actions: seq<Action>) {
    && t.shoot == ShootLater(s.shoot, actions) && t.seed == SeedLater(s.seed, actions)
    && t.accessSecret == s.accessSecret
    && t.hibernated == HibernatedLater(s.hibernated, actions)
    && t.deletingForLong == LongLater(s.deletingForLong, actions)
  }

  lemma {:induction false} EnvironmentLeads(s: State, actions: seq<Action>)
    requires forall i :: 0 <= i < |actions| ==> Environment(actions[i])
    ensures Later(s, Run(s, actions), actions)
    decreases |actions|
  {
    hide Step;
    if actions != [] {
      var n := |actions| - 1;
      var last := actions[n];
      EnvironmentLeads(s, actions[..n]);
      assert actions == actions[..n] + [last];
      RunAppend(s, actions[..n], [last]);
      assert [last][1..] == [];
      var u := Run(s, actions[..n]);
      assert Run(u, [last]) == Run(Step(u, last), []);
      OneAction(u, last);
    }
  }

  lemma OneAction(s: State, a: Action)
    requires Environment(a)
    ensures var t := Step(s, a);
      && t.shoot == (if s.shoot.None? then None
                     else if a.GrmApply? && !s.shoot.value.deleting then Some(s.shoot.value.(finalizer := true))
                     else if a.GrmRelease? && s.shoot.value.deleting then None else s.shoot)
      && t.seed == (if s.seed.Some? && s.seed.value.deleting && a == SeedRelease then None else s.seed)
      && t.accessSecret == s.accessSecret
      && t.hibernated == (if a.ClusterChanges? then a.hibernated else s.hibernated)
      && t.deletingForLong == (if a.ClusterChanges? then a.deletingForLong else s.deletingForLong)
  {
    hide CallStep;
    ObservingChangesNothing(s, a);
  }

  // ----- what the requests make of a resource

  /** Created, or updated so that its objects are not kept. */
  function Put(mr: Option<ManagedResource>): Option<ManagedResource> {
    Some(ManagedResource(false, mr.Some? && mr.value.deleting, mr.Some? && mr.value.finalizer))
  }

  /** Requested to be deleted: gone, unless there is a finalizer. */
  function Deleted(mr: Option<ManagedResource>): Option<ManagedResource> {
    if mr.Some? && mr.value.finalizer then Some(ManagedResource(mr.value.keepObjects, true, true)) else None
  }

  // ----- Reconcile

  /** The shoot is hibernated when the access secret is written. */
  predicate Hibernated(s: State, f: Fortune) {
    HibernatedLater(s.hibernated, f.before(ShootAccess))
  }

  /** All calls are done; for a hibernated shoot there is none for the shoot resource. */
  predicate ReconcileDone(s: State, f: Fortune) {
    f.fate(ShootAccess).Done? && (Hibernated(s, f) || f.fate(DeployShoot).Done?)
    && f.fate(DeploySeed).Done? && f.fate(UpdateStatus).Done?
  }

  function BeforeSeed(s: State, f: Fortune): seq<Action> {
    f.before(ShootAccess) + (if Hibernated(s, f) then [] else f.before(DeployShoot)) + f.before(DeploySeed)
  }

  /** The seed resource is deployed with its objects not kept; only if it was being deleted it may be gone again. */
  function SeedDeployed(s: State, f: Fortune): Option<ManagedResource> {
    SeedLater(Put(SeedLater(s.seed, BeforeSeed(s, f))), f.before(UpdateStatus))
  }

  /** The shoot resource is deployed with its objects not kept if the shoot is awake; otherwise the actuator does not
      touch it. */
  function ShootDeployed(s: State, f: Fortune): Option<ManagedResource> {
    if Hibernated(s, f) then ShootLater(s.shoot, BeforeSeed(s, f) + f.before(UpdateStatus))
    else ShootLater(Put(ShootLater(s.shoot, f.before(ShootAccess) + f.before(DeployShoot))),
                    f.before(DeploySeed) + f.before(UpdateStatus))
  }

  lemma {:induction false} ShootLaterAppend(mr: Option<ManagedResource>, a: seq<Action>, b: seq<Action>)
    ensures ShootLater(mr, a + b) == ShootLater(ShootLater(mr, a), b)
  {
    if b == [] {
      assert a + b == a;
    } else {
      var n := |b| - 1;
      ShootLaterAppend(mr, a, b[..n]);
      assert (a + b)[..|a + b| - 1] == a + b[..n];
    }
  }

  lemma SeedLaterAppend(mr: Option<ManagedResource>, a: seq<Action>, b: seq<Action>)
    ensures SeedLater(mr, a + b) == SeedLater(SeedLater(mr, a), b)
  {
  }

  lemma StatusOutcome(s: State, f: Fortune)
    requires Proper(f) && s.task.Task? && s.task.pc.UpdateStatus?
    ensures var t := Flight(s, f);
      && (!t.failed <==> f.fate(UpdateStatus).Done?)
      && t.accessSecret == s.accessSecret
      && t.shoot == ShootLater(s.shoot, f.before(UpdateStatus)) && t.seed == SeedLater(s.seed, f.before(UpdateStatus))
  {
    hide Run, Turn, Flight, Step, RawStep, ShootLater, SeedLater;
    CallOutcome(s, f);
  }

  /** The state after one call and what comes before it. */
  lemma CallOutcome(s: State, f: Fortune)
    requires Proper(f) && s.task.Task?
    ensures Run(s, f.before(s.task.pc)).task.Task? && Run(s, f.before(s.task.pc)).task.pc == s.task.pc
    ensures var pc, u := s.task.pc, Run(s, f.before(s.task.pc));
      var t := if f.fate(pc).Refused? then u else Effect(u);
      var ok := Success(t, f.fate(pc).Done? && (pc.DropShoot? ==> u.shoot.Some?));
      var r := Turn(s, f);
      && Later(s, u, f.before(pc))
      && r.shoot == t.shoot && r.seed == t.seed && r.accessSecret == t.accessSecret
      && r.hibernated == t.hibernated && r.deletingForLong == t.deletingForLong
      && Flight(s, f) == Flight(r, f)
      && match After(pc, ok, t.hibernated) {
           case None => r.task.NoTask? && r.failed == !ok && Flight(s, f) == r
           case Some(next) => r.task.Task? && r.task.pc == next
         }
  {
    hide Run, Turn, Flight, Step, RawStep, After, Effect, Success, Later;
    var u := Run(s, f.before(s.task.pc));
    var call := Call(f.fate(s.task.pc));
    EnvironmentLeads(s, f.before(s.task.pc));
    TurnIs(s, f);
    FlightTurn(s, f);
    FlightTurn(Turn(s, f), f);
    CallContinues(u, call.fate);
    ObservingChangesNothing(u, call);
    ObservingKeepsPlace(u, call);
  }

  lemma DeploySeedOutcome(s: State, f: Fortune)
    requires Proper(f) && s.task.Task? && s.task.pc.DeploySeed?
    ensures var t := Flight(s, f);
      && (!t.failed <==> f.fate(DeploySeed).Done? && f.fate(UpdateStatus).Done?)
      && (!t.failed ==>
            && t.accessSecret == s.accessSecret
            && t.shoot == ShootLater(ShootLater(s.shoot, f.before(DeploySeed)), f.before(UpdateStatus))
            && t.seed == SeedLater(Put(SeedLater(s.seed, f.before(DeploySeed))), f.before(UpdateStatus)))
  {
    hide Run, Turn, Flight, Step, RawStep, ShootLater, SeedLater;
    CallOutcome(s, f);
    if f.fate(DeploySeed).Done? {
      StatusOutcome(Turn(s, f), f);
    }
  }

  lemma DeployShootOutcome(s: State, f: Fortune)
    requires Proper(f) && s.task.Task? && s.task.pc.DeployShoot?
    ensures var t := Flight(s, f);
      && (!t.failed <==> f.fate(DeployShoot).Done? && f.fate(DeploySeed).Done? && f.fate(UpdateStatus).Done?)
      && (!t.failed ==>
            && t.accessSecret == s.accessSecret
            && t.shoot == ShootLater(ShootLater(Put(ShootLater(s.shoot, f.before(DeployShoot))), f.before(DeploySeed)),
                                     f.before(UpdateStatus))
            && t.seed == SeedLater(Put(SeedLater(SeedLater(s.seed, f.before(DeployShoot)), f.before(DeploySeed))),
                                   f.before(UpdateStatus)))
  {
    hide Run, Turn, Flight, Step, RawStep, ShootLater, SeedLater;
    CallOutcome(s, f);
    if f.fate(DeployShoot).Done? {
      DeploySeedOutcome(Turn(s, f), f);
    }
  }

  /** When a Reconcile ends without error, and what it leaves then. */
  lemma ReconcileOutcome(s: State, f: Fortune)
    requires Proper(f) && s.task.Task? && s.task.pc.ShootAccess?
    ensures var t := Flight(s, f);
      && (!t.failed <==> ReconcileDone(s, f))
      && (!t.failed ==> t.accessSecret && t.shoot == ShootDeployed(s, f) && t.seed == SeedDeployed(s, f))
  {
    hide Run, Turn, Flight, Step, RawStep, ShootLater, SeedLater;
    CallOutcome(s, f);
    var a, b, c, d := f.before(ShootAccess), f.before(DeployShoot), f.before(DeploySeed), f.before(UpdateStatus);
    ShootLaterAppend(s.shoot, a, c);
    ShootLaterAppend(s.shoot, a + c, d);
    ShootLaterAppend(s.shoot, a, b);
    ShootLaterAppend(Put(ShootLater(s.shoot, a + b)), c, d);
    SeedLaterAppend(s.seed, a, b);
    SeedLaterAppend(s.seed, a + b, c);
    SeedLaterAppend(s.seed, a, c);
    assert a + [] + c == a + c;
    if f.fate(ShootAccess).Done? {
      if Hibernated(s, f) {
        DeploySeedOutcome(Turn(s, f), f);
      } else {
        DeployShootOutcome(Turn(s, f), f);
      }
    }
  }

  /** A resource that is not being deleted stays deployed, and its objects are not kept. */
  lemma {:induction false} StaysDeployed(mr: Option<ManagedResource>, actions: seq<Action>)
    ensures ShootLater(Put(mr), actions).Some? ==> !ShootLater(Put(mr), actions).value.keepObjects
    ensures (mr.Some? ==> !mr.value.deleting) ==>
      ShootLater(Put(mr), actions).Some? && !ShootLater(Put(mr), actions).value.deleting
  {
    if actions != [] {
      StaysDeployed(mr, actions[..|actions| - 1]);
    }
  }

  /** After a Reconcile without error whose resources were not being deleted, the seed resource is there, and for a
      shoot that was awake the shoot resource too: neither keeps its objects or is being deleted. */
  lemma ReconcileDeploys(s: State, f: Fortune)
    requires Proper(f) && s.task.Task? && s.task.pc.ShootAccess? && !Flight(s, f).failed
    requires (s.seed.Some? ==> !s.seed.value.deleting) && (s.shoot.Some? ==> !s.shoot.value.deleting)
    ensures var t := Flight(s, f);
      && t.accessSecret
      && t.seed.Some? && !t.seed.value.keepObjects && !t.seed.value.deleting
      && (!Hibernated(s, f) ==> t.shoot.Some? && !t.shoot.value.keepObjects && !t.shoot.value.deleting)
      && (Hibernated(s, f) && s.shoot.None? ==> t.shoot.None?)
  {
    hide Flight, Hibernated;
    ReconcileOutcome(s, f);
    NotDeleted(s.shoot, f.before(ShootAccess) + f.before(DeployShoot));
    NotDeleted(s.shoot, BeforeSeed(s, f) + f.before(UpdateStatus));
    StaysDeployed(ShootLater(s.shoot, f.before(ShootAccess) + f.before(DeployShoot)),
                  f.before(DeploySeed) + f.before(UpdateStatus));
  }

  lemma {:induction false} NotDeleted(mr: Option<ManagedResource>, actions: seq<Action>)
    ensures mr.None? ==> ShootLater(mr, actions).None?
    ensures mr.Some? && !mr.value.deleting ==>
      ShootLater(mr, actions).Some? && !ShootLater(mr, actions).value.deleting
  {
    if actions != [] {
      NotDeleted(mr, actions[..|actions| - 1]);
    }
  }

  // ----- Delete

  /** Access secret and seed resource are deleted, and the seed resource is gone in time. */
  predicate SeedSideDone(seed: Option<ManagedResource>, f: Fortune) {
    && f.fate(DeleteAccess).Done? && f.fate(DeleteSeed).Done? && f.fate(WaitSeed).Done?
    && SeedLater(Deleted(SeedLater(seed, f.before(DeleteAccess) + f.before(DeleteSeed))), f.before(WaitSeed)).None?
  }

  /** The shoot has been deleting for long, and a shoot resource that is still there loses its finalizers. */
  predicate DropDone(shoot: Option<ManagedResource>, seed: Option<ManagedResource>, deletingForLong: bool, f: Fortune) {
    var before := f.before(GetCluster) + f.before(DropShoot);
    && f.fate(GetCluster).Done? && LongLater(deletingForLong, f.before(GetCluster))
    && f.fate(DropShoot).Done? && ShootLater(shoot, before).Some?
    && SeedSideDone(SeedLater(seed, before), f)
  }

  /** A Delete without error: the shoot resource is deleted and gone in time, or dropped; then the seed side. */
  predicate DeleteDone(shoot: Option<ManagedResource>, seed: Option<ManagedResource>, deletingForLong: bool, f: Fortune)
  {
    var first, wait := f.before(DeleteShoot), f.before(WaitShoot);
    var found := ShootLater(shoot, first);
    var requested := if f.fate(DeleteShoot).Refused? then found else Deleted(found);
    var waited := ShootLater(requested, wait);
    if !f.fate(DeleteShoot).Done? then
      DropDone(requested, SeedLater(seed, first), LongLater(deletingForLong, first), f)
    else if f.fate(WaitShoot).Done? && waited.None? then
      SeedSideDone(SeedLater(seed, first + wait), f)
    else
      DropDone(waited, SeedLater(seed, first + wait), LongLater(deletingForLong, first + wait), f)
  }

  lemma {:induction false} LongLaterAppend(long: bool, a: seq<Action>, b: seq<Action>)
    ensures LongLater(long, a + b) == LongLater(LongLater(long, a), b)
  {
    if b == [] {
      assert a + b == a;
    } else {
      var n := |b| - 1;
      LongLaterAppend(long, a, b[..n]);
      assert (a + b)[..|a + b| - 1] == a + b[..n];
    }
  }

  lemma SeedSideOutcome(s: State, f: Fortune)
    requires Proper(f) && s.task.Task? && s.task.pc.DeleteAccess?
    ensures !Flight(s, f).failed <==> SeedSideDone(s.seed, f)
  {
    hide Run, Turn, Flight, Step, RawStep, ShootLater, SeedLater;
    SeedLaterAppend(s.seed, f.before(DeleteAccess), f.before(DeleteSeed));
    CallOutcome(s, f);
    if f.fate(DeleteAccess).Done? {
      var t := Turn(s, f);
      CallOutcome(t, f);
      if f.fate(DeleteSeed).Done? {
        CallOutcome(Turn(t, f), f);
      }
    }
  }

  lemma DropOutcome(s: State, f: Fortune)
    requires Proper(f) && s.task.Task? && s.task.pc.GetCluster?
    ensures !Flight(s, f).failed <==> DropDone(s.shoot, s.seed, s.deletingForLong, f)
  {
    hide Run, Turn, Flight, Step, RawStep, ShootLater, SeedLater, SeedSideDone;
    SeedLaterAppend(s.seed, f.before(GetCluster), f.before(DropShoot));
    ShootLaterAppend(s.shoot, f.before(GetCluster), f.before(DropShoot));
    CallOutcome(s, f);
    var t := Turn(s, f);
    if t.task.Task? {
      CallOutcome(t, f);
      if Turn(t, f).task.Task? {
        SeedSideOutcome(Turn(t, f), f);
      }
    }
  }

  lemma WaitOutcome(s: State, f: Fortune)
    requires Proper(f) && s.task.Task? && s.task.pc.WaitShoot?
    ensures var wait := f.before(WaitShoot);
      var waited := ShootLater(s.shoot, wait);
      !Flight(s, f).failed <==>
        if f.fate(WaitShoot).Done? && waited.None? then SeedSideDone(SeedLater(s.seed, wait), f)
        else DropDone(waited, SeedLater(s.seed, wait), LongLater(s.deletingForLong, wait), f)
  {
    hide Run, Turn, Flight, Step, RawStep, ShootLater, SeedLater, LongLater, SeedSideDone, DropDone;
    CallOutcome(s, f);
    var t := Turn(s, f);
    if t.task.pc.DeleteAccess? {
      SeedSideOutcome(t, f);
    } else {
      DropOutcome(t, f);
    }
  }

  /** When a Delete ends without error. */
  lemma DeleteOutcome(s: State, f: Fortune)
    requires Proper(f) && s.task.Task? && s.task.pc.DeleteShoot?
    ensures !Flight(s, f).failed <==> DeleteDone(s.shoot, s.seed, s.deletingForLong, f)
  {
    hide Run, Turn, Flight, Step, RawStep, ShootLater, SeedLater, LongLater, SeedSideDone, DropDone;
    SeedLaterAppend(s.seed, f.before(DeleteShoot), f.before(WaitShoot));
    LongLaterAppend(s.deletingForLong, f.before(DeleteShoot), f.before(WaitShoot));
    CallOutcome(s, f);
    if f.fate(DeleteShoot).Done? {
      WaitOutcome(Turn(s, f), f);
    } else {
      DropOutcome(Turn(s, f), f);
    }
  }

  /** The objects of the shoot resource, if there is one, are to be kept. */
  function KeptResource(mr: Option<ManagedResource>): Option<ManagedResource> {
    if mr.None? then None else Some(ManagedResource(true, mr.value.deleting, mr.value.finalizer))
  }

  /** A Migrate without error: the objects are kept, and then a Delete ends without error. */
  predicate MigrateDone(s: State, f: Fortune) {
    var before := f.before(SetKeep);
    f.fate(SetKeep).Done? && DeleteDone(KeptResource(ShootLater(s.shoot, before)), SeedLater(s.seed, before),
                                        LongLater(s.deletingForLong, before), f)
  }

  lemma MigrateOutcome(s: State, f: Fortune)
    requires Proper(f) && s.task.Task? && s.task.pc.SetKeep?
    ensures !Flight(s, f).failed <==> MigrateDone(s, f)
  {
    hide Run, Turn, Flight, Step, RawStep, ShootLater, SeedLater, LongLater, DeleteDone;
    CallOutcome(s, f);
    if f.fate(SetKeep).Done? {
      DeleteOutcome(Turn(s, f), f);
    }
  }

  /** No call fails. */
  ghost predicate AllDone(f: Fortune) {
    forall pc :: f.fate(pc).Done?
  }

  /** If no call fails and the resource manager does not release the shoot resource, which has its finalizer, the Delete
      ends without error exactly if the shoot has been deleting for long and the seed resource is gone in time. */
  lemma UnreleasedDelete(s: State, f: Fortune)
    requires Proper(f) && s.task.Task? && s.task.pc.DeleteShoot? && AllDone(f)
    requires s.shoot.Some? && s.shoot.value.finalizer && forall pc :: GrmRelease !in f.before(pc)
    ensures var before := f.before(DeleteShoot) + f.before(WaitShoot);
      var gate := f.before(GetCluster) + f.before(DropShoot);
      !Flight(s, f).failed <==>
        LongLater(s.deletingForLong, before + f.before(GetCluster)) && SeedSideDone(SeedLater(s.seed, before + gate), f)
  {
    hide Flight, SeedSideDone, SeedLater, LongLater, AllDone;
    DeleteOutcome(s, f);
    var first, wait := f.before(DeleteShoot), f.before(WaitShoot);
    var gate := f.before(GetCluster) + f.before(DropShoot);
    AllDoneAt(f);
    Unreleased(s.shoot, first);
    var requested := Deleted(ShootLater(s.shoot, first));
    Unreleased(requested, wait);
    assert GrmRelease !in gate;
    Unreleased(ShootLater(requested, wait), gate);
    LongLaterAppend(s.deletingForLong, first + wait, f.before(GetCluster));
    SeedLaterAppend(s.seed, first + wait, gate);
  }

  lemma AllDoneAt(f: Fortune)
    requires AllDone(f)
    ensures f.fate(DeleteShoot).Done? && f.fate(WaitShoot).Done? && f.fate(GetCluster).Done? && f.fate(DropShoot).Done?
  {
  }

  lemma {:induction false} Unreleased(mr: Option<ManagedResource>, actions: seq<Action>)
    requires mr.Some? && mr.value.finalizer && GrmRelease !in actions
    ensures ShootLater(mr, actions).Some? && ShootLater(mr, actions).value.finalizer
  {
    if actions != [] {
      Unreleased(mr, actions[..|actions| - 1]);
    }
  }
}
