/** The shoot actuator's Delete, Migrate and Reconcile as code over the API server: each is a run of the lifecycle. */
module ShootActuator {
  import opened GoStrings
  import opened ShootLifecycle
  import opened ShootFlights
  import opened ShootOutcomes

  // ----- the API server and the actuator

  class Cluster {
    var shoot: Option<ManagedResource>
    var seed: Option<ManagedResource>
    var accessSecret: bool
    var shootObjects: set<string>
    var hibernated: bool
    var deletingForLong: bool

    constructor (s: State)
      ensures Is(s)
    {
      shoot, seed, accessSecret, shootObjects := s.shoot, s.seed, s.accessSecret, s.shootObjects;
      hibernated, deletingForLong := s.hibernated, s.deletingForLong;
    }

    predicate Is(s: State)
      reads this
    {
      shoot == s.shoot && seed == s.seed && accessSecret == s.accessSecret && shootObjects == s.shootObjects
      && hibernated == s.hibernated && deletingForLong == s.deletingForLong
    }

    method Act(a: Action, ghost s: State)
      requires Is(s) && Environment(a)
      modifies this
      ensures Is(Step(s, a))
    {
      hide Step, CallStep;
      ObservingChangesNothing(s, a);
      match a
      case GrmApply(_) | GrmRemove(_) | GrmRelease =>
        ActOnShoot(a, s);
      case SeedRelease =>
        if seed.Some? && seed.value.deleting {
          seed := None;
        }
      case ClusterChanges(h, d) =>
        hibernated, deletingForLong := h, d;
    }

    /** The resource manager applies or removes objects of the shoot, or gives up its finalizer. */
    method ActOnShoot(a: Action, ghost s: State)
      requires Is(s) && (a.GrmApply? || a.GrmRemove? || a.GrmRelease?)
      modifies this
      ensures Is(RawStep(s, a))
    {
      hide CallStep;
      match a
      case GrmApply(names) =>
        if shoot.Some? && !shoot.value.deleting {
          shoot := Some(shoot.value.(finalizer := true));
          shootObjects := shootObjects + names;
        }
      case GrmRemove(name) =>
        if shoot.Some? && shoot.value.deleting && !shoot.value.keepObjects {
          shootObjects := shootObjects - {name};
        }
      case GrmRelease =>
        if shoot.Some? && shoot.value.deleting {
          shoot := None;
        }
    }

    /** One request of the actuator. The result tells whether it goes on with success. */
    method Request(pc: Pc, fate: Fate, ghost s: State) returns (ok: bool)
      requires Is(s) && s.task.Task? && s.task.pc == pc
      modifies this
      ensures Is(Step(s, Call(fate)))
      ensures Step(s, Call(fate)).task.NoTask? <==> After(pc, ok, hibernated).None?
      ensures Step(s, Call(fate)).task.NoTask? ==> Step(s, Call(fate)).failed == !ok
      ensures Step(s, Call(fate)).task.Task? ==> After(pc, ok, hibernated) == Some(Step(s, Call(fate)).task.pc)
    {
      hide Step, RawStep, Continue, After, Effect;
      CallContinues(s, fate);
      ObservingChangesNothing(s, Call(fate));
      ObservingKeepsPlace(s, Call(fate));
      ok := fate.Done? && (pc.DropShoot? ==> shoot.Some?);
      if !fate.Refused? {
        Apply(pc, s);
      }
      ok := ok && (pc.WaitShoot? ==> shoot.None?) && (pc.WaitSeed? ==> seed.None?)
        && (pc.GetCluster? ==> deletingForLong);
    }

    method Apply(pc: Pc, ghost s: State)
      requires Is(s) && s.task.Task? && s.task.pc == pc
      modifies this
      ensures Is(Effect(s))
    {
      match pc
      case ShootAccess => accessSecret := true;
      case DeployShoot => shoot := Some(Upserted(shoot));
      case DeploySeed => seed := Some(Upserted(seed));
      case SetKeep => shoot := AfterKeep(shoot);
      case DeleteShoot => shoot := AfterDelete(shoot);
      case DropShoot => shoot := AfterDrop(shoot);
      case DeleteAccess => accessSecret := false;
      case DeleteSeed => seed := AfterDelete(seed);
      case UpdateStatus | WaitShoot | GetCluster | WaitSeed =>
    }

    /** The environment acts. */
    method Interfere(actions: seq<Action>, ghost s: State)
      requires Is(s) && forall i :: 0 <= i < |actions| ==> Environment(actions[i])
      modifies this
      ensures Is(Run(s, actions))
    {
      hide Step;
      ghost var t := s;
      assert actions[0..] == actions;
      for i := 0 to |actions|
        invariant Is(t) && Run(s, actions) == Run(t, actions[i..])
      {
        assert actions[i..][0] == actions[i] && actions[i..][1..] == actions[i + 1..];
        Act(actions[i], t);
        t := Step(t, actions[i]);
      }
    }
  }

  class Actuator {
    const client: Cluster

    constructor (client: Cluster)
      ensures this.client == client
    {
      this.client := client;
    }

    /** One API call with what the environment does before it. */
    method Api(pc: Pc, f: Fortune, ghost s: State) returns (ok: bool)
      requires client.Is(s) && Proper(f) && s.task.Task? && s.task.pc == pc
      modifies client
      ensures client.Is(Turn(s, f)) && Flight(s, f) == Flight(Turn(s, f), f)
      ensures Turn(s, f).task.NoTask? <==> After(pc, ok, client.hibernated).None?
      ensures Turn(s, f).task.NoTask? ==> Turn(s, f).failed == !ok && Flight(s, f) == Turn(s, f)
      ensures Turn(s, f).task.Task? ==> After(pc, ok, client.hibernated) == Some(Turn(s, f).task.pc)
    {
      hide Step, Run, Turn, After, Flight;
      TurnIs(s, f);
      FlightTurn(s, f);
      FlightTurn(Turn(s, f), f);
      client.Interfere(f.before(pc), s);
      ok := client.Request(pc, f.fate(pc), Run(s, f.before(pc)));
    }

    /** Delete from its first call to its end: the seed side is removed after the shoot resource is gone or dropped. */
    method Delete(f: Fortune, ghost s: State) returns (err: bool)
      requires client.Is(s) && Proper(f) && s.task.Task? && s.task.pc.DeleteShoot?
      modifies client
      ensures client.Is(Flight(s, f)) && err == Flight(s, f).failed
      ensures !err <==> DeleteDone(s.shoot, s.seed, s.deletingForLong, f)
    {
      hide Turn, Flight, DeleteDone;
      DeleteOutcome(s, f);
      ghost var t := Turn(s, f);
      var ok := Api(DeleteShoot, f, s);
      if ok {
        ghost var u := t;
        t := Turn(u, f);
        ok := Api(WaitShoot, f, u);
      }
      if !ok {
        ghost var u := t;
        t := Turn(u, f);
        ok := Api(GetCluster, f, u);
        if ok {
          u := t;
          t := Turn(u, f);
          ok := Api(DropShoot, f, u);
        }
        if !ok {
          return true;
        }
      }
      err := DeleteSeedResources(f, t);
    }

    method DeleteSeedResources(f: Fortune, ghost s: State) returns (err: bool)
      requires client.Is(s) && Proper(f) && s.task.Task? && s.task.pc.DeleteAccess?
      modifies client
      ensures client.Is(Flight(s, f)) && err == Flight(s, f).failed
    {
      hide Turn, Flight;
      var ok := Api(DeleteAccess, f, s);
      if !ok {
        return true;
      }
      ghost var t := Turn(s, f);
      ok := Api(DeleteSeed, f, t);
      if !ok {
        return true;
      }
      ok := Api(WaitSeed, f, Turn(t, f));
      return !ok;
    }

    /** Migrate: keep the objects first, then Delete. */
    method Migrate(f: Fortune, ghost s: State) returns (err: bool)
      requires client.Is(s) && Proper(f) && s.task.Task? && s.task.pc.SetKeep?
      modifies client
      ensures client.Is(Flight(s, f)) && err == Flight(s, f).failed
      ensures !err <==> MigrateDone(s, f)
    {
      hide Turn, Flight, MigrateDone;
      MigrateOutcome(s, f);
      var ok := Api(SetKeep, f, s);
      if !ok {
        return true;
      }
      err := Delete(f, Turn(s, f));
    }

    /** Reconcile of an Extension with a valid config: access secret, shoot resource unless hibernated, seed resource,
        status. */
    method Reconcile(f: Fortune, ghost s: State) returns (err: bool)
      requires client.Is(s) && Proper(f) && s.task.Task? && s.task.pc.ShootAccess?
      modifies client
      ensures client.Is(Flight(s, f)) && err == Flight(s, f).failed
      ensures !err <==> ReconcileDone(s, f)
      ensures !err ==> client.accessSecret && client.seed == SeedDeployed(s, f) && client.shoot == ShootDeployed(s, f)
    {
      hide Turn, Flight, ReconcileDone, SeedDeployed, ShootDeployed;
      ReconcileOutcome(s, f);
      var ok := Api(ShootAccess, f, s);
      if !ok {
        return true;
      }
      ghost var t := Turn(s, f);
      if !client.hibernated {
        ghost var u := t;
        t := Turn(u, f);
        ok := Api(DeployShoot, f, u);
        if !ok {
          return true;
        }
      }
      ghost var u := t;
      t := Turn(u, f);
      ok := Api(DeploySeed, f, u);
      if !ok {
        return true;
      }
      ok := Api(UpdateStatus, f, t);
      return !ok;
    }
  }
}
