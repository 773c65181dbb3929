/**
  The reconciler and `kidlectl`, call by call. Each method leaves the world that its
  counterpart in Owned.dfy or Reconciling.dfy describes.
 */
module Operator {
  import opened Wrappers
  import opened Cluster
  import opened Idling
  import opened Owned
  import opened Reconciling
  import opened Clients
  import opened Idlers
  import Finalizers

  class Reconciler {
    const client: Client

    constructor (client: Client)
      ensures this.client == client
    {
      this.client := client;
    }

    // ----- Owned objects -----

    method EnsureAccount(name: string) returns (err: Outcome<Error>)
      modifies client
      ensures Done(client.world, err) == Owned.EnsureAccount(old(client.world), name)
    {
      var key := ChildName(name, "sa");
      var got := client.Read(FindAccount(key));
      if got == Failure(NotFound) {
        err := client.Mutate(CreateAccount(key));
      } else {
        err := if got.Failure? then Fail(got.error) else Pass;
      }
    }

    method EnsureRole(name: string) returns (err: Outcome<Error>)
      modifies client
      ensures Done(client.world, err) == Owned.EnsureRole(old(client.world), name)
    {
      var key := ChildName(name, "role");
      var policy := Policy(name);
      var got := client.Read(FindIn(Roles(), key));
      if got == Failure(NotFound) {
        err := client.Mutate(CreateRole(key, Role(0, [policy])));
      } else if got.Failure? {
        err := Fail(got.error);
      } else if got.value.rules == [] {
        err := Fail(Panicked);
      } else {
        var role := got.value;
        role := role.(rules := role.rules[0 := policy]);
        err := client.Mutate(UpdateRole(key, role));
      }
    }

    method EnsureBinding(name: string) returns (err: Outcome<Error>)
      modifies client
      ensures Done(client.world, err) == Owned.EnsureBinding(old(client.world), name)
    {
      var key := ChildName(name, "rb");
      var got := client.Read(FindIn(Bindings(), key));
      if got == Failure(NotFound) {
        err := client.Mutate(CreateBinding(key, Binding(ChildName(name, "sa"), ChildName(name, "role"))));
      } else {
        err := if got.Failure? then Fail(got.error) else Pass;
      }
    }

    method CreateRBAC(name: string) returns (err: Outcome<Error>)
      modifies client
      ensures Done(client.world, err) == Owned.CreateRBAC(old(client.world), name)
    {
      err := EnsureAccount(name);
      if err.Pass? {
        err := EnsureRole(name);
        if err.Pass? {
          err := EnsureBinding(name);
        }
      }
    }

    method CreateOrUpdateCronJob(key: string, v: JobValues) returns (err: Outcome<Error>)
      modifies client
      ensures Done(client.world, err) == CreateOrUpdateJob(old(client.world), key, v)
    {
      var image := client.world.image;
      var got := client.Read(FindIn(Jobs(), key));
      if got == Failure(NotFound) {
        var job := new LocalJob(NewJob());
        job.SetCronjobValues(image, v);
        err := client.Mutate(CreateJob(key, job.Value()));
      } else if got.Failure? {
        err := Fail(got.error);
      } else {
        var job := new LocalJob(got.value);
        job.SetCronjobValues(image, v);
        err := client.Mutate(UpdateJob(key, job.Value()));
      }
    }

    method DeleteCronJob(key: string) returns (err: Outcome<Error>)
      modifies client
      ensures Done(client.world, err) == RemoveJob(old(client.world), key)
    {
      err := Pass;
      var got := client.Read(FindIn(Jobs(), key));
      if got.Success? {
        err := client.Mutate(DeleteJob(key));
        if err == Fail(NotFound) {
          err := Pass;
        }
      }
    }

    method ReconcileCronStrategies(name: string, inst: Instance) returns (err: Outcome<Error>)
      modifies client
      ensures Done(client.world, err) == Owned.ReconcileCronStrategies(old(client.world), name, inst)
    {
      err := CreateRBAC(name);
      if err.Fail? {
        return;
      }
      var idleKey := ChildName(name, IDLE);
      if inst.idling.Some? {
        err := CreateOrUpdateCronJob(idleKey, JobValues(name, inst.idling.value, IDLE));
      } else {
        err := DeleteCronJob(idleKey);
      }
      if err.Fail? {
        return;
      }
      var wakeupKey := ChildName(name, WAKEUP);
      if inst.waking.Some? {
        err := CreateOrUpdateCronJob(wakeupKey, JobValues(name, inst.waking.value, WAKEUP));
      } else {
        err := DeleteCronJob(wakeupKey);
      }
    }

    // ----- Finalizer -----

    method AddFinalizer(name: string, inst: Instance) returns (value: Result<Instance, Error>)
      requires !Holds(inst)
      modifies client
      ensures Reply(client.world, value) == EnsureFinalizer(old(client.world), name, inst)
    {
      var marked := inst.(finalizers := Finalizers.Added(inst.finalizers, Finalizers.KIDLE));
      value := client.UpdateInstance(name, marked, TakeFinalizer);
    }

    method RemoveFinalizer(name: string, inst: Instance) returns (err: Outcome<Error>)
      modifies client
      ensures Done(client.world, err) == Reconciling.RemoveFinalizer(old(client.world), name, inst)
    {
      err := Pass;
      var held := Finalizers.ContainsString(inst.finalizers, Finalizers.KIDLE);
      if held {
        var rest := Finalizers.RemoveString(inst.finalizers, Finalizers.KIDLE);
        var put := client.UpdateInstance(name, inst.(finalizers := rest), DropFinalizer);
        err := if put.Failure? then Fail(put.error) else Pass;
      }
    }

    // ----- The pass -----

    method ReconcileResourceNotFound(name: string, inst: Instance) returns (end: End)
      modifies client
      ensures Ended(client.world, end) == ResourceNotFound(old(client.world), name, inst)
    {
      if !inst.deleting {
        return Requeued;
      }
      var err := RemoveFinalizer(name, inst);
      end := if err.Fail? then Errored(err.error) else Finished;
    }

    method ReconcileWithIdler(name: string, inst: Instance, idler: Idler) returns (end: End)
      requires idler.Valid() && idler.Base().client == client && idler.Kind() == inst.kind
      modifies client, idler.Base().local
      ensures Ended(client.world, end) ==
              Reconciling.ReconcileWithIdler(old(client.world), name, inst, old(idler.Base().local.Value()))
    {
      var err := idler.Base().SetReference(name);
      if err.Fail? {
        return Errored(err.error);
      }
      if inst.deleting {
        var _, woken := idler.Wakeup();
        if woken.Fail? {
          return Errored(woken.error);
        }
        err := idler.Base().RemoveAnnotations();
        if err.Fail? {
          return Errored(err.error);
        }
        err := RemoveFinalizer(name, inst);
        return if err.Fail? then Errored(err.error) else Finished;
      }
      var wake := idler.NeedWakeup(inst.idle);
      if wake {
        var _, woken := idler.Wakeup();
        return if woken.Fail? then Errored(woken.error) else Finished;
      }
      var sleep := idler.NeedIdle(inst.idle);
      if sleep {
        err := idler.Idle();
        return if err.Fail? then Errored(err.error) else Finished;
      }
      return Finished;
    }

    method Reconcile(name: string) returns (end: End)
      modifies client
      ensures Ended(client.world, end) == Reconciling.Reconcile(old(client.world), name)
    {
      hide Owned.ReconcileCronStrategies, Reconciling.ReconcileWithIdler, UpdateInstance, GetInstance, GetWorkload,
        ResourceNotFound;
      var got := client.GetInstance(name);
      if got.Failure? {
        return if got.error == NotFound then Finished else Errored(got.error);
      }
      var inst := got.value;
      var held := Finalizers.ContainsString(inst.finalizers, Finalizers.KIDLE);
      if !held {
        var marked := AddFinalizer(name, inst);
        if marked.Failure? {
          return Errored(marked.error);
        }
        inst := marked.value;
      }
      var err := ReconcileCronStrategies(name, inst);
      if err.Fail? {
        return Errored(err.error);
      }
      if !Handled(inst.kind) {
        return Finished;
      }
      var local := new LocalObject(Workload(0, None, 0, false, ""));
      err := client.GetWorkload(local);
      if err == Fail(NotFound) {
        end := ReconcileResourceNotFound(name, inst);
        return;
      }
      if err.Fail? {
        return Errored(err.error);
      }
      if inst.kind == DEPLOYMENT {
        var idler := new DeploymentIdler(client, local);
        end := ReconcileWithIdler(name, inst, ForDeployment(idler));
      } else if inst.kind == STATEFUL_SET {
        var idler := new StatefulSetIdler(client, local);
        end := ReconcileWithIdler(name, inst, ForStatefulSet(idler));
      } else {
        var idler := new CronJobIdler(client, local);
        end := ReconcileWithIdler(name, inst, ForCronJob(idler));
      }
    }
  }

  class KidleClient {
    const client: Client

    constructor (client: Client)
      ensures this.client == client
    {
      this.client := client;
    }

    method ApplyDesiredIdleState(idle: bool, target: string) returns (done: Result<bool, Error>)
      modifies client
      ensures Reply(client.world, done) == Reconciling.ApplyDesiredIdleState(old(client.world), target, idle)
    {
      var got := client.GetInstance(target);
      if got.Failure? {
        return Failure(got.error);
      }
      var inst := got.value;
      if inst.idle == idle {
        return Success(false);
      }
      inst := inst.(idle := idle);
      var put := client.UpdateInstance(target, inst, SetIdle(idle));
      return if put.Failure? then Failure(put.error) else Success(true);
    }
  }
}
