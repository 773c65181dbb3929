/**
  The objects the operator works on: the API client and the local copies that reads overwrite
  and updates send back.
 */
module Clients {
  import opened Wrappers
  import opened Decimal
  import opened Annotations
  import opened Cluster
  import opened Owned
  import opened Containers

  /** A local copy of the workload. Its annotation map may be nil. */
  class LocalObject {
    var version: nat
    var annotations: Annotations
    var replicas: int32
    var suspend: bool
    var rest: string

    constructor (wl: Workload)
      ensures Value() == wl
    {
      version, annotations, replicas, suspend, rest := wl.version, wl.annotations, wl.replicas, wl.suspend, wl.rest;
    }

    function Value(): Workload
      reads this
    {
      Workload(version, annotations, replicas, suspend, rest)
    }

    method Assign(wl: Workload)
      modifies this
      ensures Value() == wl
    {
      version, annotations, replicas, suspend, rest := wl.version, wl.annotations, wl.replicas, wl.suspend, wl.rest;
    }

    /** The map is made first when it is nil. */
    method AddAnnotation(annotation: string, value: string)
      modifies this`annotations
      ensures View(annotations) == old(View(annotations))[annotation := value]
      ensures annotations == With(old(annotations), annotation, value) && annotations != None
    {
      if annotations == None {
        annotations := Some(map[]);
      }
      annotations := Some(annotations.value[annotation := value]);
    }

    method RemoveAnnotation(annotation: string)
      modifies this`annotations
      ensures View(annotations) == old(View(annotations)) - {annotation}
      ensures annotations == Without(old(annotations), annotation)
      ensures old(annotations) == None ==> annotations == None
    {
      if annotations != None {
        annotations := Some(annotations.value - {annotation});
      }
    }

    method GetAnnotation(annotation: string) returns (value: string, found: bool)
      ensures found <==> Has(annotations, annotation)
      ensures found ==> Get(annotations, annotation) == Some(value)
      ensures !found ==> value == ""
    {
      if annotations == None {
        return "", false;
      }
      found := annotation in annotations.value;
      value := if found then annotations.value[annotation] else "";
    }

    method HasAnnotation(annotation: string) returns (found: bool)
      ensures found <==> Has(annotations, annotation)
    {
      if annotations == None {
        return false;
      }
      return annotation in annotations.value;
    }
  }

  /** A local copy of an owned CronJob, with its containers in an array. */
  class LocalJob {
    var version: nat
    var account: string
    var suspend: bool
    var schedule: string
    const containers: array<Container>

    constructor (job: Job)
      ensures Value() == job
      ensures fresh(containers)
    {
      version, account, suspend, schedule := job.version, job.account, job.suspend, job.schedule;
      containers := new Container[|job.containers|](i requires 0 <= i < |job.containers| => job.containers[i]);
      new;
      assert containers[..] == job.containers;
    }

    function Value(): Job
      reads this, containers
    {
      Job(version, account, suspend, schedule, containers[..])
    }

    /** Overwrites everything Kidle decides about the CronJob, in place. */
    method SetCronjobValues(image: string, v: JobValues)
      modifies this, containers
      ensures Value() == SetValues(old(Value()), image, v)
    {
      account := ChildName(v.name, "sa");
      suspend := false;
      schedule := v.schedule;
      var byName := ContainersToMap(containers);
      var container := if CONTAINER in byName then byName[CONTAINER] else Container("", "", [], "");
      container := container.(image := image);
      container := container.(args := [v.command, v.name]);
      SetContainer(containers, container);
    }
  }

  /** The client of the API server. */
  class Client {
    var world: World

    constructor (w: World)
      ensures world == w
    {
      world := w;
    }

    method GetWorkload(into: LocalObject) returns (err: Outcome<Error>)
      modifies this, into
      ensures var got := Cluster.GetWorkload(old(world));
              && world == got.world
              && match got.value
                 case Success(copy) => err == Pass && into.Value() == copy
                 case Failure(e) => err == Fail(e) && into.Value() == old(into.Value())
    {
      var got := Cluster.GetWorkload(world);
      world := got.world;
      match got.value {
        case Success(copy) =>
          into.Assign(copy);
          err := Pass;
        case Failure(e) =>
          err := Fail(e);
      }
    }

    /** `change` names what is being written; a committed update refreshes the local copy. */
    method UpdateWorkload(from: LocalObject, change: Change) returns (err: Outcome<Error>)
      modifies this, from
      ensures var put := Cluster.UpdateWorkload(old(world), old(from.Value()), change);
              && world == put.world
              && match put.value
                 case Success(stored) => err == Pass && from.Value() == stored
                 case Failure(e) => err == Fail(e) && from.Value() == old(from.Value())
    {
      var put := Cluster.UpdateWorkload(world, from.Value(), change);
      world := put.world;
      match put.value {
        case Success(stored) =>
          from.Assign(stored);
          err := Pass;
        case Failure(e) =>
          err := Fail(e);
      }
    }

    method GetInstance(name: string) returns (value: Result<Instance, Error>)
      modifies this
      ensures Reply(world, value) == Cluster.GetInstance(old(world), name)
    {
      var got := Cluster.GetInstance(world, name);
      world := got.world;
      value := got.value;
    }

    method UpdateInstance(name: string, inst: Instance, op: Op) returns (value: Result<Instance, Error>)
      modifies this
      ensures Reply(world, value) == Cluster.UpdateInstance(old(world), name, inst, op)
    {
      var put := Cluster.UpdateInstance(world, name, inst, op);
      world := put.world;
      value := put.value;
    }

    method Read<T>(find: Children -> Option<T>) returns (value: Result<T, Error>)
      modifies this
      ensures Reply(world, value) == Cluster.Read(old(world), find)
    {
      var got := Cluster.Read(world, find);
      world := got.world;
      value := got.value;
    }

    method Mutate(change: Write) returns (err: Outcome<Error>)
      modifies this
      ensures Done(world, err) == Cluster.Mutate(old(world), change)
    {
      var done := Cluster.Mutate(world, change);
      world := done.world;
      err := done.outcome;
    }
  }
}
