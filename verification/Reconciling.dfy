/** One reconcile pass, and runs of passes with outside events between and inside them. */
module Reconciling {
  import opened Wrappers
  import opened Cluster
  import opened Idling
  import opened Owned
  import Finalizers

  datatype End = Finished | Requeued | Errored(error: Error)

  datatype Ended = Ended(world: World, end: End)

  /** A pass either stops before it looks at the workload, or goes on with its instance copy. */
  datatype Stage = Stopped(world: World, end: End) | Ready(world: World, instance: Instance)

  function EnsureFinalizer(w: World, name: string, inst: Instance): Reply<Instance> {
    if Holds(inst) then Reply(w, Success(inst))
    else
      UpdateInstance(w, name, inst.(finalizers := Finalizers.Added(inst.finalizers, Finalizers.KIDLE)), TakeFinalizer)
  }

  function RemoveFinalizer(w: World, name: string, inst: Instance): Done {
    if Holds(inst) then
      var put := UpdateInstance(
        w, name, inst.(finalizers := Finalizers.Removed(inst.finalizers, Finalizers.KIDLE)), DropFinalizer);
      Done(put.world, match put.value case Success(_) => Pass case Failure(e) => Fail(e))
    else Done(w, Pass)
  }

  function EndOf(d: Done): Ended {
    Ended(d.world, match d.outcome case Pass => Finished case Fail(e) => Errored(e))
  }

  function EndOfTry(t: Try): Ended {
    Ended(t.world, match t.outcome case Pass => Finished case Fail(e) => Errored(e))
  }

  function Prologue(w: World, name: string): Stage {
    var got := GetInstance(w, name);
    match got.value
    case Failure(NotFound) => Stopped(got.world, Finished)
    case Failure(e) => Stopped(got.world, Errored(e))
    case Success(inst) =>
      var marked := EnsureFinalizer(got.world, name, inst);
      match marked.value
      case Failure(e) => Stopped(marked.world, Errored(e))
      case Success(held) =>
        var children := ReconcileCronStrategies(marked.world, name, held);
        match children.outcome
        case Fail(e) => Stopped(children.world, Errored(e))
        case Pass => Ready(children.world, held)
  }

  function ResourceNotFound(w: World, name: string, inst: Instance): Ended {
    if inst.deleting then EndOf(RemoveFinalizer(w, name, inst)) else Ended(w, Requeued)
  }

  function Release(w: World, name: string, inst: Instance, local: Workload): Ended {
    var woken := Wakeup(inst.kind, w, local);
    if woken.outcome.Fail? then EndOfTry(woken)
    else
      var stripped := RemoveAnnotations(woken.world, woken.local);
      if stripped.outcome.Fail? then EndOfTry(stripped)
      else EndOf(RemoveFinalizer(stripped.world, name, inst))
  }

  function ReconcileWithIdler(w: World, name: string, inst: Instance, local: Workload): Ended {
    var marked := SetReference(w, local, name);
    if marked.outcome.Fail? then EndOfTry(marked)
    else if inst.deleting then Release(marked.world, name, inst, marked.local)
    else if NeedWakeup(inst.kind, marked.local, inst.idle) then
      EndOfTry(Wakeup(inst.kind, marked.world, marked.local))
    else if NeedIdle(inst.kind, marked.local, inst.idle) then
      EndOfTry(Idle(inst.kind, marked.world, marked.local))
    else Ended(marked.world, Finished)
  }

  /** From the workload read on. A kind outside the three ends the pass at once. */
  function Proceed(w: World, name: string, inst: Instance): Ended {
    if !Handled(inst.kind) then Ended(w, Finished)
    else
      var got := GetWorkload(w);
      match got.value
      case Failure(NotFound) => ResourceNotFound(got.world, name, inst)
      case Failure(e) => Ended(got.world, Errored(e))
      case Success(local) => ReconcileWithIdler(got.world, name, inst, local)
  }

  function Reconcile(w: World, name: string): Ended {
    match Prologue(w, name)
    case Stopped(world, end) => Ended(world, end)
    case Ready(world, inst) => Proceed(world, name, inst)
  }

  // ----- kidlectl -----

  /** `kidlectl idle` and `kidlectl wakeup`: the answer tells whether the flag was changed. */
  function ApplyDesiredIdleState(w: World, target: string, idle: bool): Reply<bool> {
    var got := GetInstance(w, target);
    match got.value
    case Failure(e) => Reply(got.world, Failure(e))
    case Success(inst) =>
      if inst.idle == idle then Reply(got.world, Success(false))
      else
        var put := UpdateInstance(got.world, target, inst.(idle := idle), SetIdle(idle));
        Reply(put.world, match put.value case Success(_) => Success(true) case Failure(e) => Failure(e))
  }

  // ----- Runs -----

  /**
    A pass and a `kidlectl` command each come with their own script: that is how they are
    disturbed, served stale copies, or crashed.
   */
  datatype Event =
    | External(edit: Edit)
    | Reconciled(env: seq<Disturbance>)
    | Kidlectl(target: string, idle: bool, env: seq<Disturbance>)

  function Step(w: World, name: string, e: Event): World {
    match e
    case External(edit) => Commit(w, Outside(edit), ApplyEdit(w.store, edit))
    case Reconciled(env) => Reconcile(w.(env := env), name).world.(env := [])
    case Kidlectl(target, idle, env) => ApplyDesiredIdleState(w.(env := env), target, idle).world.(env := [])
  }

  function Run(w: World, name: string, events: seq<Event>): World
    decreases |events|
  {
    if events == [] then w else Run(Step(w, name, events[0]), name, events[1..])
  }
}
