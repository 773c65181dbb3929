/**
  What an old copy of an instance can do. `SafeToProceedIff` says that going on without the
  finalizer is unsafe; here is the whole run in which a cached copy leads a pass to do so.
 */
module StaleReads {
  import opened Wrappers
  import opened Cluster
  import opened Idling
  import opened Owned
  import opened Reconciling
  import opened Orphans
  import opened Settling
  import Progress
  import Schedules
  import Transitions

  /** A script whose first read is answered with this old copy, and nothing else happens. */
  function Cached(copy: Instance): seq<Disturbance> {
    [Disturbance([], StaleInstance(copy))]
  }

  lemma CachedRead(w: World, name: string, copy: Instance)
    requires InstanceSnapshot(copy, w.store, name)
    ensures GetInstance(w.(env := Cached(copy)), name) == Reply(w.(env := []), Success(copy))
  {
    assert Cached(copy)[1..] == [];
    assert EditAll(w.(env := []), []) == w.(env := []);
  }

  /** A pass served an old copy that shows the finalizer marks a workload nobody holds. */
  lemma StaleReadOrphans(w: World, name: string, copy: Instance)
    requires InstanceSnapshot(copy, w.store, name) && !Held(w.store, name)
    requires Holds(copy) && !copy.deleting && Handled(copy.kind)
    requires w.store.workload.Some? && Schedules.RoleIntact(w.store.children, name)
    ensures !Safe(Reconcile(w.(env := Cached(copy)), name).world.store, name)
  {
    hide GetInstance, ReconcileCronStrategies, ReconcileWithIdler, InstanceSnapshot, Settle, Schedules.Settled;
    var u := w.(env := []);
    CachedRead(w, name, copy);
    HeldNeedsNothing(u, name, copy);
    Schedules.QuietChildren(u, name, copy);
    var v := ReconcileCronStrategies(u, name, copy).world;
    var local := w.store.workload.value;
    QuietIdler(v, name, copy, local);
    SettledNeeds(copy.kind, copy.idle, name, Plain(local));
    var after := ReconcileWithIdler(v, name, copy, local).world.store.workload.value;
    assert after.annotations == Plain(after).annotations;
  }

  /** Delete the instance, let the operator release it, and create it again. */
  function Recreation(name: string, next: Instance): seq<Event> {
    [External(DeleteInstance(name)), Reconciled([]), External(CreateInstance(name, next))]
  }

  lemma RecreationUnfolds(w: World, name: string, next: Instance)
    ensures var released := Step(Step(w, name, External(DeleteInstance(name))), name, Reconciled([]));
            Run(w, name, Recreation(name, next)) == Step(released, name, External(CreateInstance(name, next)))
  {
    hide Step;
    var e := Recreation(name, next);
    var a := Step(w, name, e[0]);
    var b := Step(a, name, e[1]);
    var c := Step(b, name, e[2]);
    assert Run(w, name, e) == Run(a, name, e[1..]);
    assert e[1..][1..] == e[2..] && e[2..][1..] == [];
    assert Run(a, name, e[1..]) == Run(b, name, e[2..]);
    assert Run(b, name, e[2..]) == Run(c, name, []) == c;
  }

  lemma ReleasedThenFresh(w: World, name: string, next: Instance)
    requires Workable(w.store, name) && Held(w.store, name) && !Holds(next)
    requires w.store.workload.Some? && Wakes(w.store.instances[name].kind, w.store.workload.value)
    ensures var s := Run(w, name, Recreation(name, next)).store;
            && !Held(s, name) && s.workload.Some? && Schedules.RoleIntact(s.children, name)
  {
    hide Run, Reconcile, Wakes, Schedules.RoleIntact, Released;
    RecreationUnfolds(w, name, next);
    var a := Step(w, name, External(DeleteInstance(name)));
    QuietDeletion(a.(env := []), name);
    Progress.PassKeepsRole(a.(env := []), name);
  }

  /**
    The finalizer shown by a cached copy is not the finalizer in the store. Every instance
    with a workload has this run: it is deleted, released by the book and created again; a
    pass that is then served the copy from before orphans the workload. Up to that pass no
    state was unsafe.
   */
  lemma RecreatedInstanceOrphans(w: World, name: string, next: Instance)
    requires AlwaysSafe(w, name) && Workable(w.store, name) && Held(w.store, name)
    requires !w.store.instances[name].deleting && !Holds(next)
    requires w.store.workload.Some? && Wakes(w.store.instances[name].kind, w.store.workload.value)
    ensures var u, was := Run(w, name, Recreation(name, next)), w.store.instances[name];
            && AlwaysSafe(u, name)
            && InstanceSnapshot(was, u.store, name)
            && !Safe(Step(u, name, Reconciled(Cached(was))).store, name)
  {
    hide Run, Reconcile, Safe, Wakes, InstanceSnapshot, Schedules.RoleIntact, Transitions.Steps;
    var u, was := Run(w, name, Recreation(name, next)), w.store.instances[name];
    ReleasedThenFresh(w, name, next);
    NoOrphanByScript(w, name, Recreation(name, next));
    Transitions.RunIsLawful(w, name, Recreation(name, next));
    OwnSnapshot(w.store, name);
    Transitions.StepsKeepCopy(w, u, name, was);
    StaleReadOrphans(u, name, was);
  }

  lemma OwnSnapshot(s: Store, name: string)
    requires name in s.instances
    ensures InstanceSnapshot(s.instances[name], s, name)
  {
  }
}
