/**
  Whether the saved count is one that waking can use: positive, or absent and then read as 1.
  Undisturbed passes keep it so; a workload scaled to zero inside a pass does not.
 */
module Positivity {
  import opened Wrappers
  import opened Annotations
  import opened Cluster
  import opened Idling
  import opened Owned
  import opened Reconciling
  import opened Frames
  import opened Settling
  import Finalizers
  import Orphans
  import Restoring

  predicate Usable(annotations: Annotations) {
    SavedCount(annotations).Success? && SavedCount(annotations).value > 0
  }

  predicate UsableIn(s: Store) {
    s.workload.Some? ==> Usable(s.workload.value.annotations)
  }

  // ----- What idling records -----

  /**
    Whatever happens around it, a successful idling of a replica workload saves the count of
    the version it replaced, sets zero, and keeps everything of that version that is not its
    own to write. The saved count is usable exactly when that version had positive replicas.
   */
  lemma IdleRecordsReplaced(kind: string, w: World, local: Workload)
    requires Scales(kind) && Idle(kind, w, local).outcome.Pass?
    ensures var t := Idle(kind, w, local);
            && t.world.log != []
            && var e := t.world.log[|t.world.log| - 1];
            && e.op == Write(ToZero) && e.after == t.world.store && e.after.workload == Some(t.local)
            && e.before.workload.Some?
            && var was := e.before.workload.value;
            && SavedCount(t.local.annotations) == Success(was.replicas) && t.local.replicas == 0
            && (Usable(t.local.annotations) <==> was.replicas > 0)
            && Get(t.local.annotations, REFERENCE) == Get(was.annotations, REFERENCE)
            && Foreign(View(t.local.annotations)) == Foreign(View(was.annotations))
            && t.local.suspend == was.suspend && t.local.rest == was.rest
            && e.after.instances == e.before.instances && e.after.children == e.before.children
  {
    hide Retry;
    var a := RetryIsAtomic(w, local, ToZero, Attempts());
    var was := a.store.workload.value;
    ZeroSaves(was);
  }

  lemma ZeroSaves(was: Workload)
    ensures var next := Apply(ToZero, was);
            && SavedCount(next.annotations) == Success(was.replicas)
            && Get(next.annotations, REFERENCE) == Get(was.annotations, REFERENCE)
            && Foreign(View(next.annotations)) == Foreign(View(was.annotations))
  {
    KeysDiffer();
    Restoring.SavedIsRestored(Apply(ToZero, was).annotations, Some(was.replicas));
  }

  // ----- Undisturbed passes -----

  lemma UpdateLeavesWorkload(w: World, name: string, inst: Instance, op: Op)
    requires w.env == []
    ensures var v := UpdateInstance(w, name, inst, op).world;
            v.env == [] && v.store.workload == w.store.workload
  {
  }

  lemma QuietStage(w: World, name: string)
    requires w.env == []
    ensures var v := Prologue(w, name).world;
            v.env == [] && v.store.workload == w.store.workload
  {
    hide GetInstance, UpdateInstance, ReconcileCronStrategies;
    var got := GetInstance(w, name);
    Orphans.GetInstanceFacts(w, name);
    if got.value.Success? {
      var inst := got.value.value;
      var marked := EnsureFinalizer(got.world, name, inst);
      UpdateLeavesWorkload(got.world, name,
        inst.(finalizers := Finalizers.Added(inst.finalizers, Finalizers.KIDLE)), TakeFinalizer);
      if marked.value.Success? {
        var v := ReconcileCronStrategies(marked.world, name, marked.value.value).world;
        ChildrenAreOthers(marked.world, name, marked.value.value);
        AloneKeepsRest(marked.world, v);
        OthersAddNoScript(marked.world, v);
      }
    }
  }

  lemma UsableSurvives(kind: string, name: string, wl: Workload)
    requires Usable(wl.annotations)
    ensures Usable(Marked(name, wl).annotations) && Usable(Woken(kind, wl).annotations)
    ensures Usable(Apply(Strip, wl).annotations)
    ensures NeedIdle(kind, wl, true) ==> Usable(Slept(kind, wl).annotations)
  {
    KeysDiffer();
    ZeroSaves(wl);
  }

  lemma PlainUsable(wl: Workload)
    ensures Usable(Plain(wl).annotations) == Usable(wl.annotations)
  {
  }

  lemma IdlerKeepsUsable(w: World, name: string, inst: Instance, local: Workload)
    requires w.env == [] && w.store.workload == Some(local) && Usable(local.annotations)
    ensures UsableIn(ReconcileWithIdler(w, name, inst, local).world.store)
  {
    hide SetReference, Wakeup, Idle, Retry, RemoveFinalizer, Marked, Woken, Slept, Usable;
    var marked := SetReference(w, local, name);
    QuietReference(w, local, name);
    UsableSurvives(inst.kind, name, local);
    PlainUsable(marked.local);
    PlainUsable(Marked(name, local));
    UsableSurvives(inst.kind, name, marked.local);
    var woken := Wakeup(inst.kind, marked.world, marked.local);
    QuietWakeup(inst.kind, marked.world, marked.local);
    PlainUsable(woken.local);
    PlainUsable(Woken(inst.kind, marked.local));
    if inst.deleting {
      ReleaseKeepsUsable(marked.world, name, inst, marked.local);
    } else {
      var slept := Idle(inst.kind, marked.world, marked.local);
      QuietIdle(inst.kind, marked.world, marked.local);
      PlainUsable(slept.local);
      PlainUsable(Slept(inst.kind, marked.local));
    }
  }

  lemma ReleaseKeepsUsable(w: World, name: string, inst: Instance, local: Workload)
    requires w.env == [] && w.store.workload == Some(local) && Usable(local.annotations)
    ensures UsableIn(Release(w, name, inst, local).world.store)
  {
    hide Wakeup, Retry, UpdateInstance, Woken, Usable;
    var woken := Wakeup(inst.kind, w, local);
    QuietWakeup(inst.kind, w, local);
    UsableSurvives(inst.kind, name, local);
    PlainUsable(woken.local);
    PlainUsable(Woken(inst.kind, local));
    if woken.outcome.Pass? {
      var stripped := RemoveAnnotations(woken.world, woken.local);
      QuietRetry(woken.world, woken.local, Strip);
      UsableSurvives(inst.kind, name, woken.local);
      PlainUsable(stripped.local);
      PlainUsable(Apply(Strip, woken.local));
      UpdateLeavesWorkload(stripped.world, name,
        inst.(finalizers := Finalizers.Removed(inst.finalizers, Finalizers.KIDLE)), DropFinalizer);
    }
  }

  lemma PassKeepsUsable(w: World, name: string)
    requires w.env == [] && UsableIn(w.store)
    ensures UsableIn(Reconcile(w, name).world.store)
  {
    hide Prologue, ReconcileWithIdler, UpdateInstance, Usable;
    QuietStage(w, name);
    match Prologue(w, name)
    case Stopped(_, _) =>
    case Ready(v, inst) =>
      GetWorkloadFacts(v);
      if v.store.workload.Some? {
        IdlerKeepsUsable(v, name, inst, v.store.workload.value);
      } else {
        UpdateLeavesWorkload(v, name,
          inst.(finalizers := Finalizers.Removed(inst.finalizers, Finalizers.KIDLE)), DropFinalizer);
      }
  }

  lemma EditKeepsUsable(s: Store, e: Edit)
    requires UsableIn(s)
    ensures UsableIn(ApplyEdit(s, e))
  {
  }

  ghost predicate Undisturbed(e: Event) {
    match e
    case External(_) => true
    case Reconciled(env) => env == []
    case Kidlectl(_, _, env) => env == []
  }

  /**
    Over every run of undisturbed passes, with any edits, deletion and recreation between
    them, from any state whose saved count is usable: it stays usable, so every instance that
    is awake over a replica workload can converge and none is ever restless.
   */
  lemma {:induction false} CountStaysUsable(w: World, name: string, events: seq<Event>)
    requires UsableIn(w.store) && forall k :: 0 <= k < |events| ==> Undisturbed(events[k])
    ensures var v := Run(w, name, events);
            && UsableIn(v.store)
            && (v.store.workload.Some? ==> forall kind, idle ::
                  !Restless(kind, idle, v.store.workload.value)
                  && (!idle ==> CanConverge(kind, idle, v.store.workload.value)))
    decreases |events|
  {
    hide Reconcile, ApplyDesiredIdleState, ApplyEdit;
    if events == [] {
    } else {
      assert Undisturbed(events[0]);
      match events[0] {
        case External(edit) => EditKeepsUsable(w.store, edit);
        case Reconciled(_) => PassKeepsUsable(w.(env := []), name);
        case Kidlectl(target, idle, _) => FlagLeavesWorkload(w.(env := []), target, idle);
      }
      CountStaysUsable(Step(w, name, events[0]), name, events[1..]);
    }
  }

  lemma FlagLeavesWorkload(w: World, target: string, idle: bool)
    requires w.env == []
    ensures ApplyDesiredIdleState(w, target, idle).world.store.workload == w.store.workload
  {
    hide UpdateInstance;
    var got := GetInstance(w, target);
    if got.value.Success? {
      UpdateLeavesWorkload(got.world, target, got.value.value.(idle := idle), SetIdle(idle));
    }
  }

  /**
    Inside a pass it can be lost: scaled to zero between the check that wants it asleep and
    the read of the idling, a workload saves a count of zero, from which it never wakes.
   */
  lemma ScaledDownSavesZero() returns (w: World, local: Workload)
    ensures w.store.workload == Some(local) && Usable(local.annotations)
    ensures NeedIdle(DEPLOYMENT, local, true)
    ensures var t := Idle(DEPLOYMENT, w, local);
            && t.outcome.Pass? && t.world.store.workload == Some(t.local)
            && SavedCount(t.local.annotations) == Success(0)
            && Restless(DEPLOYMENT, false, t.local) && !CanConverge(DEPLOYMENT, false, t.local)
  {
    local := Workload(1, None, 3, false, "");
    var edit := EditWorkload(map[], 0, false, "");
    var store := State(1, map[], Some(local), Children({}, map[], map[], map[]));
    w := World("", store, [Disturbance([edit], Served)], []);
    var v0 := w.(env := w.env[1..]);
    var v1 := Commit(v0, Outside(edit), ApplyEdit(v0.store, edit));
    assert [edit][1..] == [];
    assert EditAll(v0, [edit]) == EditAll(v1, []) == v1;
    var was := v1.store.workload.value;
    assert Attempt(w, local, ToZero) == Try(Rewritten(v1, ToZero), Rewritten(v1, ToZero).store.workload.value, Pass);
    ZeroSaves(was);
  }
}
