/**
  How a pass ends, and what that tells: a requeue waits for a workload that is not there yet,
  and a pass that finishes has done all that an undisturbed one does.
 */
module Endings {
  import opened Wrappers
  import opened Decimal
  import opened Annotations
  import opened Cluster
  import opened Idling
  import opened Owned
  import opened Reconciling
  import opened Frames
  import opened Settling
  import Deletion
  import Filter
  import Finalizers
  import Orphans
  import Schedules

  // ----- Requeued -----

  /** The pass gets to the workload and is told that there is none, and nothing is to be released. */
  predicate WaitsForWorkload(w: World, name: string) {
    var p := Prologue(w, name);
    && p.Ready? && Handled(p.instance.kind) && !p.instance.deleting
    && GetWorkload(p.world).value == Failure(NotFound)
  }

  /** Under every script a pass asks to be run again exactly when it waits for its workload. */
  lemma RequeuedIff(w: World, name: string)
    ensures Reconcile(w, name).end == Requeued <==> WaitsForWorkload(w, name)
  {
    hide Prologue, GetWorkload, SetReference, Wakeup, Idle, Release, RemoveFinalizer;
    match Prologue(w, name)
    case Stopped(_, _) =>
      StoppedIsNotRequeued(w, name);
    case Ready(v, inst) =>
      if GetWorkload(v).value.Success? {
        ReleaseIsNotRequeued(v, name, inst, GetWorkload(v).value.value);
      }
  }

  lemma StoppedIsNotRequeued(w: World, name: string)
    ensures Prologue(w, name).Stopped? ==> Prologue(w, name).end != Requeued
  {
    hide GetInstance, EnsureFinalizer, ReconcileCronStrategies;
  }

  lemma ReleaseIsNotRequeued(w: World, name: string, inst: Instance, local: Workload)
    ensures forall u, copy :: Release(u, name, inst, copy).end != Requeued
  {
    hide Wakeup, RemoveAnnotations, RemoveFinalizer;
  }

  /** Undisturbed, before there is a workload: everything is made ready and the pass comes back. */
  lemma PassWithoutWorkload(w: World, name: string)
    requires w.env == [] && Workable(w.store, name) && !w.store.instances[name].deleting
    requires w.store.workload.None?
    ensures var r := Reconcile(w, name);
            && r.end == Requeued && r.world.store.workload.None? && r.world.env == []
            && Workable(r.world.store, name) && Held(r.world.store, name)
            && SameSpec(r.world.store.instances[name], w.store.instances[name])
  {
    hide Prologue, Schedules.RoleIntact, Schedules.Settled, Schedules.Content;
    var v, inst := QuietPrologue(w, name);
    Schedules.SettledTwice(Schedules.Content(w.store.children), w.image, name, inst);
    Schedules.IntactContent(v.store.children, name);
  }

  /** An instance made before its workload, the workload, and the pass that was asked for. */
  function WorkloadComesLater(e: Edit): seq<Event> {
    [Reconciled([]), External(e), Reconciled([])]
  }

  lemma LaterUnfolds(w: World, name: string, e: Edit)
    ensures var v := Step(w, name, Reconciled([]));
            Run(w, name, WorkloadComesLater(e)) == Step(Step(v, name, External(e)), name, Reconciled([]))
  {
    hide Step;
    var events := WorkloadComesLater(e);
    var v := Step(w, name, events[0]);
    var u := Step(v, name, events[1]);
    assert Run(w, name, events) == Run(v, name, events[1..]);
    assert events[1..][1..] == events[2..] && events[2..][1..] == [];
    assert Run(v, name, events[1..]) == Run(u, name, events[2..]);
    assert Run(u, name, events[2..]) == Run(Step(u, name, events[2]), name, []);
  }

  /**
    Coming back is what attaches a workload created after its instance: nothing else asks for
    a pass, since the new workload names no instance, and the pass marks it and settles it.
   */
  lemma LateWorkloadIsAttached(w: World, name: string, namespace: string, e: Edit)
    requires Workable(w.store, name) && !w.store.instances[name].deleting
    requires w.store.workload.None? && e.CreateWorkload?
    ensures var inst, v := w.store.instances[name], Step(w, name, Reconciled([]));
            var u := Step(v, name, External(e));
            var end := Run(w, name, WorkloadComesLater(e)).store;
            && Reconcile(w.(env := []), name).end == Requeued
            && u.store.workload.Some? && Filter.Requests(namespace, u.store.workload.value) == []
            && end.workload.Some?
            && Filter.Requests(namespace, end.workload.value) == [Filter.Request(namespace, name)]
            && Plain(end.workload.value) == Settle(inst.kind, inst.idle, name, Plain(u.store.workload.value))
  {
    hide Reconcile, Settle, Schedules.RoleIntact, Schedules.Settled, Run;
    LaterUnfolds(w, name, e);
    PassWithoutWorkload(w.(env := []), name);
    var v := Step(w, name, Reconciled([]));
    var u := Step(v, name, External(e));
    var inst, wl := w.store.instances[name], u.store.workload.value;
    NewIsUnmarked(v.store, e);
    QuietPass(u.(env := []), name);
    var end := Step(u, name, Reconciled([])).store.workload.value;
    SettledRefers(inst.kind, inst.idle, name, Plain(wl));
    assert end.annotations == Plain(end).annotations;
  }

  lemma NewIsUnmarked(s: Store, e: Edit)
    requires s.workload.None? && e.CreateWorkload?
    ensures ApplyEdit(s, e).workload.Some? && !Has(ApplyEdit(s, e).workload.value.annotations, REFERENCE)
  {
  }

  lemma SettledRefers(kind: string, idle: bool, name: string, wl: Workload)
    requires !Has(wl.annotations, REFERENCE)
    ensures Get(Settle(kind, idle, name, wl).annotations, REFERENCE) == Some(name)
  {
    hide Atoi, Itoa;
    KeysDiffer();
  }

  // ----- Nothing to do -----

  /** Under every script: an instance that is gone ends the pass in peace, a failed read does not. */
  lemma FirstReadEnds(w: World, name: string)
    ensures var got, r := GetInstance(w, name), Reconcile(w, name);
            && (got.value == Failure(NotFound) ==> r == Ended(got.world, Finished))
            && (got.value.Failure? && got.value != Failure(NotFound) ==>
                  r == Ended(got.world, Errored(got.value.error)))
  {
    hide GetInstance, EnsureFinalizer, ReconcileCronStrategies, Proceed;
  }

  /** Undisturbed, a pass for a name that nobody has leaves the world as it is and finishes. */
  lemma GoneIsFinished(w: World, name: string)
    requires w.env == [] && name !in w.store.instances
    ensures Reconcile(w, name) == Ended(w, Finished)
  {
    hide Proceed, EnsureFinalizer, ReconcileCronStrategies;
  }

  // ----- Finished -----

  lemma AloneMarks(w: World, local: Workload, name: string)
    requires Alone(w.env) && w.store.workload == Some(local)
    ensures var t := SetReference(w, local, name);
            && Alone(t.world.env) && t.world.store.instances == w.store.instances
            && (t.outcome.Pass? ==>
                  && t.world.store.workload == Some(t.local) && Plain(t.local) == Plain(Marked(name, local))
                  && Has(t.local.annotations, REFERENCE))
  {
    hide Retry;
    if !Has(local.annotations, REFERENCE) {
      var written := Deletion.AloneRetry(w, local, Refer(name));
    }
  }

  lemma AloneWakes(kind: string, w: World, local: Workload)
    requires Alone(w.env) && w.store.workload == Some(local)
    ensures var t := Wakeup(kind, w, local);
            && Alone(t.world.env) && t.world.store.instances == w.store.instances
            && (t.outcome.Pass? ==>
                  && t.world.store.workload == Some(t.local) && Plain(t.local) == Plain(Woken(kind, local))
                  && Has(t.local.annotations, REFERENCE) == Has(local.annotations, REFERENCE))
  {
    hide Retry, SavedCount;
    KeysDiffer();
    var resumed := Deletion.AloneRetry(w, local, ToSuspend(false));
    if SavedCount(local.annotations).Success? {
      var scaled := Deletion.AloneRetry(w, local, ToCount(SavedCount(local.annotations).value));
    }
  }

  lemma AloneSleeps(kind: string, w: World, local: Workload)
    requires Alone(w.env) && w.store.workload == Some(local)
    ensures var t := Idle(kind, w, local);
            t.outcome.Pass? ==> t.world.store.workload == Some(t.local) && Plain(t.local) == Plain(Slept(kind, local))
  {
    hide Retry;
    var suspended := Deletion.AloneRetry(w, local, ToSuspend(true));
    var scaled := Deletion.AloneRetry(w, local, ToZero);
  }

  /** With failing calls alone, a part of a pass that finishes has settled the workload. */
  lemma IdlerFinishes(w: World, name: string, inst: Instance, local: Workload)
    requires Alone(w.env) && w.store.workload == Some(local) && !inst.deleting
    ensures var r := ReconcileWithIdler(w, name, inst, local);
            r.end == Finished ==>
              && r.world.store.workload.Some?
              && Plain(r.world.store.workload.value) == Settle(inst.kind, inst.idle, name, Plain(local))
  {
    hide SetReference, Wakeup, Idle, Release, Marked, Woken, Slept;
    var marked := SetReference(w, local, name);
    AloneMarks(w, local, name);
    if marked.outcome.Pass? {
      AloneWakes(inst.kind, marked.world, marked.local);
      AloneSleeps(inst.kind, marked.world, marked.local);
      VersionsDoNotMatter(inst.kind, inst.idle, name, local);
      VersionsDoNotMatter(inst.kind, inst.idle, name, marked.local);
    }
  }

  /**
    A pass over an instance that stays, with failures and lost answers at any calls: if it
    finishes, the workload is what an undisturbed pass makes of it. So a failed marking, sleep
    or wake-up never ends in `Finished`.
   */
  lemma FinishedIsSettled(w: World, name: string)
    requires Alone(w.env) && name in w.store.instances && !w.store.instances[name].deleting
    requires Handled(w.store.instances[name].kind) && w.store.workload.Some?
    ensures var inst, r := w.store.instances[name], Reconcile(w, name);
            r.end == Finished ==>
              && r.world.store.workload.Some?
              && Plain(r.world.store.workload.value) ==
                   Settle(inst.kind, inst.idle, name, Plain(w.store.workload.value))
  {
    hide Prologue, ReconcileWithIdler, Settle;
    AlonePrologue(w, name);
    match Prologue(w, name)
    case Stopped(_, _) =>
    case Ready(v, inst) =>
      var got := GetWorkload(v);
      GetWorkloadFacts(v);
      AloneKeepsRest(v, got.world);
      if got.value.Success? {
        IdlerFinishes(got.world, name, inst, got.value.value);
      }
  }

  lemma AlonePrologue(w: World, name: string)
    requires Alone(w.env) && name in w.store.instances
    requires Holds(w.store.instances[name]) || !w.store.instances[name].deleting
    ensures var p := Prologue(w, name);
            && Alone(p.world.env) && p.world.store.workload == w.store.workload
            && (p.Stopped? ==> p.end.Errored?)
            && (p.Ready? ==> SameSpec(p.instance, w.store.instances[name]))
            && (p.Ready? && Held(w.store, name) ==>
                  p.instance == w.store.instances[name] && p.world.store.instances == w.store.instances)
  {
    hide GetInstance, EnsureFinalizer, ReconcileCronStrategies, ByOthers, OnlyEdits;
    var got := GetInstance(w, name);
    Orphans.GetInstanceFacts(w, name);
    AloneKeepsRest(w, got.world);
    AloneGetIsHonest(w, name);
    if got.value.Success? {
      var inst := got.value.value;
      var marked := EnsureFinalizer(got.world, name, inst);
      AloneMark(got.world, name, inst);
      if Holds(inst) {
        HeldNeedsNothing(got.world, name, inst);
      } else {
        AloneFinalizer(got.world, name, inst);
      }
      if marked.value.Success? {
        var v := ReconcileCronStrategies(marked.world, name, marked.value.value).world;
        ChildrenAreOthers(marked.world, name, marked.value.value);
        AloneKeepsRest(marked.world, v);
      }
    }
  }

  lemma ReleaseFinishes(w: World, name: string, local: Workload)
    requires Alone(w.env) && w.store.workload == Some(local) && Held(w.store, name)
    requires w.store.instances[name].deleting
    ensures var inst, r := w.store.instances[name], ReconcileWithIdler(w, name, w.store.instances[name], local);
            r.end == Finished ==>
              && !Held(r.world.store, name) && r.world.store.workload.Some?
              && Plain(r.world.store.workload.value) == Released(inst.kind, name, Plain(local))
  {
    hide SetReference, Wakeup, Retry, RemoveFinalizer, Marked, Woken, Deletion.Strips;
    var inst, marked := w.store.instances[name], SetReference(w, local, name);
    AloneMarks(w, local, name);
    if marked.outcome.Pass? {
      var woken := Wakeup(inst.kind, marked.world, marked.local);
      AloneWakes(inst.kind, marked.world, marked.local);
      VersionsDoNotMatter(inst.kind, false, name, local);
      VersionsDoNotMatter(inst.kind, false, name, marked.local);
      if woken.outcome.Pass? {
        var stripped := RemoveAnnotations(woken.world, woken.local);
        var written := Deletion.AloneRetry(woken.world, woken.local, Strip);
        if stripped.outcome.Pass? {
          DropFinishes(stripped.world, name);
        }
      }
    }
  }

  /** A refused release, or one whose answer is lost, is an error of the pass. */
  lemma DropFinishes(w: World, name: string)
    requires Alone(w.env) && Held(w.store, name)
    ensures var inst := w.store.instances[name];
            var d := RemoveFinalizer(w, name, inst);
            && d.world.store.workload == w.store.workload
            && (d.outcome.Pass? <==> Deletion.VerdictAt(w, 0).Served?)
            && (d.outcome.Pass? ==> !Held(d.world.store, name))
  {
    hide Deletion.Strips;
    Deletion.AloneDrop(w, name);
    AloneArrival(w);
    var inst := w.store.instances[name];
    assert Admits(inst, inst.(finalizers := Finalizers.Removed(inst.finalizers, Finalizers.KIDLE))) by {
      forall x {
        Finalizers.RemovedMembers(inst.finalizers, Finalizers.KIDLE, x);
      }
    }
  }

  /**
    A deletion pass, likewise: if it finishes, the finalizer is gone, and the workload, if there
    is one, is awake and bare.
   */
  lemma FinishedIsReleased(w: World, name: string)
    requires Alone(w.env) && Held(w.store, name) && w.store.instances[name].deleting
    requires Handled(w.store.instances[name].kind)
    ensures var inst, wl, r := w.store.instances[name], w.store.workload, Reconcile(w, name);
            r.end == Finished ==>
              && !Held(r.world.store, name) && (r.world.store.workload.Some? <==> wl.Some?)
              && (wl.Some? ==>
                    Plain(r.world.store.workload.value) == Released(inst.kind, name, Plain(wl.value)))
  {
    hide Prologue, ReconcileWithIdler, RemoveFinalizer, Released;
    AlonePrologue(w, name);
    match Prologue(w, name)
    case Stopped(_, _) =>
    case Ready(v, inst) =>
      var got := GetWorkload(v);
      GetWorkloadFacts(v);
      AloneKeepsRest(v, got.world);
      if got.value.Success? {
        ReleaseFinishes(got.world, name, got.value.value);
      } else {
        DropFinishes(got.world, name);
      }
  }
}
