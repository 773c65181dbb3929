/**
  Which copy of the workload a pass decides on. The idlers share one copy, and setting the
  reference refreshes it: whether to sleep or to wake is decided on the version that the
  reference was written over, or on the copy read first if it already had one.
 */
module Decisions {
  import opened Wrappers
  import opened Decimal
  import opened Annotations
  import opened Cluster
  import opened Idling
  import opened Owned
  import opened Reconciling
  import opened Frames
  import opened Settling
  import Orphans
  import Transitions

  // ----- Edits at the marking's read -----

  lemma MarkingReadsAgain(w: World, local: Workload, name: string)
    requires |w.env| == 1 && w.env[0].verdict.Served? && Arrive(w).store.workload.Some?
    requires !Has(local.annotations, REFERENCE)
    ensures var v := Rewritten(Arrive(w), Refer(name));
            SetReference(w, local, name) == Try(v, v.store.workload.value, Pass) && v.env == []
  {
    hide EditAll;
    var a := Arrive(w);
    assert a.env == [] by {
      EditAllFacts(w.(env := w.env[1..]), w.env[0].edits);
    }
    var v := Rewritten(a, Refer(name));
    assert Attempt(w, local, Refer(name)) == Try(v, v.store.workload.value, Pass);
  }

  lemma SettleAfterMarking(kind: string, idle: bool, name: string, wl: Workload)
    requires !Has(wl.annotations, REFERENCE)
    ensures Settle(kind, idle, name, Plain(Apply(Refer(name), wl))) == Settle(kind, idle, name, Plain(wl))
  {
    hide Woken, Slept;
    assert Marked(name, Plain(wl)) == Plain(Apply(Refer(name), wl));
    assert Marked(name, Plain(Apply(Refer(name), wl))) == Plain(Apply(Refer(name), wl));
  }

  /**
    Whatever others do to an unmarked workload just before the marking reads it, the pass
    settles the workload it then finds, not the one it read first.
   */
  lemma SettlesWhatMarkingReads(w: World, name: string, inst: Instance, local: Workload)
    requires |w.env| == 1 && w.env[0].verdict.Served? && Arrive(w).store.workload.Some?
    requires !Has(local.annotations, REFERENCE) && !Has(Arrive(w).store.workload.value.annotations, REFERENCE)
    requires Handled(inst.kind) && !inst.deleting
    ensures var r, wl := ReconcileWithIdler(w, name, inst, local), Arrive(w).store.workload.value;
            && r.world.store.workload.Some?
            && Plain(r.world.store.workload.value) == Settle(inst.kind, inst.idle, name, Plain(wl))
            && r.end == (if FailsToWake(inst.kind, inst.idle, wl) then Errored(BadNumber) else Finished)
  {
    hide Arrive, SetReference, Settle, Release, Wakeup, Idle, Retry, Wakes, SavedCount;
    var a := Arrive(w);
    var wl, v := a.store.workload.value, Rewritten(a, Refer(name));
    var next := v.store.workload.value;
    MarkingReadsAgain(w, local, name);
    assert Has(next.annotations, REFERENCE);
    assert SetReference(v, next, name) == Try(v, next, Pass) by {
      AlreadyMarked(v, next, name);
    }
    assert ReconcileWithIdler(w, name, inst, local) == ReconcileWithIdler(v, name, inst, next);
    QuietIdler(v, name, inst, next);
    SettleAfterMarking(inst.kind, inst.idle, name, wl);
    SameNeeds(inst.kind, inst.idle, name, wl, next);
  }

  lemma AlreadyMarked(w: World, local: Workload, name: string)
    requires Has(local.annotations, REFERENCE)
    ensures SetReference(w, local, name) == Try(w, local, Pass)
  {
  }

  lemma SameNeeds(kind: string, idle: bool, name: string, wl: Workload, next: Workload)
    requires Plain(next) == Plain(Apply(Refer(name), wl))
    ensures Plain(next) == Plain(Apply(Refer(name), Plain(wl)))
    ensures FailsToWake(kind, idle, next) == FailsToWake(kind, idle, wl)
  {
    hide Atoi;
    KeysDiffer();
    assert next.annotations == Plain(next).annotations == With(wl.annotations, REFERENCE, name);
    assert Get(next.annotations, PREVIOUS) == Get(wl.annotations, PREVIOUS);
  }

  /**
    An unmarked Deployment with replicas, to be put to sleep, is scaled to zero before the
    marking reads it: it is found asleep already, and no count is saved for it.
   */
  lemma ScaledDownBeforeMarking(w: World, name: string, inst: Instance, local: Workload)
    requires w.store.workload == Some(local) && Bare(local) && local.replicas > 0
    requires inst.kind == DEPLOYMENT && inst.idle && !inst.deleting
    requires w.env == [Disturbance([EditWorkload(map[], 0, false, "")], Served)]
    ensures var r := ReconcileWithIdler(w, name, inst, local);
            && r.end == Finished && r.world.store.workload.Some?
            && r.world.store.workload.value.replicas == 0
            && !Has(r.world.store.workload.value.annotations, PREVIOUS)
  {
    hide ReconcileWithIdler, EditAll;
    KeysDiffer();
    var edit := EditWorkload(map[], 0, false, "");
    var u := w.(env := w.env[1..]);
    assert EditAll(u, [edit]) == Commit(u, Outside(edit), ApplyEdit(u.store, edit)) by {
      OneEditOnly(u, edit);
    }
    var wl := Arrive(w).store.workload.value;
    assert !Has(wl.annotations, REFERENCE) && !Has(wl.annotations, PREVIOUS);
    SettlesWhatMarkingReads(w, name, inst, local);
    var after := ReconcileWithIdler(w, name, inst, local).world.store.workload.value;
    assert after.annotations == Plain(after).annotations;
  }

  lemma OneEditOnly(w: World, edit: Edit)
    ensures EditAll(w, [edit]) == Commit(w, Outside(edit), ApplyEdit(w.store, edit))
  {
    assert [edit][1..] == [];
  }

  // ----- Every script -----

  /** The change is one that this copy calls for under this flag. */
  predicate CalledFor(kind: string, idle: bool, change: Change, wl: Workload) {
    match change
    case ToZero => NeedIdle(kind, wl, idle)
    case ToCount(_) => NeedWakeup(kind, wl, idle)
    case ToSuspend(on) => if on then NeedIdle(kind, wl, idle) else NeedWakeup(kind, wl, idle)
    case _ => true
  }

  predicate Decides(change: Change) {
    change.ToZero? || change.ToCount? || change.ToSuspend?
  }

  /**
    Everything the log after `from` shows about decisions: each was called for by the version
    some reference was just written over, or, without such a write, by a copy already marked.
   */
  ghost predicate DecidedOnMarked(from: nat, w: World, kind: string, idle: bool, local: Workload) {
    forall j :: from <= j < |w.log| && w.log[j].op.Write? && Decides(w.log[j].op.change) ==>
      if Has(local.annotations, REFERENCE) then
        && CalledFor(kind, idle, w.log[j].op.change, local)
        && (forall i :: from <= i < j && w.log[i].op.Write? ==> !w.log[i].op.change.Refer?)
      else
        exists i :: from <= i < j && w.log[i].op.Write? && w.log[i].op.change.Refer? && w.log[i].before.workload.Some?
                    && CalledFor(kind, idle, w.log[j].op.change, w.log[i].before.workload.value)
  }

  /** After a retried change: nothing, or that one write at the end of the log. */
  ghost predicate WroteLast(w: World, v: World, change: Change) {
    && w.log <= v.log
    && (!WritesWorkload(w, v)
        || (&& |w.log| < |v.log| && v.log[|v.log| - 1].op == Write(change)
            && forall k :: |w.log| <= k < |v.log| - 1 ==> !v.log[k].op.Write?))
  }

  lemma RetryWroteLast(w: World, local: Workload, change: Change)
    ensures var t := Retry(w, local, change, Attempts());
            && WroteLast(w, t.world, change)
            && (t.outcome.Pass? ==>
                  && |w.log| < |t.world.log| && t.world.log[|t.world.log| - 1].op == Write(change)
                  && t.world.log[|t.world.log| - 1].before.workload.Some?
                  && Plain(t.local) == Plain(Apply(change, t.world.log[|t.world.log| - 1].before.workload.value)))
  {
    hide Retry, ByOthers, OnlyEdits;
    var a := RetryIsAtomic(w, local, change, Attempts());
    OthersWriteNothing(w, a);
  }

  lemma ActDecides(w: World, name: string, inst: Instance, local: Workload)
    requires !inst.deleting && Has(local.annotations, REFERENCE)
    ensures var v := ReconcileWithIdler(w, name, inst, local).world;
            w.log <= v.log && DecidedOnMarked(|w.log|, v, inst.kind, inst.idle, local)
  {
    hide Retry, SavedCount;
    RetryWroteLast(w, local, ToZero);
    RetryWroteLast(w, local, ToSuspend(true));
    RetryWroteLast(w, local, ToSuspend(false));
    if SavedCount(local.annotations).Success? {
      RetryWroteLast(w, local, ToCount(SavedCount(local.annotations).value));
    }
  }

  lemma MarkThenAct(w: World, name: string, inst: Instance, local: Workload)
    requires !inst.deleting && !Has(local.annotations, REFERENCE)
    requires SetReference(w, local, name).outcome.Pass?
    ensures var marked := SetReference(w, local, name);
            && Has(marked.local.annotations, REFERENCE)
            && ReconcileWithIdler(w, name, inst, local) == ReconcileWithIdler(marked.world, name, inst, marked.local)
  {
    hide Retry, Release, Wakeup, Idle;
    Orphans.SetReferenceMarks(w, local, name);
  }

  lemma CalledForBefore(kind: string, idle: bool, change: Change, name: string, before: Workload, local: Workload)
    requires Plain(local) == Plain(Apply(Refer(name), before))
    ensures CalledFor(kind, idle, change, local) == CalledFor(kind, idle, change, before)
  {
    assert Plain(local).replicas == local.replicas && Plain(local).suspend == local.suspend;
  }

  /** Under every script, from the copy the pass read first. */
  lemma IdlerDecides(w: World, name: string, inst: Instance, local: Workload)
    requires !inst.deleting
    ensures var v := ReconcileWithIdler(w, name, inst, local).world;
            w.log <= v.log && DecidedOnMarked(|w.log|, v, inst.kind, inst.idle, local)
  {
    hide Retry, ReconcileWithIdler, CalledFor;
    if Has(local.annotations, REFERENCE) {
      ActDecides(w, name, inst, local);
    } else {
      var marked := SetReference(w, local, name);
      RetryWroteLast(w, local, Refer(name));
      if marked.outcome.Pass? {
        MarkThenAct(w, name, inst, local);
        ActDecides(marked.world, name, inst, marked.local);
        var v, i := ReconcileWithIdler(w, name, inst, local).world, |marked.world.log| - 1;
        assert forall k :: 0 <= k <= i ==> v.log[k] == marked.world.log[k];
        forall j | |w.log| <= j < |v.log| && v.log[j].op.Write? && Decides(v.log[j].op.change)
          ensures i < j && CalledFor(inst.kind, inst.idle, v.log[j].op.change, v.log[i].before.workload.value)
        {
          CalledForBefore(inst.kind, inst.idle, v.log[j].op.change, name, v.log[i].before.workload.value, marked.local);
        }
      } else {
        FailedMarkingStops(w, name, inst, local);
      }
    }
  }

  lemma FailedMarkingStops(w: World, name: string, inst: Instance, local: Workload)
    requires SetReference(w, local, name).outcome.Fail?
    ensures ReconcileWithIdler(w, name, inst, local).world == SetReference(w, local, name).world
  {
  }

  lemma PrologueWritesNothing(w: World, name: string)
    ensures w.log <= Prologue(w, name).world.log && !WritesWorkload(w, Prologue(w, name).world)
  {
    hide GetInstance, ReconcileCronStrategies, ByOthers, OnlyEdits, Arrive;
    var got := GetInstance(w, name);
    Orphans.GetInstanceFacts(w, name);
    OthersWriteNothing(w, got.world);
    if got.value.Success? {
      var marked := EnsureFinalizer(got.world, name, got.value.value);
      ArriveIsOthers(got.world);
      OthersWriteNothing(got.world, Arrive(got.world));
      if marked.value.Success? {
        var v := ReconcileCronStrategies(marked.world, name, marked.value.value).world;
        ChildrenAreOthers(marked.world, name, marked.value.value);
        OthersWriteNothing(marked.world, v);
      }
    }
  }

  /**
    A whole pass, under every script: every decision to put to sleep or to wake was called for
    by the copy read first, if that was marked, and otherwise by the very version that this
    pass wrote the reference over, however stale the copy read first was.
   */
  lemma PassDecidesOnMarked(w: World, name: string)
    ensures var p, v := Prologue(w, name), Reconcile(w, name).world;
            && w.log <= p.world.log <= v.log && !WritesWorkload(w, p.world)
            && (p.Ready? && !p.instance.deleting ==>
                  var got := GetWorkload(p.world);
                  if Handled(p.instance.kind) && got.value.Success?
                  then DecidedOnMarked(|p.world.log|, v, p.instance.kind, p.instance.idle, got.value.value)
                  else !WritesWorkload(p.world, v))
  {
    hide Prologue, ReconcileWithIdler, RemoveFinalizer, ByOthers, OnlyEdits, InstanceSnapshot, Linked,
      Transitions.Lawful;
    PrologueWritesNothing(w, name);
    match Prologue(w, name)
    case Stopped(_, _) =>
    case Ready(p, inst) =>
      var got := GetWorkload(p);
      GetWorkloadFacts(p);
      OthersWriteNothing(p, got.world);
      if Handled(inst.kind) {
        if got.value.Success? && !inst.deleting {
          IdlerDecides(got.world, name, inst, got.value.value);
          ReadsDecideNothing(p, got.world, Reconcile(w, name).world, inst, got.value.value);
        } else {
          Transitions.PrologueSteps(w, name);
          Transitions.ProceedSteps(p, name, inst);
        }
      }
  }

  lemma ReadsDecideNothing(p: World, got: World, v: World, inst: Instance, local: Workload)
    requires p.log <= got.log <= v.log && !WritesWorkload(p, got)
    requires DecidedOnMarked(|got.log|, v, inst.kind, inst.idle, local)
    ensures DecidedOnMarked(|p.log|, v, inst.kind, inst.idle, local)
  {
    assert forall k :: 0 <= k < |got.log| ==> v.log[k] == got.log[k];
  }
}
