/**
  The operator as a small transition system: whatever the scripts do, every change ever
  committed is one of a few atomic transitions of the version it replaced. An invariant of
  the transitions, checked one at a time, is then an invariant of every run.
 */
module Transitions {
  import opened Wrappers
  import opened Cluster
  import opened Idling
  import opened Owned
  import opened Reconciling
  import opened Frames
  import Finalizers
  import Orphans

  // ----- The transitions -----

  function Takes(inst: Instance): Instance {
    inst.(finalizers := Finalizers.Added(inst.finalizers, Finalizers.KIDLE))
  }

  function Drops(inst: Instance): Instance {
    inst.(finalizers := Finalizers.Removed(inst.finalizers, Finalizers.KIDLE))
  }

  /** The current instance of that name is replaced by what `after` makes of it. */
  ghost predicate Rewrites(e: Entry, name: string, after: Instance -> Instance) {
    name in e.before.instances && e.after == PutInstance(e.before, name, after(e.before.instances[name]))
  }

  /**
    What each kind of entry does, and when: the finalizer is taken only by an instance that is
    not being deleted, and given up only by one of a handled kind that is.
   */
  ghost predicate Lawful(e: Entry, name: string) {
    match e.op
    case Outside(_) => Mild(e)
    case WriteChild => Mild(e)
    case Write(change) =>
      && e.before.workload.Some? && (change.Refer? ==> change.name == name)
      && e.after == PutWorkload(e.before, Apply(change, e.before.workload.value))
    case TakeFinalizer =>
      && Rewrites(e, name, Takes)
      && !Holds(e.before.instances[name]) && !e.before.instances[name].deleting
    case DropFinalizer =>
      && Rewrites(e, name, Drops)
      && Holds(e.before.instances[name]) && e.before.instances[name].deleting
      && Handled(e.before.instances[name].kind)
    case SetIdle(flag) =>
      exists target ::
        && Rewrites(e, target, (inst: Instance) => inst.(idle := flag))
        && e.before.instances[target].idle != flag
  }

  /** From `w` to `v` by lawful transitions, all of them logged. */
  ghost predicate Steps(w: World, v: World, name: string) {
    && |w.log| <= |v.log| && v.log == w.log + New(w, v)
    && Linked(w.store, New(w, v), v.store)
    && forall e :: e in New(w, v) ==> Lawful(e, name)
  }

  /** As `Steps`, without touching owned objects, and with outside edits from the script only. */
  ghost predicate Strides(w: World, v: World, name: string) {
    && Steps(w, v, name)
    && (forall e :: e in New(w, v) ==> !e.op.WriteChild?)
    && (forall e :: e in New(w, v) && e.op.Outside? ==> Announced(e.op.edit, w.env))
    && (forall d :: d in v.env ==> d in w.env)
  }

  lemma StridesJoin(u: World, v: World, w: World, name: string)
    requires Strides(u, v, name) && Strides(v, w, name)
    ensures Strides(u, w, name)
  {
    hide New, Lawful, Linked;
    NewJoins(u, v, w);
    StepsJoin(u, v, w, name);
  }

  lemma EditsStride(w: World, v: World, name: string)
    requires ByOthers(w, v) && OnlyEdits(w, v)
    ensures Strides(w, v, name)
  {
    hide Linked;
  }

  lemma OneStride(w: World, op: Op, after: Store, name: string)
    requires Lawful(Entry(op, w.store, after), name) && !op.Outside? && !op.WriteChild?
    ensures Strides(w, Commit(w, op, after), name)
  {
    hide Lawful;
    OneStep(w, op, after, name);
    assert New(w, Commit(w, op, after)) == [Entry(op, w.store, after)];
  }

  lemma NoStride(w: World, name: string)
    ensures Strides(w, w, name)
  {
    OthersStay(w);
    OthersStep(w, w, name);
  }

  lemma StepsJoin(u: World, v: World, w: World, name: string)
    requires Steps(u, v, name) && Steps(v, w, name)
    ensures Steps(u, w, name)
  {
    hide New, Lawful;
    NewJoins(u, v, w);
    LinkedJoins(u.store, New(u, v), v.store, New(v, w), w.store);
  }

  lemma OthersStep(w: World, v: World, name: string)
    requires ByOthers(w, v)
    ensures Steps(w, v, name)
  {
  }

  lemma OneStep(w: World, op: Op, after: Store, name: string)
    requires Lawful(Entry(op, w.store, after), name)
    ensures Steps(w, Commit(w, op, after), name)
  {
    hide Lawful;
    var v, entry := Commit(w, op, after), Entry(op, w.store, after);
    assert New(w, v) == [entry];
    assert Linked(w.store, [entry], after) by {
      assert [entry][..0] == [];
      assert Linked(w.store, [], w.store);
    }
  }

  lemma WritesKeepChildren(e: Entry, name: string)
    requires Lawful(e, name) && !e.op.WriteChild? && !e.op.Outside?
    ensures e.after.children == e.before.children
  {
    hide Apply;
  }

  // ----- Copies of the instance -----

  lemma LawfulKeepsCopy(e: Entry, name: string, inst: Instance)
    requires Lawful(e, name) && InstanceSnapshot(inst, e.before, name)
    ensures InstanceSnapshot(inst, e.after, name)
  {
    if Mild(e) {
      MildKeepsSnapshots(e, Workload(0, None, 0, false, ""), inst, name);
    }
  }

  lemma {:induction false} ChainKeepsCopy(s: Store, entries: seq<Entry>, t: Store, name: string, inst: Instance)
    requires Linked(s, entries, t) && InstanceSnapshot(inst, s, name)
    requires forall e :: e in entries ==> Lawful(e, name)
    ensures InstanceSnapshot(inst, t, name)
    decreases |entries|
  {
    hide Lawful, InstanceSnapshot;
    if entries == [] {
    } else {
      var k := |entries| - 1;
      assert entries[k] in entries && forall e :: e in entries[..k] ==> e in entries;
      ChainKeepsCopy(s, entries[..k], entries[k].before, name, inst);
      LawfulKeepsCopy(entries[k], name, inst);
    }
  }

  /** A copy of the instance, however old, is never mistaken for the current version later. */
  lemma StepsKeepCopy(w: World, v: World, name: string, inst: Instance)
    requires Steps(w, v, name) && InstanceSnapshot(inst, w.store, name)
    ensures InstanceSnapshot(inst, v.store, name)
  {
    hide Lawful, InstanceSnapshot;
    ChainKeepsCopy(w.store, New(w, v), v.store, name, inst);
  }

  lemma StridesKeepCopy(w: World, v: World, name: string, inst: Instance)
    requires Strides(w, v, name) && InstanceSnapshot(inst, w.store, name)
    ensures InstanceSnapshot(inst, v.store, name)
  {
    hide Steps, InstanceSnapshot;
    StepsKeepCopy(w, v, name, inst);
  }

  // ----- A pass, walked once -----

  lemma RetrySteps(w: World, local: Workload, change: Change, name: string)
    requires change.Refer? ==> change.name == name
    ensures Strides(w, Retry(w, local, change, Attempts()).world, name)
  {
    hide Retry, Steps, ByOthers;
    var a := RetryIsAtomic(w, local, change, Attempts());
    EditsStride(w, a, name);
    if a.store.workload.Some? {
      OneStride(a, Write(change), PutWorkload(a.store, Apply(change, a.store.workload.value)), name);
      StridesJoin(w, a, Rewritten(a, change), name);
    }
  }

  lemma DropSteps(w: World, name: string, inst: Instance)
    requires InstanceSnapshot(inst, w.store, name) && inst.deleting && Handled(inst.kind)
    ensures Strides(w, RemoveFinalizer(w, name, inst).world, name)
  {
    hide Strides, ByOthers, OnlyEdits, InstanceSnapshot;
    var a, v := Arrive(w), RemoveFinalizer(w, name, inst).world;
    ArriveIsOthers(w);
    NoStride(w, name);
    EditsStride(w, a, name);
    OthersKeepInstanceSnapshot(w, a, inst, name);
    if v != w && v != a {
      CurrentCopy(inst, a.store, name);
      SameButVersion(a.store, name, Drops(a.store.instances[name]), Drops(inst));
      OneStride(a, DropFinalizer, PutInstance(a.store, name, Drops(inst)), name);
      StridesJoin(w, a, v, name);
    }
  }

  lemma CurrentCopy(inst: Instance, s: Store, name: string)
    requires InstanceSnapshot(inst, s, name) && name in s.instances && s.instances[name].version == inst.version
    ensures inst == s.instances[name]
  {
  }

  lemma SameButVersion(s: Store, name: string, a: Instance, b: Instance)
    requires a.(version := 0) == b.(version := 0)
    ensures PutInstance(s, name, a) == PutInstance(s, name, b)
  {
    assert a.(version := s.revision + 1) == b.(version := s.revision + 1);
  }

  lemma TakeSteps(w: World, name: string, inst: Instance)
    requires InstanceSnapshot(inst, w.store, name)
    ensures var r := EnsureFinalizer(w, name, inst);
            && Strides(w, r.world, name)
            && (r.value.Success? ==> InstanceSnapshot(r.value.value, r.world.store, name))
            && (r.value.Success? ==> r.value.value.kind == inst.kind)
  {
    hide Strides, ByOthers, OnlyEdits;
    var a, r := Arrive(w), EnsureFinalizer(w, name, inst);
    ArriveIsOthers(w);
    NoStride(w, name);
    EditsStride(w, a, name);
    OthersKeepInstanceSnapshot(w, a, inst, name);
    if r.world != w && r.world != a {
      assert inst == a.store.instances[name];
      assert Finalizers.KIDLE in Takes(inst).finalizers;
      OneStride(a, TakeFinalizer, PutInstance(a.store, name, Takes(inst)), name);
      StridesJoin(w, a, r.world, name);
    }
  }

  lemma WakeupSteps(kind: string, w: World, local: Workload, name: string)
    ensures Strides(w, Wakeup(kind, w, local).world, name)
  {
    hide Strides, Retry;
    NoStride(w, name);
    RetrySteps(w, local, ToSuspend(false), name);
    if SavedCount(local.annotations).Success? {
      RetrySteps(w, local, ToCount(SavedCount(local.annotations).value), name);
    }
  }

  lemma ReleaseSteps(w: World, name: string, inst: Instance, local: Workload)
    requires InstanceSnapshot(inst, w.store, name) && inst.deleting && Handled(inst.kind)
    ensures Strides(w, Release(w, name, inst, local).world, name)
  {
    hide Strides, Retry, Wakeup, RemoveFinalizer, InstanceSnapshot;
    var woken := Wakeup(inst.kind, w, local);
    WakeupSteps(inst.kind, w, local, name);
    if woken.outcome.Pass? {
      var stripped := RemoveAnnotations(woken.world, woken.local);
      NoStride(woken.world, name);
      RetrySteps(woken.world, woken.local, Strip, name);
      StridesJoin(w, woken.world, stripped.world, name);
      if stripped.outcome.Pass? {
        StridesKeepCopy(w, stripped.world, name, inst);
        DropSteps(stripped.world, name, inst);
        StridesJoin(w, stripped.world, RemoveFinalizer(stripped.world, name, inst).world, name);
      }
    }
  }

  lemma IdlerSteps(w: World, name: string, inst: Instance, local: Workload)
    requires InstanceSnapshot(inst, w.store, name) && Handled(inst.kind)
    ensures Strides(w, ReconcileWithIdler(w, name, inst, local).world, name)
  {
    hide Strides, Retry, Wakeup, Release, InstanceSnapshot;
    var marked := SetReference(w, local, name);
    NoStride(w, name);
    RetrySteps(w, local, Refer(name), name);
    var v := ReconcileWithIdler(w, name, inst, local).world;
    if v != marked.world {
      StridesKeepCopy(w, marked.world, name, inst);
      if inst.deleting {
        ReleaseSteps(marked.world, name, inst, marked.local);
      }
      WakeupSteps(inst.kind, marked.world, marked.local, name);
      RetrySteps(marked.world, marked.local, ToZero, name);
      RetrySteps(marked.world, marked.local, ToSuspend(true), name);
      StridesJoin(w, marked.world, v, name);
    }
  }

  lemma ProceedSteps(w: World, name: string, inst: Instance)
    requires InstanceSnapshot(inst, w.store, name)
    ensures Strides(w, Proceed(w, name, inst).world, name)
  {
    hide Strides, ReconcileWithIdler, RemoveFinalizer, InstanceSnapshot, ByOthers, OnlyEdits;
    NoStride(w, name);
    if Handled(inst.kind) {
      var got, v := GetWorkload(w), Proceed(w, name, inst).world;
      GetWorkloadFacts(w);
      EditsStride(w, got.world, name);
      if v != got.world {
        StridesKeepCopy(w, got.world, name, inst);
        if got.value.Success? {
          IdlerSteps(got.world, name, inst, got.value.value);
        } else {
          DropSteps(got.world, name, inst);
        }
        StridesJoin(w, got.world, v, name);
      }
    }
  }

  lemma PrologueSteps(w: World, name: string)
    ensures var p := Prologue(w, name);
            && Steps(w, p.world, name)
            && (p.Ready? ==> InstanceSnapshot(p.instance, p.world.store, name))
  {
    hide Steps, EnsureFinalizer, ReconcileCronStrategies, InstanceSnapshot, ByOthers;
    var got := GetInstance(w, name);
    Orphans.GetInstanceFacts(w, name);
    OthersStep(w, got.world, name);
    if got.value.Success? {
      var marked := EnsureFinalizer(got.world, name, got.value.value);
      TakeSteps(got.world, name, got.value.value);
      StepsJoin(w, got.world, marked.world, name);
      if marked.value.Success? {
        var d := ReconcileCronStrategies(marked.world, name, marked.value.value).world;
        ChildrenAreOthers(marked.world, name, marked.value.value);
        OthersStep(marked.world, d, name);
        StepsJoin(w, marked.world, d, name);
        StepsKeepCopy(marked.world, d, name, marked.value.value);
      }
    }
  }

  /** Under every script, stale reads of instance and workload included. */
  lemma PassIsLawful(w: World, name: string)
    ensures Steps(w, Reconcile(w, name).world, name)
  {
    hide Steps, Prologue, Proceed, InstanceSnapshot;
    PrologueSteps(w, name);
    match Prologue(w, name)
    case Stopped(_, _) =>
    case Ready(v, inst) =>
      ProceedSteps(v, name, inst);
      StepsJoin(w, v, Proceed(v, name, inst).world, name);
  }

  lemma KidlectlIsLawful(w: World, target: string, idle: bool, name: string)
    ensures Strides(w, ApplyDesiredIdleState(w, target, idle).world, name)
  {
    hide Strides, ByOthers, OnlyEdits, GetInstance, InstanceSnapshot;
    var got, v := GetInstance(w, target), ApplyDesiredIdleState(w, target, idle).world;
    Orphans.GetInstanceFacts(w, target);
    EditsStride(w, got.world, name);
    if v != got.world {
      var inst, a := got.value.value, Arrive(got.world);
      ArriveIsOthers(got.world);
      EditsStride(got.world, a, name);
      StridesJoin(w, got.world, a, name);
      if v != a {
        OthersKeepInstanceSnapshot(got.world, a, inst, target);
        CurrentCopy(inst, a.store, target);
        FlagIsLawful(a.store, target, idle, name);
        OneStride(a, SetIdle(idle), PutInstance(a.store, target, inst.(idle := idle)), name);
        StridesJoin(w, a, v, name);
      }
    }
  }

  lemma FlagIsLawful(s: Store, target: string, idle: bool, name: string)
    requires target in s.instances && s.instances[target].idle != idle
    ensures Lawful(Entry(SetIdle(idle), s, PutInstance(s, target, s.instances[target].(idle := idle))), name)
  {
    var e := Entry(SetIdle(idle), s, PutInstance(s, target, s.instances[target].(idle := idle)));
    assert Rewrites(e, target, (inst: Instance) => inst.(idle := idle));
  }

  /** Every run is a sequence of lawful transitions, with no condition on events or scripts. */
  lemma {:induction false} RunIsLawful(w: World, name: string, events: seq<Event>)
    ensures Steps(w, Run(w, name, events), name)
    decreases |events|
  {
    hide Steps, Reconcile, ApplyDesiredIdleState, ApplyEdit;
    if events == [] {
      OthersStay(w);
      OthersStep(w, w, name);
    } else {
      var v := Step(w, name, events[0]);
      EventIsLawful(w, name, events[0]);
      RunIsLawful(v, name, events[1..]);
      StepsJoin(w, v, Run(v, name, events[1..]), name);
    }
  }

  lemma EventIsLawful(w: World, name: string, event: Event)
    ensures Steps(w, Step(w, name, event), name)
  {
    hide Reconcile, ApplyDesiredIdleState, Lawful;
    match event
    case External(edit) =>
      assert Lawful(Entry(Outside(edit), w.store, ApplyEdit(w.store, edit)), name) by {
        EditIsLawful(w.store, edit, name);
      }
      OneStep(w, Outside(edit), ApplyEdit(w.store, edit), name);
    case Reconciled(env) =>
      PassIsLawful(w.(env := env), name);
      ScriptsAreNotLogged(w, env, Reconcile(w.(env := env), name).world, name);
    case Kidlectl(target, idle, env) =>
      KidlectlIsLawful(w.(env := env), target, idle, name);
      ScriptsAreNotLogged(w, env, ApplyDesiredIdleState(w.(env := env), target, idle).world, name);
  }

  lemma EditIsLawful(s: Store, edit: Edit, name: string)
    ensures Lawful(Entry(Outside(edit), s, ApplyEdit(s, edit)), name)
  {
    hide ApplyEdit;
  }

  lemma ScriptsAreNotLogged(w: World, env: seq<Disturbance>, v: World, name: string)
    requires Steps(w.(env := env), v, name)
    ensures Steps(w, v.(env := []), name)
  {
    hide Lawful, Linked;
    assert New(w.(env := env), v) == New(w, v.(env := []));
  }

  // ----- A kind outside the three -----

  /** The finalizer is held for a workload of a kind the operator does nothing with. */
  predicate Bound(s: Store, name: string) {
    Held(s, name) && !Handled(s.instances[name].kind)
  }

  lemma LawfulKeepsBound(e: Entry, name: string)
    requires Lawful(e, name) && Bound(e.before, name)
    ensures Bound(e.after, name)
  {
    if e.op.Outside? && e.op.edit.EditInstance? {
      forall x {
        Finalizers.RemovedMembers(e.op.edit.finalizers, Finalizers.KIDLE, x);
      }
    }
  }

  lemma {:induction false} ChainKeepsBound(s: Store, entries: seq<Entry>, t: Store, name: string)
    requires Linked(s, entries, t) && Bound(s, name)
    requires forall e :: e in entries ==> Lawful(e, name)
    ensures Bound(t, name) && forall e :: e in entries ==> Bound(e.after, name)
    decreases |entries|
  {
    hide Lawful, Bound;
    if entries == [] {
    } else {
      var k := |entries| - 1;
      assert entries == entries[..k] + [entries[k]];
      ChainKeepsBound(s, entries[..k], entries[k].before, name);
      LawfulKeepsBound(entries[k], name);
    }
  }

  /**
    The finalizer taken for a kind outside the three is never given up: in no run, under no
    script, not even when old copies of the instance show another kind.
   */
  lemma UnhandledKeepsFinalizer(w: World, name: string, events: seq<Event>)
    requires Bound(w.store, name)
    ensures var v := Run(w, name, events);
            && Bound(v.store, name)
            && |w.log| <= |v.log| && forall k :: |w.log| <= k < |v.log| ==> Bound(v.log[k].after, name)
  {
    hide Lawful, Bound, Run;
    var v := Run(w, name, events);
    RunIsLawful(w, name, events);
    ChainKeepsBound(w.store, New(w, v), v.store, name);
    assert forall k :: |w.log| <= k < |v.log| ==> v.log[k] == New(w, v)[k - |w.log|];
  }
}
