/**
  How the operator conducts itself towards a workload it is served current. The pass is walked
  once: what it writes fits the kind, a reference is set only where there is none, a wake-up
  writes the count that is saved, and a finalizer is given up over a bare workload.
 */
module Conduct {
  import opened Wrappers
  import opened Decimal
  import opened Annotations
  import opened Cluster
  import opened Idling
  import opened Owned
  import opened Reconciling
  import opened Frames
  import Finalizers
  import Orphans

  // ----- Current copies -----

  /** The copy shows the kidle annotations that are in the store. */
  predicate ShowsKidle(wl: Workload, s: Store) {
    s.workload.Some? && Kidle(View(wl.annotations)) == Kidle(View(s.workload.value.annotations))
  }

  lemma ShownAnnotations(wl: Workload, s: Store, key: string)
    requires ShowsKidle(wl, s) && IsKidleKey(key)
    ensures Get(wl.annotations, key) == Get(s.workload.value.annotations, key)
  {
    var a, b := View(wl.annotations), View(s.workload.value.annotations);
    assert key in a <==> key in Kidle(a);
    assert key in b <==> key in Kidle(b);
  }

  /** The pass's first read of the workload is not older than the last kidle write to it. */
  predicate StartsCurrent(w: World, name: string) {
    match Prologue(w, name)
    case Stopped(_, _) => true
    case Ready(v, inst) =>
      var got := GetWorkload(v);
      got.value.Success? ==> ShowsKidle(got.value.value, got.world.store)
  }

  /** Workloads are read current, and not deleted or created while the script plays. */
  ghost predicate CurrentWorkloads(env: seq<Disturbance>) {
    Steady(env) && forall d :: d in env ==> !d.verdict.StaleWorkload?
  }

  lemma CurrentWorkloadsStart(w: World, name: string)
    requires CurrentWorkloads(w.env)
    ensures StartsCurrent(w, name)
  {
    hide Prologue;
    Orphans.PrologueAddsNoScript(w, name);
    match Prologue(w, name)
    case Stopped(_, _) =>
    case Ready(v, inst) =>
      assert v.env != [] ==> v.env[0] in v.env;
  }

  // ----- What others leave alone -----

  lemma MildKeepsPrevious(e: Entry)
    requires Mild(e) && e.before.workload.Some? && !(e.op.Outside? && Recreates(e.op.edit))
    ensures e.after.workload.Some?
    ensures forall key :: IsKidleKey(key) ==>
              Get(e.after.workload.value.annotations, key) == Get(e.before.workload.value.annotations, key)
  {
  }

  lemma {:induction false} ChainKeepsKidle(s: Store, entries: seq<Entry>, t: Store)
    requires Linked(s, entries, t) && s.workload.Some?
    requires forall e :: e in entries ==> Mild(e) && (e.op.Outside? ==> !Recreates(e.op.edit))
    ensures t.workload.Some?
    ensures forall key :: IsKidleKey(key) ==>
              Get(t.workload.value.annotations, key) == Get(s.workload.value.annotations, key)
    decreases |entries|
  {
    if entries == [] {
    } else {
      var k := |entries| - 1;
      assert entries == entries[..k] + [entries[k]];
      ChainKeepsKidle(s, entries[..k], entries[k].before);
      MildKeepsPrevious(entries[k]);
    }
  }

  lemma OthersKeepKidle(w: World, v: World)
    requires ByOthers(w, v) && Steady(w.env) && w.store.workload.Some?
    ensures v.store.workload.Some?
    ensures forall key :: IsKidleKey(key) ==>
              Get(v.store.workload.value.annotations, key) == Get(w.store.workload.value.annotations, key)
  {
    ChainKeepsKidle(w.store, New(w, v), v.store);
  }

  predicate BareIn(s: Store) {
    s.workload.Some? ==> Bare(s.workload.value)
  }

  lemma MildKeepsBare(e: Entry)
    requires Mild(e) && BareIn(e.before)
    ensures BareIn(e.after)
  {
    KeysDiffer();
  }

  lemma {:induction false} ChainKeepsBare(s: Store, entries: seq<Entry>, t: Store)
    requires Linked(s, entries, t) && BareIn(s) && forall e :: e in entries ==> Mild(e)
    ensures BareIn(t)
    decreases |entries|
  {
    hide Mild, BareIn;
    if entries == [] {
    } else {
      var k := |entries| - 1;
      assert entries[k] in entries && forall e :: e in entries[..k] ==> e in entries;
      ChainKeepsBare(s, entries[..k], entries[k].before);
      MildKeepsBare(entries[k]);
    }
  }

  // ----- Proper entries -----

  /** Replica kinds are written counts, CronJobs flags. */
  predicate Applies(kind: string, change: Change) {
    match change
    case ToZero => Scales(kind)
    case ToCount(_) => Scales(kind)
    case ToSuspend(_) => kind == CRON_JOB
    case _ => Handled(kind)
  }

  /**
    An entry of a pass over a workload of this kind. `honest` says that a workload reported
    missing is missing; without it, nothing is said about what a released finalizer leaves.
   */
  ghost predicate Proper(e: Entry, kind: string, honest: bool) {
    match e.op
    case Outside(_) => Mild(e)
    case WriteChild => Mild(e)
    case Write(change) =>
      && e.before.workload.Some? && Applies(kind, change)
      && e.after == PutWorkload(e.before, Apply(change, e.before.workload.value))
      && (change.Refer? ==> !Has(e.before.workload.value.annotations, REFERENCE))
      && (change.ToCount? ==> SavedCount(e.before.workload.value.annotations) == Success(change.count))
    case DropFinalizer => e.after.workload == e.before.workload && (honest ==> BareIn(e.before))
    case _ => e.after.workload == e.before.workload
  }

  ghost predicate Behaves(w: World, v: World, kind: string, honest: bool) {
    && |w.log| <= |v.log| && v.log == w.log + New(w, v)
    && Linked(w.store, New(w, v), v.store)
    && (forall e :: e in New(w, v) ==> Proper(e, kind, honest))
    && (forall d :: d in v.env ==> d in w.env)
  }

  lemma BehavesJoin(u: World, v: World, w: World, kind: string, honest: bool)
    requires Behaves(u, v, kind, honest) && Behaves(v, w, kind, honest)
    ensures Behaves(u, w, kind, honest)
  {
    hide New, Proper;
    NewJoins(u, v, w);
    LinkedJoins(u.store, New(u, v), v.store, New(v, w), w.store);
  }

  lemma OthersBehave(w: World, v: World, kind: string, honest: bool)
    requires ByOthers(w, v)
    ensures Behaves(w, v, kind, honest)
    ensures BareIn(w.store) ==> BareIn(v.store)
  {
    hide BareIn, Linked;
    if BareIn(w.store) {
      ChainKeepsBare(w.store, New(w, v), v.store);
    }
  }

  lemma OneBehaves(w: World, op: Op, after: Store, kind: string, honest: bool)
    requires Proper(Entry(op, w.store, after), kind, honest)
    ensures Behaves(w, Commit(w, op, after), kind, honest)
  {
    hide Proper;
    var v, entry := Commit(w, op, after), Entry(op, w.store, after);
    assert New(w, v) == [entry];
    assert Linked(w.store, [entry], after) by {
      assert [entry][..0] == [];
      assert Linked(w.store, [], w.store);
    }
  }

  lemma NothingBehaves(w: World, kind: string, honest: bool)
    ensures Behaves(w, w, kind, honest)
  {
    OthersStay(w);
    OthersBehave(w, w, kind, honest);
  }

  // ----- A pass, walked once -----

  /** What a change needs of the workload it is about to replace, and keeps under a steady script. */
  predicate Fitting(change: Change, wl: Workload) {
    && (change.Refer? ==> !Has(wl.annotations, REFERENCE))
    && (change.ToCount? ==> SavedCount(wl.annotations) == Success(change.count))
  }

  lemma FittingStays(w: World, v: World, change: Change)
    requires ByOthers(w, v) && Steady(w.env) && w.store.workload.Some?
    ensures v.store.workload.Some?
    ensures Fitting(change, w.store.workload.value) ==> Fitting(change, v.store.workload.value)
    ensures Has(v.store.workload.value.annotations, REFERENCE) == Has(w.store.workload.value.annotations, REFERENCE)
  {
    hide Atoi, ByOthers;
    OthersKeepKidle(w, v);
    var a, b := w.store.workload.value.annotations, v.store.workload.value.annotations;
    assert Get(b, REFERENCE) == Get(a, REFERENCE) && Get(b, PREVIOUS) == Get(a, PREVIOUS);
  }

  lemma RetryBehaves(kind: string, honest: bool, w: World, local: Workload, change: Change)
    requires Applies(kind, change)
    requires change.Refer? || change.ToCount? ==>
               Steady(w.env) && w.store.workload.Some? && Fitting(change, w.store.workload.value)
    ensures var t := Retry(w, local, change, Attempts());
            && Behaves(w, t.world, kind, honest)
            && (t.outcome.Pass? ==> t.world.store.workload == Some(t.local))
            && (change.Refer? && t.outcome.Pass? ==> Has(t.local.annotations, REFERENCE))
            && (change.Strip? && t.outcome.Pass? ==> BareIn(t.world.store))
            && (Steady(w.env) && w.store.workload.Some? && !change.Strip? && t.outcome.Pass? ==>
                  Has(w.store.workload.value.annotations, REFERENCE) ==> Has(t.local.annotations, REFERENCE))
  {
    hide Retry, ByOthers, OnlyEdits, Behaves, Steady, SavedCount;
    KeysDiffer();
    var a := RetryIsAtomic(w, local, change, Attempts());
    OthersBehave(w, a, kind, honest);
    if Steady(w.env) && w.store.workload.Some? {
      FittingStays(w, a, change);
    }
    if a.store.workload.Some? {
      var after := PutWorkload(a.store, Apply(change, a.store.workload.value));
      OneBehaves(a, Write(change), after, kind, honest);
      BehavesJoin(w, a, Rewritten(a, change), kind, honest);
    }
  }

  lemma InstanceWriteBehaves(kind: string, honest: bool, w: World, name: string, inst: Instance, op: Op)
    requires op.TakeFinalizer? || op.DropFinalizer? || op.SetIdle?
    requires op.DropFinalizer? && honest ==> BareIn(w.store)
    ensures Behaves(w, UpdateInstance(w, name, inst, op).world, kind, honest)
  {
    hide ByOthers, OnlyEdits, Behaves, BareIn;
    var a, v := Arrive(w), UpdateInstance(w, name, inst, op).world;
    ArriveIsOthers(w);
    OthersBehave(w, a, kind, honest);
    if v != a {
      OneBehaves(a, op, v.store, kind, honest);
      BehavesJoin(w, a, v, kind, honest);
    }
  }

  lemma DropBehaves(kind: string, honest: bool, w: World, name: string, inst: Instance)
    requires honest ==> BareIn(w.store)
    ensures Behaves(w, RemoveFinalizer(w, name, inst).world, kind, honest)
  {
    hide Behaves, UpdateInstance;
    NothingBehaves(w, kind, honest);
    InstanceWriteBehaves(kind, honest, w, name,
      inst.(finalizers := Finalizers.Removed(inst.finalizers, Finalizers.KIDLE)), DropFinalizer);
  }

  lemma WakeupBehaves(kind: string, honest: bool, w: World, local: Workload)
    requires Handled(kind) && Steady(w.env) && w.store.workload.Some?
    requires SavedCount(local.annotations) == SavedCount(w.store.workload.value.annotations)
    ensures var t := Wakeup(kind, w, local);
            && Behaves(w, t.world, kind, honest)
            && (t.outcome.Pass? && Has(local.annotations, REFERENCE) ==>
                  Has(w.store.workload.value.annotations, REFERENCE) ==> Has(t.local.annotations, REFERENCE))
  {
    hide Behaves, Retry, SavedCount;
    NothingBehaves(w, kind, honest);
    if kind == CRON_JOB {
      RetryBehaves(kind, honest, w, local, ToSuspend(false));
    } else if SavedCount(local.annotations).Success? {
      RetryBehaves(kind, honest, w, local, ToCount(SavedCount(local.annotations).value));
    }
  }

  lemma StripAndDropBehave(kind: string, honest: bool, w: World, name: string, inst: Instance, local: Workload)
    requires Handled(kind) && Has(local.annotations, REFERENCE)
    ensures var t := RemoveAnnotations(w, local);
            && Behaves(w, t.world, kind, honest)
            && (t.outcome.Pass? ==> Behaves(w, RemoveFinalizer(t.world, name, inst).world, kind, honest))
  {
    hide Behaves, Retry, RemoveFinalizer, BareIn;
    var t := RemoveAnnotations(w, local);
    RetryBehaves(kind, honest, w, local, Strip);
    if t.outcome.Pass? {
      DropBehaves(kind, honest, t.world, name, inst);
      BehavesJoin(w, t.world, RemoveFinalizer(t.world, name, inst).world, kind, honest);
    }
  }

  /** What a current, marked copy shows. */
  predicate ShowsMark(w: World, local: Workload) {
    && w.store.workload.Some? && Has(local.annotations, REFERENCE) && Has(w.store.workload.value.annotations, REFERENCE)
    && SavedCount(local.annotations) == SavedCount(w.store.workload.value.annotations)
  }

  lemma ReleaseBehaves(honest: bool, w: World, name: string, inst: Instance, local: Workload)
    requires Handled(inst.kind) && Steady(w.env) && ShowsMark(w, local)
    ensures Behaves(w, Release(w, name, inst, local).world, inst.kind, honest)
  {
    hide Behaves, Wakeup, RemoveAnnotations, RemoveFinalizer, SavedCount;
    var woken := Wakeup(inst.kind, w, local);
    WakeupBehaves(inst.kind, honest, w, local);
    if woken.outcome.Pass? {
      var stripped := RemoveAnnotations(woken.world, woken.local);
      StripAndDropBehave(inst.kind, honest, woken.world, name, inst, woken.local);
      BehavesJoin(w, woken.world, stripped.world, inst.kind, honest);
      if stripped.outcome.Pass? {
        BehavesJoin(w, woken.world, RemoveFinalizer(stripped.world, name, inst).world, inst.kind, honest);
      }
    }
  }

  lemma MarkingBehaves(kind: string, honest: bool, w: World, local: Workload, name: string)
    requires Handled(kind) && Steady(w.env) && ShowsKidle(local, w.store)
    ensures var t := SetReference(w, local, name);
            && Behaves(w, t.world, kind, honest) && (t.outcome.Pass? ==> ShowsMark(t.world, t.local))
  {
    hide Behaves, Retry, Atoi;
    ShownAnnotations(local, w.store, REFERENCE);
    ShownAnnotations(local, w.store, PREVIOUS);
    if Has(local.annotations, REFERENCE) {
      NothingBehaves(w, kind, honest);
      assert Get(local.annotations, REFERENCE).Some?;
    } else {
      assert Get(local.annotations, REFERENCE).None?;
      RetryBehaves(kind, honest, w, local, Refer(name));
    }
  }

  lemma IdlerBehaves(honest: bool, w: World, name: string, inst: Instance, local: Workload)
    requires Handled(inst.kind) && Steady(w.env) && ShowsKidle(local, w.store)
    ensures Behaves(w, ReconcileWithIdler(w, name, inst, local).world, inst.kind, honest)
  {
    hide Retry, Wakeup, SetReference, Release, SavedCount, ShowsKidle;
    var marked, v := SetReference(w, local, name), ReconcileWithIdler(w, name, inst, local).world;
    MarkingBehaves(inst.kind, honest, w, local, name);
    if v != marked.world {
      ReleaseBehaves(honest, marked.world, name, inst, marked.local);
      WakeupBehaves(inst.kind, honest, marked.world, marked.local);
      if inst.kind == CRON_JOB {
        RetryBehaves(inst.kind, honest, marked.world, marked.local, ToSuspend(true));
      } else {
        RetryBehaves(inst.kind, honest, marked.world, marked.local, ToZero);
      }
      BehavesJoin(w, marked.world, v, inst.kind, honest);
    }
  }

  lemma PrologueBehaves(kind: string, honest: bool, w: World, name: string)
    ensures Behaves(w, Prologue(w, name).world, kind, honest)
  {
    hide Behaves, GetInstance, UpdateInstance, ReconcileCronStrategies, ByOthers, OnlyEdits;
    var got := GetInstance(w, name);
    Orphans.GetInstanceFacts(w, name);
    OthersBehave(w, got.world, kind, honest);
    if got.value.Success? {
      var inst := got.value.value;
      var marked := EnsureFinalizer(got.world, name, inst);
      InstanceWriteBehaves(kind, honest, got.world, name,
        inst.(finalizers := Finalizers.Added(inst.finalizers, Finalizers.KIDLE)), TakeFinalizer);
      NothingBehaves(got.world, kind, honest);
      BehavesJoin(w, got.world, marked.world, kind, honest);
      if marked.value.Success? {
        var v := ReconcileCronStrategies(marked.world, name, marked.value.value).world;
        ChildrenAreOthers(marked.world, name, marked.value.value);
        OthersBehave(marked.world, v, kind, honest);
        BehavesJoin(w, marked.world, v, kind, honest);
      }
    }
  }

  /** The kind of the copy a pass goes on with. */
  predicate Concerns(w: World, name: string, kind: string) {
    match Prologue(w, name)
    case Stopped(_, _) => true
    case Ready(_, inst) => inst.kind == kind
  }

  /** If the pass's first read of the workload finds nothing, nothing dirty is there. */
  predicate MissingIsBare(w: World, name: string) {
    match Prologue(w, name)
    case Stopped(_, _) => true
    case Ready(v, _) => GetWorkload(v).value == Failure(NotFound) ==> BareIn(GetWorkload(v).world.store)
  }

  /** A whole pass that starts from a current copy and sees no recreation half-way. */
  lemma PassBehaves(w: World, name: string, kind: string, honest: bool)
    requires Steady(w.env) && StartsCurrent(w, name) && Concerns(w, name, kind)
    requires honest ==> MissingIsBare(w, name)
    ensures Behaves(w, Reconcile(w, name).world, kind, honest)
  {
    hide Prologue, ReconcileWithIdler, RemoveFinalizer, Behaves, ShowsKidle, BareIn, ByOthers, OnlyEdits;
    PrologueBehaves(kind, honest, w, name);
    Orphans.PrologueAddsNoScript(w, name);
    match Prologue(w, name)
    case Stopped(_, _) =>
    case Ready(v, inst) =>
      if Handled(kind) {
        var got, end := GetWorkload(v), Reconcile(w, name).world;
        GetWorkloadFacts(v);
        OthersBehave(v, got.world, kind, honest);
        OthersAddOnly(v, got.world);
        BehavesJoin(w, v, got.world, kind, honest);
        if got.value.Success? {
          IdlerBehaves(honest, got.world, name, inst, got.value.value);
          BehavesJoin(w, got.world, end, kind, honest);
        } else if end != got.world {
          DropBehaves(kind, honest, got.world, name, inst);
          BehavesJoin(w, got.world, end, kind, honest);
        }
      }
  }

  lemma OthersAddOnly(w: World, v: World)
    requires ByOthers(w, v)
    ensures forall d :: d in v.env ==> d in w.env
  {
  }

  /** A flag flip, likewise, whatever it is served. */
  lemma KidlectlBehaves(w: World, target: string, idle: bool, kind: string, honest: bool)
    ensures Behaves(w, ApplyDesiredIdleState(w, target, idle).world, kind, honest)
  {
    hide Behaves, GetInstance, UpdateInstance, ByOthers, OnlyEdits;
    var got, v := GetInstance(w, target), ApplyDesiredIdleState(w, target, idle).world;
    Orphans.GetInstanceFacts(w, target);
    OthersBehave(w, got.world, kind, honest);
    if v != got.world {
      InstanceWriteBehaves(kind, honest, got.world, target, got.value.value.(idle := idle), SetIdle(idle));
      BehavesJoin(w, got.world, v, kind, honest);
    }
  }
}
