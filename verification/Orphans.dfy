/**
  No orphan: a workload that carries Kidle's reference or saved count has its instance in the
  store, with the finalizer held. The finalizer is committed before any workload write and
  given up only after these two are gone. What becomes of `expected-state` is in Bareness.dfy.
 */
module Orphans {
  import opened Wrappers
  import opened Annotations
  import opened Cluster
  import opened Idling
  import opened Owned
  import opened Reconciling
  import opened Frames
  import Finalizers

  predicate Carries(wl: Workload) {
    Has(wl.annotations, REFERENCE) || Has(wl.annotations, PREVIOUS)
  }

  predicate Clean(s: Store) {
    s.workload.Some? ==> !Carries(s.workload.value)
  }

  /** The reference, when there is one, names the instance that holds the finalizer. */
  predicate Safe(s: Store, name: string) {
    s.workload.Some? && Carries(s.workload.value) ==>
      && Held(s, name)
      && (Has(s.workload.value.annotations, REFERENCE) ==> Get(s.workload.value.annotations, REFERENCE) == Some(name))
  }

  /** Safe now, and after every change ever committed. */
  ghost predicate AlwaysSafe(w: World, name: string) {
    && Safe(w.store, name)
    && forall e :: e in w.log ==> Safe(e.after, name)
  }

  // ----- Others cannot orphan a workload -----

  lemma MildKeepsSafe(e: Entry, name: string)
    requires Mild(e) && Safe(e.before, name)
    ensures Safe(e.after, name)
    ensures Held(e.before, name) ==> Held(e.after, name)
    ensures Clean(e.before) ==> Clean(e.after)
  {
    KeysDiffer();
    if e.op.Outside? && e.op.edit.EditInstance? {
      forall x {
        Finalizers.RemovedMembers(e.op.edit.finalizers, Finalizers.KIDLE, x);
      }
    }
  }

  lemma {:induction false} ChainKeepsSafe(s: Store, entries: seq<Entry>, t: Store, name: string)
    requires Linked(s, entries, t) && Safe(s, name)
    requires forall e :: e in entries ==> Mild(e)
    ensures Safe(t, name) && forall e :: e in entries ==> Safe(e.after, name)
    ensures Held(s, name) ==> Held(t, name)
    ensures Clean(s) ==> Clean(t)
    decreases |entries|
  {
    if entries == [] {
    } else {
      var k := |entries| - 1;
      assert entries == entries[..k] + [entries[k]];
      ChainKeepsSafe(s, entries[..k], entries[k].before, name);
      MildKeepsSafe(entries[k], name);
    }
  }

  lemma OthersKeepSafe(w: World, v: World, name: string)
    requires ByOthers(w, v) && AlwaysSafe(w, name)
    ensures AlwaysSafe(v, name)
    ensures Held(w.store, name) ==> Held(v.store, name)
    ensures Clean(w.store) ==> Clean(v.store)
  {
    ChainKeepsSafe(w.store, New(w, v), v.store, name);
  }

  // ----- Neither can the controller, while it holds the finalizer -----

  lemma RewriteKeepsSafe(a: World, change: Change, name: string)
    requires a.store.workload.Some? && AlwaysSafe(a, name) && Held(a.store, name)
    requires change.Refer? ==> change.name == name
    ensures AlwaysSafe(Rewritten(a, change), name) && Held(Rewritten(a, change).store, name)
    ensures change.Strip? ==> Clean(Rewritten(a, change).store) && Bare(Rewritten(a, change).store.workload.value)
  {
    KeysDiffer();
  }

  lemma RetryKeepsSafe(w: World, local: Workload, change: Change, name: string)
    requires AlwaysSafe(w, name) && Held(w.store, name)
    requires change.Refer? ==> change.name == name
    ensures var t := Retry(w, local, change, Attempts());
            && AlwaysSafe(t.world, name) && Held(t.world.store, name)
            && (t.outcome.Pass? ==> Some(t.local) == t.world.store.workload)
            && (t.outcome.Pass? && change.Strip? ==> Clean(t.world.store) && Bare(t.local))
  {
    var a := RetryIsAtomic(w, local, change, Attempts());
    OthersKeepSafe(w, a, name);
    if a.store.workload.Some? {
      RewriteKeepsSafe(a, change, name);
    }
  }

  lemma SetReferenceMarks(w: World, local: Workload, name: string)
    ensures var t := SetReference(w, local, name);
            t.outcome.Pass? ==> Has(t.local.annotations, REFERENCE)
  {
    if !Has(local.annotations, REFERENCE) {
      var a := RetryIsAtomic(w, local, Refer(name), Attempts());
    }
  }

  lemma WakeupKeepsSafe(kind: string, w: World, local: Workload, name: string)
    requires AlwaysSafe(w, name) && Held(w.store, name)
    ensures var t := Wakeup(kind, w, local);
            && AlwaysSafe(t.world, name) && Held(t.world.store, name)
            && (t.outcome.Pass? ==> t.local == local || Some(t.local) == t.world.store.workload)
            && (t.outcome.Pass? && Scales(kind) ==> Some(t.local) == t.world.store.workload)
  {
    if kind == CRON_JOB {
      RetryKeepsSafe(w, local, ToSuspend(false), name);
    } else if SavedCount(local.annotations).Success? {
      RetryKeepsSafe(w, local, ToCount(SavedCount(local.annotations).value), name);
    }
  }

  lemma IdleKeepsSafe(kind: string, w: World, local: Workload, name: string)
    requires AlwaysSafe(w, name) && Held(w.store, name)
    ensures AlwaysSafe(Idle(kind, w, local).world, name)
  {
    RetryKeepsSafe(w, local, ToSuspend(true), name);
    RetryKeepsSafe(w, local, ToZero, name);
  }

  lemma RemoveFinalizerKeepsSafe(w: World, name: string, inst: Instance)
    requires AlwaysSafe(w, name) && Clean(w.store)
    ensures AlwaysSafe(RemoveFinalizer(w, name, inst).world, name)
  {
    ArriveIsOthers(w);
    OthersKeepSafe(w, Arrive(w), name);
  }

  /**
    Stripping comes before releasing: a passing strip leaves neither reference nor saved count,
    and from a copy that carries one of them it leaves no annotation of Kidle's at all.
   */
  lemma StripThenRelease(w: World, local: Workload, name: string)
    requires AlwaysSafe(w, name) && Held(w.store, name)
    requires Has(local.annotations, REFERENCE) || Some(local) == w.store.workload
    ensures var t := RemoveAnnotations(w, local);
            && AlwaysSafe(t.world, name)
            && (t.outcome.Pass? ==> Clean(t.world.store))
            && (t.outcome.Pass? && Carries(local) ==> Some(t.local) == t.world.store.workload && Bare(t.local))
  {
    RetryKeepsSafe(w, local, Strip, name);
  }

  lemma ReleaseKeepsSafe(w: World, name: string, inst: Instance, local: Workload)
    requires AlwaysSafe(w, name) && Held(w.store, name) && Has(local.annotations, REFERENCE)
    ensures AlwaysSafe(Release(w, name, inst, local).world, name)
  {
    var woken := Wakeup(inst.kind, w, local);
    WakeupKeepsSafe(inst.kind, w, local, name);
    if woken.outcome.Pass? {
      var stripped := RemoveAnnotations(woken.world, woken.local);
      StripThenRelease(woken.world, woken.local, name);
      if stripped.outcome.Pass? {
        RemoveFinalizerKeepsSafe(stripped.world, name, inst);
      }
    }
  }

  lemma IdlerKeepsSafe(w: World, name: string, inst: Instance, local: Workload)
    requires AlwaysSafe(w, name) && Held(w.store, name)
    ensures AlwaysSafe(ReconcileWithIdler(w, name, inst, local).world, name)
  {
    var marked := SetReference(w, local, name);
    SetReferenceMarks(w, local, name);
    RetryKeepsSafe(w, local, Refer(name), name);
    if marked.outcome.Pass? {
      ReleaseKeepsSafe(marked.world, name, inst, marked.local);
      WakeupKeepsSafe(inst.kind, marked.world, marked.local, name);
      IdleKeepsSafe(inst.kind, marked.world, marked.local, name);
    }
  }

  // ----- A pass -----

  /** A read that says the workload is gone, to an instance about to be released, is not premature. */
  predicate MissingIsClean(w: World, inst: Instance) {
    var got := GetWorkload(w);
    inst.deleting && got.value == Failure(NotFound) ==> Clean(got.world.store)
  }

  /** The two reads safety rests on: the instance's finalizer, and the workload's absence. */
  predicate ReadsSafe(w: World, name: string) {
    var got := GetInstance(w, name);
    && (got.value.Success? && Holds(got.value.value) ==> Held(got.world.store, name))
    && match Prologue(w, name)
       case Stopped(_, _) => true
       case Ready(v, inst) => Handled(inst.kind) ==> MissingIsClean(v, inst)
  }

  lemma GetInstanceFacts(w: World, name: string)
    ensures var got := GetInstance(w, name);
            && ByOthers(w, got.world) && OnlyEdits(w, got.world)
            && (got.value.Success? ==> InstanceSnapshot(got.value.value, got.world.store, name))
            && (Alone(w.env) ==> got.world.store == w.store && got.world.log == w.log)
            && (Alone(w.env) && got.value.Success? ==>
                  name in w.store.instances && w.store.instances[name] == got.value.value)
            && (w.env == [] ==> got == CurrentInstance(w, name))
  {
    hide EditAll, Linked, Mild, New;
    ArriveIsOthers(w);
    if w.env != [] {
      assert w.env[0] in w.env;
    }
  }

  lemma EnsureFinalizerHolds(w: World, name: string, inst: Instance)
    requires AlwaysSafe(w, name)
    requires Holds(inst) ==> Held(w.store, name)
    ensures var r := EnsureFinalizer(w, name, inst);
            && AlwaysSafe(r.world, name)
            && (r.value.Success? ==> Held(r.world.store, name))
  {
    ArriveIsOthers(w);
    OthersKeepSafe(w, Arrive(w), name);
  }

  lemma PrologueKeepsSafe(w: World, name: string)
    requires AlwaysSafe(w, name) && ReadsSafe(w, name)
    ensures AlwaysSafe(Prologue(w, name).world, name)
    ensures Prologue(w, name).Ready? ==> Held(Prologue(w, name).world.store, name)
  {
    var got := GetInstance(w, name);
    GetInstanceFacts(w, name);
    OthersKeepSafe(w, got.world, name);
    if got.value.Success? {
      var marked := EnsureFinalizer(got.world, name, got.value.value);
      EnsureFinalizerHolds(got.world, name, got.value.value);
      if marked.value.Success? {
        ChildrenAreOthers(marked.world, name, marked.value.value);
        OthersKeepSafe(marked.world, ReconcileCronStrategies(marked.world, name, marked.value.value).world, name);
      }
    }
  }

  lemma ProceedKeepsSafe(w: World, name: string, inst: Instance)
    requires AlwaysSafe(w, name) && Held(w.store, name)
    requires Handled(inst.kind) ==> MissingIsClean(w, inst)
    ensures AlwaysSafe(Proceed(w, name, inst).world, name)
  {
    if Handled(inst.kind) {
      var got := GetWorkload(w);
      GetWorkloadFacts(w);
      OthersKeepSafe(w, got.world, name);
      if got.value.Success? {
        IdlerKeepsSafe(got.world, name, inst, got.value.value);
      } else if got.value == Failure(NotFound) && inst.deleting {
        RemoveFinalizerKeepsSafe(got.world, name, inst);
      }
    }
  }

  lemma PassKeepsSafe(w: World, name: string)
    requires AlwaysSafe(w, name) && ReadsSafe(w, name)
    ensures AlwaysSafe(Reconcile(w, name).world, name)
  {
    PrologueKeepsSafe(w, name);
    match Prologue(w, name)
    case Stopped(_, _) =>
    case Ready(v, inst) => ProceedKeepsSafe(v, name, inst);
  }

  /** A flag is written only over the version it was read from, so no finalizer is lost. */
  lemma KidlectlKeepsSafe(w: World, target: string, idle: bool, name: string)
    requires AlwaysSafe(w, name)
    ensures AlwaysSafe(ApplyDesiredIdleState(w, target, idle).world, name)
  {
    hide GetInstance, ByOthers;
    var got := GetInstance(w, target);
    GetInstanceFacts(w, target);
    OthersKeepSafe(w, got.world, name);
    if got.value.Success? && got.value.value.idle != idle {
      var a := Arrive(got.world);
      ArriveIsOthers(got.world);
      OthersKeepSafe(got.world, a, name);
      OthersKeepInstanceSnapshot(got.world, a, got.value.value, target);
    }
  }

  // ----- All runs -----

  ghost predicate RunReadsSafe(w: World, name: string, events: seq<Event>)
    decreases |events|
  {
    events != [] ==>
      && (events[0].Reconciled? ==> ReadsSafe(w.(env := events[0].env), name))
      && RunReadsSafe(Step(w, name, events[0]), name, events[1..])
  }

  /**
    In every state of every run, with failures at any call, outside edits, deletion and
    recreation at any point and stale workload reads, no workload is orphaned.
   */
  lemma {:induction false} NoOrphan(w: World, name: string, events: seq<Event>)
    requires AlwaysSafe(w, name) && RunReadsSafe(w, name, events)
    ensures AlwaysSafe(Run(w, name, events), name)
    decreases |events|
  {
    if events == [] {
    } else {
      match events[0] {
        case External(edit) =>
          MildKeepsSafe(Entry(Outside(edit), w.store, ApplyEdit(w.store, edit)), name);
        case Reconciled(env) =>
          PassKeepsSafe(w.(env := env), name);
        case Kidlectl(target, idle, env) =>
          KidlectlKeepsSafe(w.(env := env), target, idle, name);
      }
      NoOrphan(Step(w, name, events[0]), name, events[1..]);
    }
  }

  // ----- Conditions on scripts alone -----

  ghost predicate NeverMissing(env: seq<Disturbance>) {
    forall d :: d in env ==> !d.verdict.StaleMissing?
  }

  /** Instances are read current, and nothing that exists is reported missing. */
  ghost predicate HonestReads(env: seq<Disturbance>) {
    NeverMissing(env) && forall d :: d in env ==> !d.verdict.StaleInstance?
  }

  lemma HonestReadsAreSafe(w: World, name: string)
    requires HonestReads(w.env)
    ensures ReadsSafe(w, name)
  {
    hide ReconcileCronStrategies, EnsureFinalizer;
    assert w.env != [] ==> w.env[0] in w.env;
    PrologueAddsNoScript(w, name);
    match Prologue(w, name)
    case Stopped(_, _) =>
    case Ready(v, inst) =>
      assert v.env != [] ==> v.env[0] in v.env;
  }

  lemma PrologueAddsNoScript(w: World, name: string)
    ensures forall d :: d in Prologue(w, name).world.env ==> d in w.env
  {
    hide GetInstance, UpdateInstance, ReconcileCronStrategies;
    var got := GetInstance(w, name);
    GetInstanceFacts(w, name);
    if got.value.Success? {
      var inst := got.value.value;
      var marked := EnsureFinalizer(got.world, name, inst);
      UpdateAddsNoScript(got.world, name,
        inst.(finalizers := Finalizers.Added(inst.finalizers, Finalizers.KIDLE)), TakeFinalizer);
      if marked.value.Success? {
        ChildrenAreOthers(marked.world, name, marked.value.value);
      }
    }
  }

  lemma UpdateAddsNoScript(w: World, name: string, inst: Instance, op: Op)
    ensures forall d :: d in UpdateInstance(w, name, inst, op).world.env ==> d in w.env
  {
    ArriveIsOthers(w);
  }

  /**
    No orphan, with a condition one can check before the run: in no pass is an old copy of the
    instance served, or something that exists reported missing. Failures and lost answers at
    any call, stale workload reads, edits, deletion and recreation at any point are allowed,
    and `kidlectl` may be served anything.
   */
  lemma NoOrphanByScript(w: World, name: string, events: seq<Event>)
    requires AlwaysSafe(w, name)
    requires forall k :: 0 <= k < |events| && events[k].Reconciled? ==> HonestReads(events[k].env)
    ensures AlwaysSafe(Run(w, name, events), name)
  {
    HonestRunsAreSafe(w, name, events);
    NoOrphan(w, name, events);
  }

  lemma {:induction false} HonestRunsAreSafe(w: World, name: string, events: seq<Event>)
    requires forall k :: 0 <= k < |events| && events[k].Reconciled? ==> HonestReads(events[k].env)
    ensures RunReadsSafe(w, name, events)
    decreases |events|
  {
    hide ReadsSafe, Step;
    if events == [] {
    } else {
      if events[0].Reconciled? {
        HonestReadsAreSafe(w.(env := events[0].env), name);
      }
      HonestRunsAreSafe(Step(w, name, events[0]), name, events[1..]);
    }
  }

  // ----- The conditions are exact -----

  /** Recreate the workload, serve the two reads, lose the answer to the first write. */
  function OrphanScript(): seq<Disturbance> {
    [Disturbance([CreateWorkload(map[], 1, false, "")], Served), Disturbance([], Served), Disturbance([], Lost)]
  }

  lemma UnheldOrphans(w: World, name: string, inst: Instance)
    requires AlwaysSafe(w, name) && Handled(inst.kind) && !Held(w.store, name)
    ensures !Safe(Proceed(w.(env := OrphanScript()), name, inst).world.store, name)
  {
    var s := OrphanScript();
    var v := w.(env := s);
    var got := GetWorkload(v);
    var e := s[0].edits[0];
    assert EditAll(v.(env := s[1..]), [e]) == Commit(v.(env := s[1..]), Outside(e), ApplyEdit(v.store, e)) by {
      assert [e][1..] == [];
    }
    MildKeepsSafe(Entry(Outside(e), w.store, ApplyEdit(w.store, e)), name);
    assert got.value == Success(got.world.store.workload.value);
    var local := got.value.value;
    assert !Carries(local);
    assert s[1..][1..] == [s[2]];
    var first := Attempt(got.world, local, Refer(name));
    assert first.outcome == Fail(Unavailable);
    assert Has(first.world.store.workload.value.annotations, REFERENCE);
    assert first.world.store.instances == w.store.instances;
  }

  /**
    Exactly when a pass may go on with an instance copy, current or stale: no script can
    orphan the workload if and only if the store still holds the finalizer at that point.
   */
  lemma SafeToProceedIff(w: World, name: string, inst: Instance)
    requires AlwaysSafe(w, name) && Handled(inst.kind)
    ensures (forall env :: NeverMissing(env) ==> AlwaysSafe(Proceed(w.(env := env), name, inst).world, name)) <==>
            Held(w.store, name)
  {
    if Held(w.store, name) {
      forall env | NeverMissing(env)
        ensures AlwaysSafe(Proceed(w.(env := env), name, inst).world, name)
      {
        var v := w.(env := env);
        assert env != [] ==> env[0] in env;
        ProceedKeepsSafe(v, name, inst);
      }
    } else {
      UnheldOrphans(w, name, inst);
      assert NeverMissing(OrphanScript());
    }
  }

  /**
    Exactly when an answer that the workload is gone may release the finalizer of the
    current, deleted instance: when the workload in the store carries nothing.
   */
  lemma SafeToReleaseIff(w: World, name: string, inst: Instance)
    requires AlwaysSafe(w, name) && Held(w.store, name)
    requires inst == w.store.instances[name] && inst.deleting
    ensures (forall env :: AlwaysSafe(ResourceNotFound(w.(env := env), name, inst).world, name)) <==> Clean(w.store)
  {
    if Clean(w.store) {
      forall env
        ensures AlwaysSafe(ResourceNotFound(w.(env := env), name, inst).world, name)
      {
        RemoveFinalizerKeepsSafe(w.(env := env), name, inst);
      }
    } else {
      var v := w.(env := []);
      forall x {
        Finalizers.RemovedMembers(inst.finalizers, Finalizers.KIDLE, x);
      }
      assert !Held(RemoveFinalizer(v, name, inst).world.store, name);
      assert !AlwaysSafe(ResourceNotFound(v, name, inst).world, name);
    }
  }
}
