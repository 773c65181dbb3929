/**
  What triggers the operator: the update filter, the mapping from a workload to its instance,
  and how both fit what the idlers write in `expected-state`.
 */
module Filter {
  import opened Wrappers
  import opened Decimal
  import opened Annotations
  import opened Cluster
  import opened Idling
  import opened Reconciling
  import opened Frames
  import opened Conduct
  import FirstPass
  import Settling
  import Transitions

  /** An object of an update event; the filter tells types apart by a type assertion. */
  datatype Watched =
    | Deployment(workload: Workload)
    | StatefulSet(workload: Workload)
    | CronJob(workload: Workload)
    | Other

  datatype Request = Request(namespace: string, name: string)

  /** Does the new replica count differ from what was expected of it? */
  predicate Drifted(before: Workload, after: Workload, state: string) {
    && Has(before.annotations, REFERENCE)
    && Has(after.annotations, EXPECTED)
    && Get(after.annotations, EXPECTED) != Some(state)
  }

  /** Types are tried in turn; anything else, or a mixed pair, passes. */
  predicate Update(before: Watched, after: Watched) {
    if before.Deployment? && after.Deployment? then
      Drifted(before.workload, after.workload, Itoa(after.workload.replicas))
    else if before.StatefulSet? && after.StatefulSet? then
      Drifted(before.workload, after.workload, Itoa(after.workload.replicas))
    else if before.CronJob? && after.CronJob? then
      Drifted(before.workload, after.workload, FormatBool(after.workload.suspend))
    else true
  }

  /** The one request for the referenced instance, in the workload's own namespace. */
  function Requests(namespace: string, wl: Workload): seq<Request> {
    match Get(wl.annotations, REFERENCE)
    case None => []
    case Some(ref) => [Request(namespace, ref)]
  }

  function Typed(kind: string, wl: Workload): Watched {
    if kind == DEPLOYMENT then Deployment(wl)
    else if kind == STATEFUL_SET then StatefulSet(wl)
    else if kind == CRON_JOB then CronJob(wl)
    else Other
  }

  predicate Passes(kind: string, before: Workload, after: Workload) {
    Update(Typed(kind, before), Typed(kind, after))
  }

  // ----- What the filter lets through -----

  predicate SameType(before: Watched, after: Watched) {
    || (before.Deployment? && after.Deployment?)
    || (before.StatefulSet? && after.StatefulSet?)
    || (before.CronJob? && after.CronJob?)
  }

  /** The state of a typed object, in the words of its `expected-state`. */
  function StateOf(seen: Watched): string
    requires !seen.Other?
  {
    match seen
    case Deployment(wl) => Itoa(wl.replicas)
    case StatefulSet(wl) => Itoa(wl.replicas)
    case CronJob(wl) => FormatBool(wl.suspend)
  }

  /**
    All sixteen pairs of types: an update of a workload passes exactly when it had a reference
    and departs from what is expected of it, and every other update passes.
   */
  lemma UpdatePassesIff(before: Watched, after: Watched)
    ensures !SameType(before, after) ==> Update(before, after)
    ensures SameType(before, after) ==>
              (Update(before, after) <==>
               && Has(before.workload.annotations, REFERENCE)
               && exists text :: Get(after.workload.annotations, EXPECTED) == Some(text) && text != StateOf(after))
  {
    hide Itoa;
    if SameType(before, after) && Has(after.workload.annotations, EXPECTED) {
      assert Get(after.workload.annotations, EXPECTED) == Some(View(after.workload.annotations)[EXPECTED]);
    }
  }

  /** An instance, as the filter sees it: none of the three types. */
  function Seen(inst: Instance): Watched {
    Other
  }

  /** This entry gives an update event for the instance, and the filter lets it through. */
  predicate Triggers(e: Entry, target: string) {
    && target in e.before.instances && target in e.after.instances
    && e.after.instances[target].version != e.before.instances[target].version
    && Update(Seen(e.before.instances[target]), Seen(e.after.instances[target]))
  }

  /**
    Every flip of a flag, and every deletion that does not remove its instance at once, reaches
    the operator: the instance gets a new version, and that update passes.
   */
  lemma FlipsAndDeletionsTrigger(e: Entry, name: string)
    requires Transitions.Lawful(e, name)
    ensures e.op.SetIdle? ==>
              exists target :: target in e.before.instances && e.before.instances[target].idle != e.op.flag
                && (target in e.after.instances ==> e.after.instances[target].idle == e.op.flag && Triggers(e, target))
    ensures e.op.Outside? && e.op.edit.DeleteInstance? && e.op.edit.name in e.before.instances ==>
              e.op.edit.name in e.after.instances ==>
                e.after.instances[e.op.edit.name].deleting && Triggers(e, e.op.edit.name)
  {
  }

  /** A workload without reference asks for nothing; one with a reference for exactly its instance. */
  lemma RequestsIff(namespace: string, wl: Workload)
    ensures Requests(namespace, wl) == [] <==> !Has(wl.annotations, REFERENCE)
    ensures forall r :: r in Requests(namespace, wl) <==>
              r.namespace == namespace && Get(wl.annotations, REFERENCE) == Some(r.name)
  {
    if Has(wl.annotations, REFERENCE) {
      var only := Request(namespace, View(wl.annotations)[REFERENCE]);
      assert Requests(namespace, wl) == [only];
    }
  }

  /**
    Kidle's own CronJobs are watched too, but they carry no reference: whatever is done to one
    of them, its update is filtered out.
   */
  lemma OwnCronJobsAreNotSeen(before: Workload, after: Workload)
    requires !Has(before.annotations, REFERENCE)
    ensures !Update(CronJob(before), CronJob(after))
  {
  }

  // ----- The controller does not wake itself -----

  /** What a change leaves in `expected-state`, letter by letter: the state it sets. */
  lemma ExpectedSpellsState(change: Change, wl: Workload)
    ensures change.ToZero? ==> Get(Apply(change, wl).annotations, EXPECTED) == Some("0")
    ensures change.ToCount? ==> Get(Apply(change, wl).annotations, EXPECTED) == Some(Itoa(change.count))
    ensures change.ToSuspend? ==>
              Get(Apply(change, wl).annotations, EXPECTED) == Some(if change.on then "true" else "false")
  {
  }

  /**
    Which of the controller's own writes its filter lets through: only setting a reference
    again on a workload that already has one and has drifted.
   */
  lemma OwnWritePassesIff(kind: string, change: Change, wl: Workload)
    requires Applies(kind, change)
    ensures Passes(kind, wl, Apply(change, wl)) <==> change.Refer? && Passes(kind, wl, wl)
  {
    KeysDiffer();
    assert Itoa(0) == "0";
  }

  /** Every workload write logged after `from` is one the filter rejects. */
  ghost predicate Silent(kind: string, from: nat, w: World) {
    forall k :: from <= k < |w.log| && w.log[k].op.Write? ==>
      && w.log[k].before.workload.Some? && w.log[k].after.workload.Some?
      && !Passes(kind, w.log[k].before.workload.value, w.log[k].after.workload.value)
  }

  lemma ProperIsSilent(kind: string, e: Entry)
    requires Proper(e, kind, false) && e.op.Write?
    ensures e.after.workload.Some?
    ensures !Passes(kind, e.before.workload.value, e.after.workload.value)
  {
    hide Passes, Apply;
    var wl := e.before.workload.value;
    var next := Apply(e.op.change, wl);
    OwnWritePassesIff(kind, e.op.change, wl);
    PassesIgnoresVersions(kind, wl, next, e.before.revision + 1);
    if e.op.change.Refer? {
      UnmarkedIsQuiet(kind, wl);
    }
  }

  lemma UnmarkedIsQuiet(kind: string, wl: Workload)
    requires Handled(kind) && !Has(wl.annotations, REFERENCE)
    ensures !Passes(kind, wl, wl)
  {
  }

  lemma PassesIgnoresVersions(kind: string, before: Workload, after: Workload, version: nat)
    ensures Passes(kind, before, after.(version := version)) == Passes(kind, before, after)
  {
  }

  /**
    No pass that starts from a current copy and sees no recreation half-way commits a workload
    write that its own filter would turn into another pass, from any state, hand-edited counts
    that wrap around 32 bits included. The kind is that of the copy the pass goes on with.
   */
  lemma NoSelfTriggering(w: World, name: string, kind: string)
    requires Steady(w.env) && StartsCurrent(w, name) && Concerns(w, name, kind)
    ensures Silent(kind, |w.log|, Reconcile(w, name).world)
  {
    hide Reconcile, Prologue, Passes, Proper, StartsCurrent, Concerns, Linked;
    var v := Reconcile(w, name).world;
    PassBehaves(w, name, kind, false);
    forall k | |w.log| <= k < |v.log| && v.log[k].op.Write?
      ensures v.log[k].before.workload.Some? && v.log[k].after.workload.Some?
      ensures !Passes(kind, v.log[k].before.workload.value, v.log[k].after.workload.value)
    {
      assert v.log[k] in New(w, v);
      ProperWrites(kind, v.log[k]);
      ProperIsSilent(kind, v.log[k]);
    }
  }

  lemma ProperWrites(kind: string, e: Entry)
    requires Proper(e, kind, false) && e.op.Write?
    ensures e.before.workload.Some?
  {
  }

  /** The same, with a condition on the script alone. */
  lemma NoSelfTriggeringByScript(w: World, name: string, kind: string)
    requires CurrentWorkloads(w.env) && Concerns(w, name, kind)
    ensures Silent(kind, |w.log|, Reconcile(w, name).world)
  {
    hide Silent, Reconcile, Concerns;
    CurrentWorkloadsStart(w, name);
    NoSelfTriggering(w, name, kind);
  }

  /** Nine calls, and then an old copy of the workload. */
  function OldWorkload(copy: Workload): seq<Disturbance> {
    FirstPass.Calls(9) + [Disturbance([], StaleWorkload(copy))]
  }

  lemma OldCopyServed(p: World, copy: Workload)
    requires p.env == [Disturbance([], StaleWorkload(copy))] && Snapshot(copy, p.store)
    ensures GetWorkload(p) == Reply(p.(env := []), Success(copy))
  {
    assert p.env[1..] == [];
    assert EditAll(p.(env := []), []) == p.(env := []);
  }

  /** Marking from a copy without the reference, undisturbed, and what comes after it. */
  lemma MarkedThenGoesOn(v: World, name: string, inst: Instance, copy: Workload)
    requires v.env == [] && v.store.workload.Some? && !Has(copy.annotations, REFERENCE)
    requires Handled(inst.kind) && name in v.store.instances && inst == v.store.instances[name]
    ensures var marked := Rewritten(v, Refer(name));
            && SetReference(v, copy, name) == Try(marked, marked.store.workload.value, Pass)
            && marked.log <= ReconcileWithIdler(v, name, inst, copy).world.log
  {
    hide Retry, Release, Wakeup, Idle, Transitions.Lawful, Linked;
    var marked := Rewritten(v, Refer(name));
    var local := marked.store.workload.value;
    Settling.QuietRetry(v, copy, Refer(name));
    assert SetReference(v, copy, name) == Try(marked, local, Pass);
    assert SetReference(marked, local, name) == Try(marked, local, Pass);
    assert ReconcileWithIdler(v, name, inst, copy) == ReconcileWithIdler(marked, name, inst, local);
    Transitions.IdlerSteps(marked, name, inst, local);
  }

  /**
    The one way the operator triggers itself, as a whole pass: served an old copy from before
    the reference was set, it sets the reference again over a workload that has drifted, and
    its filter passes that write.
   */
  lemma OldCopyTriggers(w: World, name: string, copy: Workload)
    requires FirstPass.Fresh(w.store, name) && Handled(w.store.instances[name].kind)
    requires w.store.workload.Some? && Snapshot(copy, w.store) && !Has(copy.annotations, REFERENCE)
    requires Passes(w.store.instances[name].kind, w.store.workload.value, w.store.workload.value)
    ensures !Silent(w.store.instances[name].kind, |w.log|, Reconcile(w.(env := OldWorkload(copy)), name).world)
  {
    hide Prologue, FirstPass.Calls, ReconcileWithIdler, GetWorkload, Passes, Apply, Transitions.Lawful, Linked,
      InstanceSnapshot;
    var u, inst, wl := w.(env := OldWorkload(copy)), w.store.instances[name], w.store.workload.value;
    FirstPass.NineCalls(u, name, [Disturbance([], StaleWorkload(copy))]);
    Transitions.PrologueSteps(u, name);
    var p := Prologue(u, name).world;
    OldCopyServed(p, copy);
    var v := p.(env := []);
    MarkedThenGoesOn(v, name, inst, copy);
    OwnWritePassesIff(inst.kind, Refer(name), wl);
    PassesIgnoresVersions(inst.kind, wl, Apply(Refer(name), wl), v.store.revision + 1);
    var marked, end := Rewritten(v, Refer(name)), Reconcile(u, name).world;
    assert end == ReconcileWithIdler(v, name, inst, copy).world;
    assert end.log[|v.log|] == marked.log[|v.log|] == Entry(Write(Refer(name)), v.store, marked.store);
  }

  // ----- Drift is corrected -----

  /** The store after somebody edited the workload without touching kidle's annotations. */
  lemma EditedWorkload(s: Store, e: Edit)
    requires s.workload.Some? && e.EditWorkload?
    ensures var t := ApplyEdit(s, e);
            && t.workload.Some? && t.workload.value.replicas == e.replicas && t.workload.value.suspend == e.suspend
            && t.instances == s.instances && t.children == s.children
            && forall key :: IsKidleKey(key) ==>
                 Get(t.workload.value.annotations, key) == Get(s.workload.value.annotations, key)
  {
  }

  /** How `expected-state` is spelled for a kind. */
  function Expectation(kind: string, count: int32, suspend: bool): string {
    if kind == CRON_JOB then FormatBool(suspend) else Itoa(count)
  }

  /**
    Once a workload refers to its instance and a state is expected of it, an outside edit
    triggers the operator exactly when it sets another state, and the one request names that
    instance in the workload's namespace.
   */
  lemma DriftTriggers(kind: string, s: Store, name: string, namespace: string, count: int32, suspend: bool, e: Edit)
    requires Handled(kind) && s.workload.Some? && e.EditWorkload?
    requires Get(s.workload.value.annotations, REFERENCE) == Some(name)
    requires Get(s.workload.value.annotations, EXPECTED) == Some(Expectation(kind, count, suspend))
    ensures var t := ApplyEdit(s, e);
            && t.workload.Some?
            && (Passes(kind, s.workload.value, t.workload.value) <==>
                if kind == CRON_JOB then e.suspend != suspend else e.replicas != count)
            && Requests(namespace, t.workload.value) == [Request(namespace, name)]
  {
    hide Itoa;
    EditedWorkload(s, e);
    ItoaInjective(e.replicas, count);
    assert |FormatBool(true)| != |FormatBool(false)|;
  }

  /** The pass such an edit causes brings positive replicas back to zero. */
  lemma DriftIsCorrected(w: World, name: string, e: Edit)
    requires w.env == [] && Settling.Workable(w.store, name) && !w.store.instances[name].deleting
    requires w.store.instances[name].idle && Scales(w.store.instances[name].kind)
    requires w.store.workload.Some? && e.EditWorkload? && e.replicas > 0
    ensures var v := Reconcile(Commit(w, Outside(e), ApplyEdit(w.store, e)), name);
            && v.end == Finished && v.world.store.workload.Some?
            && v.world.store.workload.value.replicas == 0
            && SavedCount(v.world.store.workload.value.annotations) == Success(e.replicas)
  {
    var u := Commit(w, Outside(e), ApplyEdit(w.store, e));
    EditedWorkload(w.store, e);
    Settling.QuietPass(u, name);
    var kind, wl := w.store.instances[name].kind, u.store.workload.value;
    IdledCount(kind, name, Settling.Plain(wl));
    var after := Reconcile(u, name).world.store.workload.value;
    assert after.annotations == Settling.Plain(after).annotations;
  }

  lemma IdledCount(kind: string, name: string, wl: Workload)
    requires Scales(kind) && wl.replicas > 0
    ensures var after := Settling.Settle(kind, true, name, wl);
            after.replicas == 0 && SavedCount(after.annotations) == Success(wl.replicas)
  {
    KeysDiffer();
    AtoiItoa(wl.replicas);
    Wrap32Congruent(wl.replicas);
  }
}
