/**
  Undisturbed passes: what one makes of the workload, when it converges, and when the next
  one has nothing left to do.
 */
module Settling {
  import opened Wrappers
  import opened Decimal
  import opened Annotations
  import opened Cluster
  import opened Idling
  import opened Owned
  import opened Reconciling
  import opened Frames
  import Finalizers
  import Orphans
  import Schedules

  // ----- A pass in plain terms -----

  function Plain(wl: Workload): Workload {
    wl.(version := 0)
  }

  function Marked(name: string, wl: Workload): Workload {
    if Has(wl.annotations, REFERENCE) then wl else Apply(Refer(name), wl)
  }

  /** A saved count that does not parse leaves the workload as it is. */
  function Woken(kind: string, wl: Workload): Workload {
    if kind == CRON_JOB then if wl.suspend then Apply(ToSuspend(false), wl) else wl
    else
      match SavedCount(wl.annotations)
      case Success(count) => Apply(ToCount(count), wl)
      case Failure(_) => wl
  }

  function Slept(kind: string, wl: Workload): Workload {
    if kind == CRON_JOB then if wl.suspend then wl else Apply(ToSuspend(true), wl)
    else Apply(ToZero, wl)
  }

  /** The workload after an undisturbed pass of an instance that is not being deleted. */
  function Settle(kind: string, idle: bool, name: string, wl: Workload): Workload {
    var m := Marked(name, wl);
    if NeedWakeup(kind, m, idle) then Woken(kind, m)
    else if NeedIdle(kind, m, idle) then Slept(kind, m)
    else m
  }

  /** The workload after an undisturbed pass of an instance that is being deleted. */
  function Released(kind: string, name: string, wl: Workload): Workload {
    Apply(Strip, Woken(kind, Marked(name, wl)))
  }

  predicate Wakes(kind: string, wl: Workload) {
    kind == CRON_JOB || SavedCount(wl.annotations).Success?
  }

  // ----- Undisturbed calls -----

  lemma QuietRetry(w: World, local: Workload, change: Change)
    requires w.env == [] && w.store.workload.Some?
    ensures var v := Rewritten(w, change);
            Retry(w, local, change, Attempts()) == Try(v, v.store.workload.value, Pass)
  {
    assert Attempt(w, local, change) == Try(Rewritten(w, change), Rewritten(w, change).store.workload.value, Pass);
  }

  predicate SameSpec(a: Instance, b: Instance) {
    a.deleting == b.deleting && a.idle == b.idle && a.kind == b.kind && a.idling == b.idling && a.waking == b.waking
  }

  /** An instance that gets a pass as far as its workload. */
  predicate Passable(s: Store, name: string) {
    && name in s.instances && (Holds(s.instances[name]) || !s.instances[name].deleting)
    && Schedules.RoleIntact(s.children, name)
  }

  /** An instance that an undisturbed pass can work with. */
  predicate Workable(s: Store, name: string) {
    Passable(s, name) && Handled(s.instances[name].kind)
  }

  /** Finalizer and children are in place; neither the workload nor another instance was touched. */
  ghost predicate Prepared(w: World, v: World, name: string, inst: Instance) {
    && v.env == [] && v.image == w.image
    && name in w.store.instances && name in v.store.instances
    && v.store.instances[name] == inst && Holds(inst) && SameSpec(inst, w.store.instances[name])
    && (Holds(w.store.instances[name]) ==> inst == w.store.instances[name])
    && v.store.instances - {name} == w.store.instances - {name}
    && v.store.workload == w.store.workload
    && Schedules.RoleIntact(Schedules.Content(w.store.children), name)
    && Schedules.Content(v.store.children) ==
         Schedules.Settled(Schedules.Content(w.store.children), w.image, name, inst)
    && w.log <= v.log
    && forall k :: |w.log| <= k < |v.log| ==> v.log[k].op.TakeFinalizer? || v.log[k].op.WriteChild?
  }

  lemma QuietFinalizer(w: World, name: string, inst: Instance)
    requires w.env == [] && name in w.store.instances && inst == w.store.instances[name]
    requires Holds(inst) || !inst.deleting
    ensures var r := EnsureFinalizer(w, name, inst);
            && r.value.Success? && Holds(r.value.value) && SameSpec(r.value.value, inst)
            && (Holds(inst) ==> r == Reply(w, Success(inst)))
            && r.world.env == [] && r.world.image == w.image
            && r.world.store.workload == w.store.workload && r.world.store.children == w.store.children
            && r.world.store.instances == w.store.instances[name := r.value.value]
            && w.log <= r.world.log
            && forall k :: |w.log| <= k < |r.world.log| ==> r.world.log[k].op.TakeFinalizer?
  {
  }

  lemma QuietPrologue(w: World, name: string) returns (v: World, inst: Instance)
    requires w.env == [] && Passable(w.store, name)
    ensures Prologue(w, name) == Ready(v, inst) && Prepared(w, v, name, inst)
  {
    hide EnsureFinalizer, ReconcileCronStrategies, Schedules.Settled;
    var marked := EnsureFinalizer(w, name, w.store.instances[name]);
    QuietFinalizer(w, name, w.store.instances[name]);
    inst := marked.value.value;
    var d := ReconcileCronStrategies(marked.world, name, inst);
    Schedules.QuietChildren(marked.world, name, inst);
    v := d.world;
  }

  /** Does a pass write the workload? */
  ghost predicate WritesWorkload(w: World, v: World) {
    exists k :: |w.log| <= k < |v.log| && v.log[k].op.Write?
  }

  lemma OthersWriteNothing(w: World, v: World)
    requires ByOthers(w, v)
    ensures w.log <= v.log && !WritesWorkload(w, v)
    ensures w.env == [] ==> v.env == []
  {
    hide Linked, Alone, Steady;
    if w.env == [] {
      OthersAddNoScript(w, v);
    }
    forall k | |w.log| <= k < |v.log|
      ensures !v.log[k].op.Write?
    {
      assert v.log[k] in New(w, v);
    }
  }

  lemma NothingJoins(u: World, v: World, w: World)
    requires u.log <= v.log && v.log <= w.log && !WritesWorkload(u, v) && !WritesWorkload(v, w)
    ensures u.log <= w.log && !WritesWorkload(u, w)
  {
  }

  lemma AloneFinalizer(w: World, name: string, inst: Instance)
    requires Alone(w.env) && name in w.store.instances && inst == w.store.instances[name] && !inst.deleting
    ensures var r := EnsureFinalizer(w, name, inst);
            && Alone(r.world.env) && r.world.store.children == w.store.children
            && r.world.store.workload == w.store.workload
            && name in r.world.store.instances && SameSpec(r.world.store.instances[name], inst)
            && w.log <= r.world.log && !WritesWorkload(w, r.world) && (w.env == [] ==> r.world.env == [])
            && (r.value.Success? ==> SameSpec(r.value.value, inst))
  {
    AloneArrival(w);
  }

  /** With a Role that has no rule a pass stops before the workload, whatever else fails. */
  lemma BrokenRoleStops(w: World, name: string)
    requires Alone(w.env) && name in w.store.instances && !Schedules.RoleIntact(w.store.children, name)
    requires Holds(w.store.instances[name]) || !w.store.instances[name].deleting
    ensures var p := Prologue(w, name);
            && p.Stopped? && p.end.Errored?
            && !Schedules.RoleIntact(p.world.store.children, name)
            && p.world.store.workload == w.store.workload
            && name in p.world.store.instances && SameSpec(p.world.store.instances[name], w.store.instances[name])
            && (Held(w.store, name) ==> Held(p.world.store, name))
            && w.log <= p.world.log && !WritesWorkload(w, p.world) && (w.env == [] ==> p.world.env == [])
  {
    hide GetInstance, EnsureFinalizer, ReconcileCronStrategies, Schedules.RoleIntact, WritesWorkload, ByOthers;
    var got := GetInstance(w, name);
    Orphans.GetInstanceFacts(w, name);
    AloneKeepsRest(w, got.world);
    OthersWriteNothing(w, got.world);
    AloneGetIsHonest(w, name);
    if got.value.Success? {
      var inst := got.value.value;
      var marked := EnsureFinalizer(got.world, name, inst);
      AloneMark(got.world, name, inst);
      NothingJoins(w, got.world, marked.world);
      if marked.value.Success? {
        var held := marked.value.value;
        Schedules.BrokenRoleFails(marked.world, name, held);
        ChildrenAreOthers(marked.world, name, held);
        var children := ReconcileCronStrategies(marked.world, name, held).world;
        AloneKeepsRest(marked.world, children);
        OthersWriteNothing(marked.world, children);
        NothingJoins(w, marked.world, children);
      }
    }
  }

  lemma AloneGetIsHonest(w: World, name: string)
    requires Alone(w.env) && name in w.store.instances
    ensures GetInstance(w, name).value != Failure(NotFound)
  {
    AloneArrival(w);
  }

  lemma AloneMark(w: World, name: string, inst: Instance)
    requires Alone(w.env) && name in w.store.instances && inst == w.store.instances[name]
    requires Holds(inst) || !inst.deleting
    ensures var r := EnsureFinalizer(w, name, inst);
            && Alone(r.world.env) && r.world.store.children == w.store.children
            && r.world.store.workload == w.store.workload
            && name in r.world.store.instances && SameSpec(r.world.store.instances[name], inst)
            && w.log <= r.world.log && !WritesWorkload(w, r.world) && (w.env == [] ==> r.world.env == [])
            && (Holds(inst) ==> Holds(r.world.store.instances[name]))
  {
    hide EnsureFinalizer;
    if Holds(inst) {
      assert EnsureFinalizer(w, name, inst) == Reply(w, Success(inst)) by {
        HeldNeedsNothing(w, name, inst);
      }
    } else {
      AloneFinalizer(w, name, inst);
    }
  }

  lemma HeldNeedsNothing(w: World, name: string, inst: Instance)
    requires Holds(inst)
    ensures EnsureFinalizer(w, name, inst) == Reply(w, Success(inst))
  {
  }

  /** What a pass leaves of everything but the workload. */
  ghost predicate SettledAround(w: World, v: World, name: string) {
    && v.env == [] && v.image == w.image
    && name in w.store.instances && name in v.store.instances
    && Holds(v.store.instances[name]) && SameSpec(v.store.instances[name], w.store.instances[name])
    && v.store.instances - {name} == w.store.instances - {name}
    && Schedules.RoleIntact(Schedules.Content(w.store.children), name)
    && Schedules.Content(v.store.children) ==
         Schedules.Settled(Schedules.Content(w.store.children), w.image, name, v.store.instances[name])
    && w.log <= v.log
  }

  lemma QuietReference(w: World, local: Workload, name: string)
    requires w.env == [] && w.store.workload == Some(local)
    ensures var t := SetReference(w, local, name);
            && t.outcome == Pass && t.world.store.workload == Some(t.local)
            && t.world.env == [] && t.world.image == w.image
            && t.world.store.instances == w.store.instances && t.world.store.children == w.store.children
            && Plain(t.local) == Plain(Marked(name, local)) && w.log <= t.world.log
            && (Has(local.annotations, REFERENCE) ==> t.world == w)
  {
    if !Has(local.annotations, REFERENCE) {
      QuietRetry(w, local, Refer(name));
    }
  }

  lemma QuietWakeup(kind: string, w: World, local: Workload)
    requires w.env == [] && w.store.workload == Some(local)
    ensures var t := Wakeup(kind, w, local);
            && (t.outcome == if Wakes(kind, local) then Pass else Fail(BadNumber))
            && t.world.store.workload == Some(t.local)
            && t.world.env == [] && t.world.image == w.image
            && t.world.store.instances == w.store.instances && t.world.store.children == w.store.children
            && Plain(t.local) == Plain(Woken(kind, local)) && w.log <= t.world.log
  {
    QuietRetry(w, local, ToSuspend(false));
    if SavedCount(local.annotations).Success? {
      QuietRetry(w, local, ToCount(SavedCount(local.annotations).value));
    }
  }

  lemma QuietIdle(kind: string, w: World, local: Workload)
    requires w.env == [] && w.store.workload == Some(local)
    ensures var t := Idle(kind, w, local);
            && t.outcome == Pass && t.world.store.workload == Some(t.local)
            && t.world.env == [] && t.world.image == w.image
            && t.world.store.instances == w.store.instances && t.world.store.children == w.store.children
            && Plain(t.local) == Plain(Slept(kind, local)) && w.log <= t.world.log
  {
    QuietRetry(w, local, ToSuspend(true));
    QuietRetry(w, local, ToZero);
  }

  lemma VersionsDoNotMatter(kind: string, idle: bool, name: string, wl: Workload)
    ensures Plain(Marked(name, wl)) == Marked(name, Plain(wl))
    ensures Plain(Woken(kind, wl)) == Woken(kind, Plain(wl))
    ensures Plain(Slept(kind, wl)) == Slept(kind, Plain(wl))
    ensures NeedWakeup(kind, wl, idle) == NeedWakeup(kind, Plain(wl), idle)
    ensures NeedIdle(kind, wl, idle) == NeedIdle(kind, Plain(wl), idle)
    ensures Wakes(kind, wl) == Wakes(kind, Plain(wl))
  {
  }

  predicate FailsToWake(kind: string, idle: bool, wl: Workload) {
    NeedWakeup(kind, wl, idle) && !Wakes(kind, wl)
  }

  lemma QuietIdler(w: World, name: string, inst: Instance, local: Workload)
    requires w.env == [] && w.store.workload == Some(local) && !inst.deleting
    ensures var r := ReconcileWithIdler(w, name, inst, local);
            && r.world.store.workload.Some?
            && Plain(r.world.store.workload.value) == Settle(inst.kind, inst.idle, name, Plain(local))
            && r.end == (if FailsToWake(inst.kind, inst.idle, local) then Errored(BadNumber) else Finished)
            && r.world.env == [] && r.world.image == w.image
            && r.world.store.instances == w.store.instances && r.world.store.children == w.store.children
            && w.log <= r.world.log
  {
    var marked := SetReference(w, local, name);
    QuietReference(w, local, name);
    VersionsDoNotMatter(inst.kind, inst.idle, name, local);
    VersionsDoNotMatter(inst.kind, inst.idle, name, marked.local);
    KeysDiffer();
    if NeedWakeup(inst.kind, marked.local, inst.idle) {
      QuietWakeup(inst.kind, marked.world, marked.local);
    } else if NeedIdle(inst.kind, marked.local, inst.idle) {
      QuietIdle(inst.kind, marked.world, marked.local);
    }
  }

  /** An undisturbed pass does to the workload what `Settle` says, and nothing to other instances. */
  lemma QuietPass(w: World, name: string)
    requires w.env == [] && Workable(w.store, name) && !w.store.instances[name].deleting
    requires w.store.workload.Some?
    ensures var inst, wl, r := w.store.instances[name], w.store.workload.value, Reconcile(w, name);
            && r.world.store.workload.Some?
            && Plain(r.world.store.workload.value) == Settle(inst.kind, inst.idle, name, Plain(wl))
            && r.end == (if FailsToWake(inst.kind, inst.idle, wl) then Errored(BadNumber) else Finished)
            && SettledAround(w, r.world, name)
  {
    var v, inst := QuietPrologue(w, name);
    QuietIdler(v, name, inst, w.store.workload.value);
  }

  // ----- Deletion -----

  lemma QuietDrop(w: World, name: string)
    requires w.env == [] && Held(w.store, name)
    ensures var d := RemoveFinalizer(w, name, w.store.instances[name]);
            && d.outcome == Pass && d.world.store.workload == w.store.workload
            && !Held(d.world.store, name) && d.world.env == []
            && d.world.store.instances - {name} == w.store.instances - {name}
            && d.world.store.children == w.store.children
  {
    var inst := w.store.instances[name];
    var next := Finalizers.Removed(inst.finalizers, Finalizers.KIDLE);
    forall x {
      Finalizers.RemovedMembers(inst.finalizers, Finalizers.KIDLE, x);
    }
    assert Admits(inst, inst.(finalizers := next));
  }

  lemma QuietRelease(w: World, name: string, local: Workload)
    requires w.env == [] && w.store.workload == Some(local) && Held(w.store, name)
    requires w.store.instances[name].deleting
    ensures var inst := w.store.instances[name];
            var r := ReconcileWithIdler(w, name, inst, local);
            && r.world.store.workload.Some?
            && (if Wakes(inst.kind, local) then
                  && r.end == Finished && !Held(r.world.store, name)
                  && Plain(r.world.store.workload.value) == Released(inst.kind, name, Plain(local))
                else
                  r.end == Errored(BadNumber) && Held(r.world.store, name))
            && r.world.store.instances - {name} == w.store.instances - {name}
  {
    hide SetReference, Wakeup, Retry, RemoveFinalizer;
    var inst := w.store.instances[name];
    var marked := SetReference(w, local, name);
    QuietReference(w, local, name);
    VersionsDoNotMatter(inst.kind, false, name, local);
    VersionsDoNotMatter(inst.kind, false, name, marked.local);
    KeysDiffer();
    var woken := Wakeup(inst.kind, marked.world, marked.local);
    QuietWakeup(inst.kind, marked.world, marked.local);
    assert Wakes(inst.kind, marked.local) == Wakes(inst.kind, local);
    if woken.outcome == Pass {
      assert Has(Plain(woken.local).annotations, REFERENCE);
      QuietRetry(woken.world, woken.local, Strip);
      QuietDrop(Rewritten(woken.world, Strip), name);
    }
  }

  /** When an undisturbed deletion pass gets to the end: nothing on its way stops it. */
  predicate CanRelease(s: Store, name: string)
    requires name in s.instances
  {
    && Handled(s.instances[name].kind) && Schedules.RoleIntact(s.children, name)
    && (s.workload.Some? ==> Wakes(s.instances[name].kind, s.workload.value))
  }

  /**
    Deletion completes in one undisturbed pass exactly when the kind is one of the three, the
    Role, if it exists, has a rule, and the saved count, if there is a workload with one, is a
    number. The workload, if any, is then awake and bare.
   */
  lemma QuietDeletion(w: World, name: string)
    requires w.env == [] && Held(w.store, name) && w.store.instances[name].deleting
    ensures var inst, wl, r := w.store.instances[name], w.store.workload, Reconcile(w, name);
            && (!Held(r.world.store, name) <==> CanRelease(w.store, name))
            && (r.end == Finished <==>
                  Schedules.RoleIntact(w.store.children, name) && (Handled(inst.kind) ==> CanRelease(w.store, name)))
            && (r.world.store.workload.Some? <==> wl.Some?)
            && (wl.Some? && CanRelease(w.store, name) ==>
                  Plain(r.world.store.workload.value) == Released(inst.kind, name, Plain(wl.value)))
  {
    hide Prologue, GetWorkload, ReconcileWithIdler, RemoveFinalizer, Schedules.RoleIntact, Schedules.Settled, Wakes,
      Released;
    var current := w.store.instances[name];
    if !Schedules.RoleIntact(w.store.children, name) {
      BrokenRoleStops(w, name);
    } else {
      var v, inst := QuietPrologue(w, name);
      if Handled(inst.kind) {
        GetWorkloadFacts(v);
        if w.store.workload.Some? {
          QuietRelease(v, name, w.store.workload.value);
        } else {
          QuietDrop(v, name);
        }
      }
    }
  }

  lemma WakingKeepsTheRest(kind: string, name: string, wl: Workload)
    ensures var m := Woken(kind, Marked(name, wl));
            && Foreign(View(m.annotations)) == Foreign(View(wl.annotations)) && m.rest == wl.rest
            && (kind == CRON_JOB ==> !m.suspend && m.replicas == wl.replicas)
            && (kind != CRON_JOB && Wakes(kind, wl) ==>
                  m.suspend == wl.suspend && SavedCount(wl.annotations) == Success(m.replicas))
  {
    hide Itoa, Atoi;
    KeysDiffer();
  }

  lemma StrippedIsBare(wl: Workload)
    ensures forall key :: IsKidleKey(key) ==> !Has(Apply(Strip, wl).annotations, key)
    ensures Foreign(View(Apply(Strip, wl).annotations)) == Foreign(View(wl.annotations))
  {
  }

  /** Whatever annotations it starts from, a released workload has none of the three left. */
  lemma ReleasedIsBare(kind: string, name: string, wl: Workload)
    ensures var r := Released(kind, name, wl);
            && (forall key :: IsKidleKey(key) ==> !Has(r.annotations, key))
            && Foreign(View(r.annotations)) == Foreign(View(wl.annotations))
            && r.rest == wl.rest
            && (kind == CRON_JOB ==> !r.suspend && r.replicas == wl.replicas)
            && (kind != CRON_JOB && Wakes(kind, wl) ==>
                  r.suspend == wl.suspend && SavedCount(wl.annotations) == Success(r.replicas))
  {
    hide Woken, Marked, Wakes, SavedCount;
    WakingKeepsTheRest(kind, name, wl);
    StrippedIsBare(Woken(kind, Marked(name, wl)));
  }

  // ----- Convergence -----

  predicate Converged(kind: string, idle: bool, wl: Workload) {
    if kind == CRON_JOB then wl.suspend == idle else idle <==> wl.replicas == 0
  }

  /**
    The three idlers as one machine with a sleeping and a waking state: putting to sleep
    always ends the need to; waking ends it unless the saved count is zero or not a number.
   */
  lemma OneMachine(kind: string, wl: Workload)
    requires Handled(kind)
    ensures !NeedIdle(kind, Slept(kind, wl), true)
    ensures NeedWakeup(kind, wl, false) ==>
              (!NeedWakeup(kind, Woken(kind, wl), false) <==>
               kind == CRON_JOB || (SavedCount(wl.annotations).Success? && SavedCount(wl.annotations).value != 0))
    ensures kind == CRON_JOB ==> Slept(kind, wl).suspend && !Woken(kind, wl).suspend
    ensures kind != CRON_JOB && NeedIdle(kind, wl, true) ==>
              Woken(kind, Slept(kind, wl)).replicas == wl.replicas && Slept(kind, wl).replicas == 0
    ensures !NeedIdle(kind, wl, false) && !NeedWakeup(kind, wl, true)
  {
    KeysDiffer();
    AtoiItoa(wl.replicas);
    Wrap32Congruent(wl.replicas);
  }

  /** Nothing was written, or `before` was replaced by a version of what the change makes of it. */
  ghost predicate Exchanged(w: World, v: World, before: World, change: Change) {
    && ByOthers(w, before)
    && (v == before || (before.store.workload.Some? && v == Rewritten(before, change)))
  }

  /**
    The machine under every script: putting to sleep and waking each let others act and then
    replace the current version at most once; a sleeper that was put to sleep needs no more of
    it, and one that was woken needs no more waking unless the count that was read is zero.
   */
  lemma MachineUnderScripts(kind: string, w: World, local: Workload) returns (i: World, u: World)
    requires Handled(kind)
    ensures var t := Idle(kind, w, local);
            && Exchanged(w, t.world, i, if kind == CRON_JOB then ToSuspend(true) else ToZero)
            && (t.outcome.Pass? ==> !NeedIdle(kind, t.local, true))
            && (t.outcome.Pass? && t.world == i ==> t.local == local && kind == CRON_JOB)
            && (t.world != i ==> !NeedIdle(kind, t.world.store.workload.value, true))
    ensures var t, count := Wakeup(kind, w, local), SavedCount(local.annotations);
            && Exchanged(w, t.world, u,
                 if kind == CRON_JOB then ToSuspend(false) else ToCount(if count.Success? then count.value else 1))
            && (t.outcome.Pass? ==>
                  (NeedWakeup(kind, t.local, false) <==> Scales(kind) && count == Success(0)))
            && (t.outcome.Pass? && t.world == u ==> t.local == local && kind == CRON_JOB)
            && (t.world != u ==>
                  (NeedWakeup(kind, t.world.store.workload.value, false) <==> Scales(kind) && count == Success(0)))
  {
    hide Retry, SavedCount, ByOthers, OnlyEdits;
    OthersStay(w);
    i, u := w, w;
    if kind == CRON_JOB {
      if local.suspend {
        u := RetryIsAtomic(w, local, ToSuspend(false), Attempts());
      } else {
        i := RetryIsAtomic(w, local, ToSuspend(true), Attempts());
      }
    } else {
      i := RetryIsAtomic(w, local, ToZero, Attempts());
      if SavedCount(local.annotations).Success? {
        u := RetryIsAtomic(w, local, ToCount(SavedCount(local.annotations).value), Attempts());
      }
    }
  }

  lemma MarkedKeepsCount(name: string, wl: Workload)
    ensures SavedCount(Marked(name, wl).annotations) == SavedCount(wl.annotations)
    ensures Has(Marked(name, wl).annotations, REFERENCE)
  {
    KeysDiffer();
  }

  predicate CanConverge(kind: string, idle: bool, wl: Workload) {
    kind == CRON_JOB
    || (if idle then wl.replicas >= 0
        else wl.replicas == 0 ==> SavedCount(wl.annotations).Success? && SavedCount(wl.annotations).value != 0)
  }

  lemma SettleConverges(kind: string, idle: bool, name: string, wl: Workload)
    requires Handled(kind)
    ensures Converged(kind, idle, Settle(kind, idle, name, wl)) <==> CanConverge(kind, idle, wl)
  {
    MarkedKeepsCount(name, wl);
  }

  /** When a pass over this instance makes its workload follow the flag. */
  predicate WillFollow(s: Store, name: string)
    requires name in s.instances && s.workload.Some?
  {
    var inst, wl := s.instances[name], s.workload.value;
    || Converged(inst.kind, inst.idle, wl)
    || (Handled(inst.kind) && Schedules.RoleIntact(s.children, name) && CanConverge(inst.kind, inst.idle, wl))
  }

  /**
    Exactly when one undisturbed pass makes the workload follow the flag: it did so before, or
    kind and Role let the pass through and the counts allow it.
   */
  lemma ConvergesIff(w: World, name: string)
    requires w.env == [] && name in w.store.instances && !w.store.instances[name].deleting
    requires w.store.workload.Some?
    ensures var inst, r := w.store.instances[name], Reconcile(w, name);
            && r.world.store.workload.Some?
            && (Converged(inst.kind, inst.idle, r.world.store.workload.value) <==> WillFollow(w.store, name))
  {
    hide Reconcile, Settle, Schedules.RoleIntact, Schedules.Settled;
    var inst, wl := w.store.instances[name], w.store.workload.value;
    if Workable(w.store, name) {
      QuietPass(w, name);
      var after := Reconcile(w, name).world.store.workload.value;
      SettleConverges(inst.kind, inst.idle, name, Plain(wl));
      assert Converged(inst.kind, inst.idle, after) == Converged(inst.kind, inst.idle, Plain(after));
      assert CanConverge(inst.kind, inst.idle, wl) == CanConverge(inst.kind, inst.idle, Plain(wl));
    } else {
      BlockedPass(w, name);
    }
  }

  /** The instance is there to stay, but its kind or its Role keeps passes from the workload. */
  predicate Blocked(s: Store, name: string) {
    && name in s.instances && !s.instances[name].deleting
    && (!Handled(s.instances[name].kind) || !Schedules.RoleIntact(s.children, name))
  }

  lemma BlockedPass(w: World, name: string)
    requires w.env == [] && Blocked(w.store, name)
    ensures var v := Reconcile(w, name).world;
            && v.store.workload == w.store.workload
            && Blocked(v.store, name) && SameSpec(v.store.instances[name], w.store.instances[name])
            && v.env == [] && !WritesWorkload(w, v)
  {
    hide Prologue, Schedules.RoleIntact, Schedules.Settled;
    if !Schedules.RoleIntact(w.store.children, name) {
      BrokenRoleStops(w, name);
    } else {
      var v, inst := QuietPrologue(w, name);
    }
  }

  lemma SettledWritesNothing(w: World, name: string)
    requires w.env == [] && Workable(w.store, name) && !w.store.instances[name].deleting
    requires w.store.workload.Some? && Has(w.store.workload.value.annotations, REFERENCE)
    ensures var inst, wl, v := w.store.instances[name], w.store.workload.value, Reconcile(w, name).world;
            WritesWorkload(w, v) <==>
            NeedIdle(inst.kind, wl, inst.idle) || (NeedWakeup(inst.kind, wl, inst.idle) && Wakes(inst.kind, wl))
  {
    hide Prologue, Retry, Schedules.Settled, Schedules.Content;
    var wl := w.store.workload.value;
    var u, inst := QuietPrologue(w, name);
    var v := Reconcile(w, name).world;
    if NeedWakeup(inst.kind, wl, inst.idle) && Wakes(inst.kind, wl) {
      var change := if inst.kind == CRON_JOB then ToSuspend(false) else ToCount(SavedCount(wl.annotations).value);
      QuietRetry(u, wl, change);
      assert v.log[|u.log|].op == Write(change);
    } else if NeedIdle(inst.kind, wl, inst.idle) {
      var change := if inst.kind == CRON_JOB then ToSuspend(true) else ToZero;
      QuietRetry(u, wl, change);
      assert v.log[|u.log|].op == Write(change);
    } else {
      assert v == u;
    }
  }

  /** The one way a pass leaves itself work to do. */
  predicate Restless(kind: string, idle: bool, wl: Workload) {
    Scales(kind) && !idle && wl.replicas == 0 && SavedCount(wl.annotations) == Success(0)
  }

  lemma SettledNeeds(kind: string, idle: bool, name: string, wl: Workload)
    requires Handled(kind)
    ensures var after := Settle(kind, idle, name, wl);
            && Has(after.annotations, REFERENCE)
            && (NeedIdle(kind, after, idle) || (NeedWakeup(kind, after, idle) && Wakes(kind, after)) <==>
                Restless(kind, idle, wl))
  {
    MarkedKeepsCount(name, wl);
    KeysDiffer();
  }

  lemma StaysWorkable(w: World, name: string)
    requires w.env == [] && Workable(w.store, name) && !w.store.instances[name].deleting
    requires w.store.workload.Some?
    ensures Workable(Reconcile(w, name).world.store, name)
  {
    var first := Reconcile(w, name).world;
    QuietPass(w, name);
    Schedules.SettledTwice(Schedules.Content(w.store.children), w.image, name, first.store.instances[name]);
    Schedules.IntactContent(first.store.children, name);
  }

  /**
    Quiescence: the pass after an undisturbed one writes nothing to the workload, except, for
    ever, when an instance is awake over zero replicas with a saved count of zero and its Role
    lets the passes through.
   */
  lemma QuiescesIff(w: World, name: string)
    requires w.env == [] && name in w.store.instances && !w.store.instances[name].deleting
    requires w.store.workload.Some?
    ensures var inst, wl := w.store.instances[name], w.store.workload.value;
            var first := Reconcile(w, name).world;
            var second := Reconcile(first, name).world;
            WritesWorkload(first, second) <==>
            Schedules.RoleIntact(w.store.children, name) && Restless(inst.kind, inst.idle, wl)
  {
    hide Reconcile, Schedules.RoleIntact, Schedules.Settled, WritesWorkload, Settle;
    var inst, wl := w.store.instances[name], w.store.workload.value;
    var first := Reconcile(w, name).world;
    if Workable(w.store, name) {
      QuietPass(w, name);
      StaysWorkable(w, name);
      var after := first.store.workload.value;
      SettledNeeds(inst.kind, inst.idle, name, Plain(wl));
      VersionsDoNotMatter(inst.kind, inst.idle, name, after);
      assert Restless(inst.kind, inst.idle, wl) == Restless(inst.kind, inst.idle, Plain(wl));
      assert Has(after.annotations, REFERENCE) == Has(Plain(after).annotations, REFERENCE);
      SettledWritesNothing(first, name);
    } else {
      BlockedPass(w, name);
      BlockedPass(first, name);
    }
  }
}
