/**
  Deleting an instance when calls may fail at any point and the operator simply tries again:
  what the workload is left with, exactly.
 */
module Deletion {
  import opened Wrappers
  import opened Decimal
  import opened Annotations
  import opened Cluster
  import opened Idling
  import opened Owned
  import opened Reconciling
  import opened Frames
  import Finalizers
  import Orphans

  /** How many times the annotations were stripped. */
  function Strips(log: seq<Entry>): nat {
    if log == [] then 0
    else Strips(log[..|log| - 1]) + if log[|log| - 1].op == Write(Strip) then 1 else 0
  }

  lemma {:induction false} StripsJoin(a: seq<Entry>, b: seq<Entry>)
    requires forall e :: e in b ==> e.op.WriteChild?
    ensures Strips(a + b) == Strips(a)
  {
    if b == [] {
      assert a + b == a;
    } else {
      var k := |b| - 1;
      assert (a + b)[..|a + b| - 1] == a + b[..k];
      assert b[k] in b;
      StripsJoin(a, b[..k]);
    }
  }

  // ----- One call without edits -----

  lemma AloneOthers(w: World, v: World)
    requires ByOthers(w, v) && Alone(w.env)
    ensures v.store.instances == w.store.instances && v.store.workload == w.store.workload
    ensures Alone(v.env) && Strips(v.log) == Strips(w.log)
  {
    AloneKeepsRest(w, v);
    StripsJoin(w.log, New(w, v));
  }

  /** Without edits a retried change either happens to the current workload or does not. */
  lemma AloneRetry(w: World, local: Workload, change: Change) returns (written: bool)
    requires Alone(w.env) && w.store.workload.Some?
    ensures var t := Retry(w, local, change, Attempts());
            var wl := w.store.workload.value;
            && Alone(t.world.env) && t.world.store.instances == w.store.instances
            && t.world.store.workload.Some?
            && (if written then
                  && t.world.store.workload.value == Apply(change, wl).(version := t.world.store.workload.value.version)
                  && Strips(t.world.log) == Strips(w.log) + if change.Strip? then 1 else 0
                else
                  && t.world.store.workload == w.store.workload && Strips(t.world.log) == Strips(w.log))
            && (t.outcome.Pass? ==> written && Some(t.local) == t.world.store.workload)
  {
    hide Retry, Linked, Mild, New;
    var a := RetryIsAtomic(w, local, change, Attempts());
    AloneOthers(w, a);
    var t := Retry(w, local, change, Attempts());
    written := t.world != a;
    if written {
      assert t.world.log[..|t.world.log| - 1] == a.log;
    }
  }

  lemma AloneUpdate(w: World, name: string, inst: Instance, op: Op)
    requires Alone(w.env) && !op.Write?
    ensures var r := UpdateInstance(w, name, inst, op);
            && Alone(r.world.env) && r.world.store.workload == w.store.workload
            && Strips(r.world.log) == Strips(w.log)
            && (r.world.store.instances == w.store.instances
                || (&& name in w.store.instances && Admits(w.store.instances[name], inst)
                    && r.world.store.instances == PutInstance(w.store, name, inst).instances))
            && (r.value.Success? ==> name in w.store.instances && Admits(w.store.instances[name], inst))
  {
    ArriveIsOthers(w);
    AloneOthers(w, Arrive(w));
    var r := UpdateInstance(w, name, inst, op);
    if r.world != Arrive(w) {
      assert r.world.log[..|r.world.log| - 1] == Arrive(w).log;
      assert Arrive(w).store == w.store;
    }
  }

  // ----- The state between passes -----

  /** The count a wake-up writes after this many strips: the saved one is lost with the first. */
  function CountAfter(count: int32, strips: nat): int32 {
    if strips == 0 then count else 1
  }

  predicate Up(kind: string, count: int32, wl: Workload) {
    if kind == CRON_JOB then !wl.suspend else wl.replicas == count
  }

  /** While the finalizer is held. */
  predicate Releasing(s: Store, name: string, kind: string, count: int32, strips: nat) {
    && Held(s, name) && s.instances[name].deleting && s.instances[name].kind == kind
    && s.workload.Some?
    && (kind != CRON_JOB ==> SavedCount(s.workload.value.annotations) == Success(CountAfter(count, strips)))
    && (strips > 0 ==> !Has(s.workload.value.annotations, PREVIOUS))
  }

  /** Once it is gone. */
  predicate Gone(s: Store, name: string, kind: string, count: int32, strips: nat) {
    && !Held(s, name) && (name in s.instances ==> s.instances[name].deleting)
    && s.workload.Some? && Bare(s.workload.value) && strips > 0
    && Up(kind, CountAfter(count, strips - 1), s.workload.value)
  }

  predicate Between(s: Store, name: string, kind: string, count: int32, strips: nat) {
    Releasing(s, name, kind, count, strips) || Gone(s, name, kind, count, strips)
  }

  // ----- One pass -----

  lemma ChangeKeepsReleasing(s: Store, t: Store, change: Change, name: string, kind: string, count: int32, strips: nat)
    requires Releasing(s, name, kind, count, strips) && t.instances == s.instances && t.workload.Some?
    requires t.workload.value == Apply(change, s.workload.value).(version := t.workload.value.version)
    requires change.Refer? || change.ToCount? || change.ToSuspend?
    ensures Releasing(t, name, kind, count, strips)
    ensures change.Refer? || Has(s.workload.value.annotations, REFERENCE) ==>
              Has(t.workload.value.annotations, REFERENCE)
  {
    KeysDiffer();
  }

  lemma StripKeepsReleasing(s: Store, t: Store, name: string, kind: string, count: int32, strips: nat)
    requires Releasing(s, name, kind, count, strips) && t.instances == s.instances && t.workload.Some?
    requires t.workload.value == Apply(Strip, s.workload.value).(version := t.workload.value.version)
    ensures Releasing(t, name, kind, count, strips + 1) && Bare(t.workload.value)
    ensures forall c :: Up(kind, c, s.workload.value) ==> Up(kind, c, t.workload.value)
  {
    KeysDiffer();
  }

  lemma DropEnds(w: World, name: string, kind: string, count: int32, base: nat)
    requires Alone(w.env) && Strips(w.log) > base
    requires Releasing(w.store, name, kind, count, Strips(w.log) - base) && Bare(w.store.workload.value)
    requires Up(kind, CountAfter(count, Strips(w.log) - base - 1), w.store.workload.value)
    ensures var v := RemoveFinalizer(w, name, w.store.instances[name]).world;
            Strips(v.log) >= base && Between(v.store, name, kind, count, Strips(v.log) - base)
  {
    var inst := w.store.instances[name];
    var next := inst.(finalizers := Finalizers.Removed(inst.finalizers, Finalizers.KIDLE));
    AloneUpdate(w, name, next, DropFinalizer);
    Finalizers.RemovedMembers(inst.finalizers, Finalizers.KIDLE, Finalizers.KIDLE);
  }

  /** From a current copy that carries the reference. */
  lemma ReleaseOnce(w: World, name: string, kind: string, count: int32, base: nat)
    requires Alone(w.env) && Handled(kind) && Strips(w.log) >= base
    requires Releasing(w.store, name, kind, count, Strips(w.log) - base)
    requires Has(w.store.workload.value.annotations, REFERENCE)
    ensures var v := Release(w, name, w.store.instances[name], w.store.workload.value).world;
            Strips(v.log) >= base && Between(v.store, name, kind, count, Strips(v.log) - base)
  {
    hide Wakeup, Retry, RemoveFinalizer;
    var inst, local, strips := w.store.instances[name], w.store.workload.value, Strips(w.log) - base;
    var woken := Wakeup(kind, w, local);
    WakeOnce(w, name, kind, count, base);
    if woken.outcome.Pass? {
      var u := woken.world;
      var stripped := RemoveAnnotations(u, woken.local);
      var written := AloneRetry(u, woken.local, Strip);
      if written {
        StripKeepsReleasing(u.store, stripped.world.store, name, kind, count, strips);
        if stripped.outcome.Pass? {
          DropEnds(stripped.world, name, kind, count, base);
        }
      }
    }
  }

  lemma WakeOnce(w: World, name: string, kind: string, count: int32, base: nat)
    requires Alone(w.env) && Handled(kind) && Strips(w.log) >= base
    requires Releasing(w.store, name, kind, count, Strips(w.log) - base)
    requires Has(w.store.workload.value.annotations, REFERENCE)
    ensures var t := Wakeup(kind, w, w.store.workload.value);
            && Alone(t.world.env) && Strips(t.world.log) == Strips(w.log)
            && t.world.store.instances == w.store.instances
            && Releasing(t.world.store, name, kind, count, Strips(w.log) - base)
            && (t.outcome.Pass? ==>
                  && Some(t.local) == t.world.store.workload && Has(t.local.annotations, REFERENCE)
                  && Up(kind, CountAfter(count, Strips(w.log) - base), t.local))
  {
    var local, strips := w.store.workload.value, Strips(w.log) - base;
    var change := if kind == CRON_JOB then ToSuspend(false) else ToCount(CountAfter(count, strips));
    if kind != CRON_JOB || local.suspend {
      var written := AloneRetry(w, local, change);
      if written {
        var after := Retry(w, local, change, Attempts()).world.store;
        ChangeKeepsReleasing(w.store, after, change, name, kind, count, strips);
      }
    }
  }

  lemma IdlerOnce(w: World, name: string, kind: string, count: int32, base: nat)
    requires Alone(w.env) && Handled(kind) && Strips(w.log) >= base
    requires Releasing(w.store, name, kind, count, Strips(w.log) - base)
    ensures var v := ReconcileWithIdler(w, name, w.store.instances[name], w.store.workload.value).world;
            Strips(v.log) >= base && Between(v.store, name, kind, count, Strips(v.log) - base)
  {
    hide Retry, Release;
    var local := w.store.workload.value;
    var marked := SetReference(w, local, name);
    if !Has(local.annotations, REFERENCE) {
      var written := AloneRetry(w, local, Refer(name));
      if written {
        ChangeKeepsReleasing(w.store, marked.world.store, Refer(name), name, kind, count, Strips(w.log) - base);
      }
    }
    if marked.outcome.Pass? {
      ReleaseOnce(marked.world, name, kind, count, base);
    }
  }

  lemma PrologueOnce(w: World, name: string)
    requires Alone(w.env) && name in w.store.instances && w.store.instances[name].deleting
    ensures var p := Prologue(w, name);
            && Alone(p.world.env) && Strips(p.world.log) == Strips(w.log)
            && p.world.store.instances == w.store.instances && p.world.store.workload == w.store.workload
            && (p.Ready? ==> Holds(w.store.instances[name]) && p.instance == w.store.instances[name])
  {
    var got := GetInstance(w, name);
    Orphans.GetInstanceFacts(w, name);
    AloneOthers(w, got.world);
    if got.value.Success? {
      var inst := got.value.value;
      if Holds(inst) {
        ChildrenAreOthers(got.world, name, inst);
        AloneOthers(got.world, ReconcileCronStrategies(got.world, name, inst).world);
      } else {
        var next := inst.(finalizers := Finalizers.Added(inst.finalizers, Finalizers.KIDLE));
        assert Finalizers.KIDLE in next.finalizers && !Admits(inst, next);
        AloneUpdate(got.world, name, next, TakeFinalizer);
      }
    }
  }

  lemma ProceedOnce(w: World, name: string, kind: string, count: int32, base: nat)
    requires Alone(w.env) && Handled(kind) && Strips(w.log) >= base
    requires Releasing(w.store, name, kind, count, Strips(w.log) - base)
    ensures var v := Proceed(w, name, w.store.instances[name]).world;
            Strips(v.log) >= base && Between(v.store, name, kind, count, Strips(v.log) - base)
  {
    hide ReconcileWithIdler, GetWorkload, Strips;
    var got := GetWorkload(w);
    GetWorkloadFacts(w);
    AloneOthers(w, got.world);
    if got.value.Success? {
      IdlerOnce(got.world, name, kind, count, base);
    }
  }

  /** With the finalizer gone nothing more happens to the workload. */
  lemma GoneStaysGone(w: World, name: string, kind: string, count: int32, base: nat)
    requires Alone(w.env) && Strips(w.log) >= base
    requires Gone(w.store, name, kind, count, Strips(w.log) - base)
    ensures var v := Reconcile(w, name).world;
            Strips(v.log) >= base && Gone(v.store, name, kind, count, Strips(v.log) - base)
  {
    if name in w.store.instances {
      PrologueOnce(w, name);
    } else {
      Orphans.GetInstanceFacts(w, name);
      AloneOthers(w, GetInstance(w, name).world);
    }
  }

  lemma PassOnce(w: World, name: string, kind: string, count: int32, base: nat)
    requires Alone(w.env) && Handled(kind) && Strips(w.log) >= base
    requires Between(w.store, name, kind, count, Strips(w.log) - base)
    ensures var v := Reconcile(w, name).world;
            Strips(v.log) >= base && Between(v.store, name, kind, count, Strips(v.log) - base)
  {
    hide Prologue, Proceed, Strips, Gone;
    if Gone(w.store, name, kind, count, Strips(w.log) - base) {
      GoneStaysGone(w, name, kind, count, base);
    } else {
      PrologueOnce(w, name);
      if Prologue(w, name).Ready? {
        ProceedOnce(Prologue(w, name).world, name, kind, count, base);
      }
    }
  }

  // ----- All reruns -----

  /** The operator tries again and again; each pass has its own failures. */
  function Reruns(w: World, name: string, envs: seq<seq<Disturbance>>): World
    decreases |envs|
  {
    if envs == [] then w else Reruns(Step(w, name, Reconciled(envs[0])), name, envs[1..])
  }

  lemma {:induction false} RerunsStayBetween(
    w: World, name: string, envs: seq<seq<Disturbance>>, kind: string, count: int32, base: nat)
    requires Handled(kind) && Strips(w.log) >= base
    requires Between(w.store, name, kind, count, Strips(w.log) - base)
    requires forall k :: 0 <= k < |envs| ==> Alone(envs[k])
    ensures var v := Reruns(w, name, envs);
            Strips(v.log) >= base && Between(v.store, name, kind, count, Strips(v.log) - base)
    decreases |envs|
  {
    hide Reconcile, Between, Strips;
    if envs == [] {
    } else {
      PassOnce(w.(env := envs[0]), name, kind, count, base);
      RerunsStayBetween(Step(w, name, Reconciled(envs[0])), name, envs[1..], kind, count, base);
    }
  }

  // ----- Where a failure falls -----

  /** How call number `k` from here is answered. */
  function VerdictAt(w: World, k: nat): Verdict {
    if k < |w.env| then w.env[k].verdict else Served
  }

  /** A release up to the point where its strip is about to be sent, if it gets there. */
  function ReleaseAtStrip(kind: string, w: World, local: Workload): Option<World> {
    var woken := Wakeup(kind, w, local);
    if woken.outcome.Fail? || !Orphans.Carries(woken.local) then None
    else
      var read := GetWorkload(woken.world);
      if read.value.Failure? then None else Some(read.world)
  }

  /** A pass up to that point. The next call is the strip, the one after it the release. */
  function AtStrip(w: World, name: string): Option<World> {
    match Prologue(w, name)
    case Stopped(_, _) => None
    case Ready(v, inst) =>
      if !Handled(inst.kind) then None
      else
        var got := GetWorkload(v);
        if got.value.Failure? then None
        else
          var marked := SetReference(got.world, got.value.value, name);
          if marked.outcome.Fail? || !inst.deleting then None
          else ReleaseAtStrip(inst.kind, marked.world, marked.local)
  }

  /**
    In this pass a failure falls between the committed strip and the committed release: the
    strip is committed but its answer is lost, or it is answered and the release is refused.
   */
  predicate BreaksBetween(w: World, name: string) {
    var u := AtStrip(w, name);
    u.Some? && (VerdictAt(u.value, 0).Lost? || (VerdictAt(u.value, 0).Served? && VerdictAt(u.value, 1).Refused?))
  }

  /** This pass commits both; a lost answer to the second does not matter. */
  predicate Completes(w: World, name: string) {
    var u := AtStrip(w, name);
    u.Some? && VerdictAt(u.value, 0).Served? && !VerdictAt(u.value, 1).Refused?
  }

  /** Without edits the strip is one read and one update, never a conflict. */
  lemma AloneStrip(w: World, local: Workload)
    requires Alone(w.env) && w.store.workload.Some? && Orphans.Carries(local)
    ensures var read, t := GetWorkload(w), RemoveAnnotations(w, local);
            && Alone(t.world.env) && t.world.store.instances == w.store.instances && t.world.store.workload.Some?
            && (VerdictAt(read.world, 0).Served? || Fails(VerdictAt(read.world, 0)))
            && (read.value.Failure? || VerdictAt(read.world, 0).Refused? ==>
                  t.outcome.Fail? && Strips(t.world.log) == Strips(w.log))
            && (read.value.Success? && !VerdictAt(read.world, 0).Refused? ==>
                  && Strips(t.world.log) == Strips(w.log) + 1
                  && (t.outcome.Pass? <==> VerdictAt(read.world, 0).Served?)
                  && VerdictAt(t.world, 0) == VerdictAt(read.world, 1))
  {
    hide Strips;
    var read := GetWorkload(w);
    AloneArrival(w);
    AloneArrival(read.world);
    assert Retry(w, local, Strip, Attempts()) == Attempt(w, local, Strip) by {
      AloneNoConflict(w, local, Strip);
    }
    if read.value.Success? {
      var a, t := Arrive(read.world), RemoveAnnotations(w, local);
      if !VerdictAt(read.world, 0).Refused? {
        OneStripMore(a.log, Entry(Write(Strip), a.store, t.world.store));
      }
    }
  }

  lemma OneStripMore(log: seq<Entry>, e: Entry)
    ensures Strips(log + [e]) == Strips(log) + if e.op == Write(Strip) then 1 else 0
  {
    assert (log + [e])[..|log + [e]| - 1] == log;
  }

  lemma AloneNoConflict(w: World, local: Workload, change: Change)
    requires Alone(w.env) && w.store.workload.Some?
    ensures Attempt(w, local, change).outcome != Fail(Conflict)
  {
    AloneArrival(w);
    AloneArrival(GetWorkload(w).world);
  }

  /** The release of the finalizer from the current copy happens unless it is refused. */
  lemma AloneDrop(w: World, name: string)
    requires Alone(w.env) && Held(w.store, name)
    ensures var inst := w.store.instances[name];
            var v := RemoveFinalizer(w, name, inst).world;
            && Strips(v.log) == Strips(w.log) && (Held(v.store, name) <==> VerdictAt(w, 0).Refused?)
            && v.store.workload == w.store.workload
            && (name in v.store.instances ==> v.store.instances[name].deleting == inst.deleting)
  {
    hide Strips;
    var inst := w.store.instances[name];
    var next := inst.(finalizers := Finalizers.Removed(inst.finalizers, Finalizers.KIDLE));
    forall x {
      Finalizers.RemovedMembers(inst.finalizers, Finalizers.KIDLE, x);
    }
    AloneArrival(w);
    assert Admits(inst, next);
    var a, v := Arrive(w), RemoveFinalizer(w, name, inst).world;
    if v != a {
      OneStripMore(a.log, Entry(DropFinalizer, a.store, v.store));
    }
  }

  // ----- One pass, by where its failures fall -----

  /** What the bookkeeping of strips needs of a state between reruns. */
  predicate Deleted(s: Store, name: string) {
    && (name in s.instances ==> s.instances[name].deleting)
    && (Held(s, name) ==> s.workload.Some?)
  }

  /** How the strips and the finalizer stand after a pass, or a part of one, that got to `u`. */
  ghost predicate CutAt(w: World, v: World, u: Option<World>, name: string) {
    var stripped := u.Some? && !VerdictAt(u.value, 0).Refused?;
    var released := u.Some? && VerdictAt(u.value, 0).Served? && !VerdictAt(u.value, 1).Refused?;
    && Strips(v.log) == Strips(w.log) + (if stripped then 1 else 0)
    && (Held(v.store, name) <==> !released)
    && Deleted(v.store, name)
    && (u.Some? ==> VerdictAt(u.value, 0).Served? || Fails(VerdictAt(u.value, 0)))
  }

  lemma ReleaseCutAt(w: World, name: string, local: Workload)
    requires Alone(w.env) && Held(w.store, name) && w.store.instances[name].deleting
    requires w.store.workload == Some(local) && Has(local.annotations, REFERENCE)
    ensures var inst := w.store.instances[name];
            CutAt(w, Release(w, name, inst, local).world, ReleaseAtStrip(inst.kind, w, local), name)
  {
    hide Wakeup, RemoveAnnotations, RemoveFinalizer, Strips, GetWorkload, Alone;
    var inst := w.store.instances[name];
    var woken := Wakeup(inst.kind, w, local);
    WakeupStripsNothing(inst.kind, w, local);
    if woken.outcome.Pass? {
      var read, stripped := GetWorkload(woken.world), RemoveAnnotations(woken.world, woken.local);
      AloneStrip(woken.world, woken.local);
      if stripped.outcome.Pass? {
        AloneDrop(stripped.world, name);
      }
    }
  }

  lemma WakeupStripsNothing(kind: string, w: World, local: Workload)
    requires Alone(w.env) && w.store.workload == Some(local)
    ensures var t := Wakeup(kind, w, local);
            && Alone(t.world.env) && Strips(t.world.log) == Strips(w.log)
            && t.world.store.instances == w.store.instances && t.world.store.workload.Some?
            && (t.outcome.Pass? ==> Has(t.local.annotations, REFERENCE) == Has(local.annotations, REFERENCE))
  {
    hide Retry, Strips;
    KeysDiffer();
    var suspended := AloneRetry(w, local, ToSuspend(false));
    if SavedCount(local.annotations).Success? {
      var scaled := AloneRetry(w, local, ToCount(SavedCount(local.annotations).value));
    }
  }

  lemma MarkStripsNothing(w: World, local: Workload, name: string)
    requires Alone(w.env) && w.store.workload == Some(local)
    ensures var t := SetReference(w, local, name);
            && Alone(t.world.env) && Strips(t.world.log) == Strips(w.log)
            && t.world.store.instances == w.store.instances && t.world.store.workload.Some?
            && (t.outcome.Pass? ==> t.world.store.workload == Some(t.local) && Has(t.local.annotations, REFERENCE))
  {
    hide Retry, Strips;
    if !Has(local.annotations, REFERENCE) {
      var written := AloneRetry(w, local, Refer(name));
    }
  }

  /**
    One pass over a held instance that is being deleted, with failures at any calls: exactly
    when it strips, and exactly when it releases.
   */
  lemma PassCutAt(w: World, name: string)
    requires Alone(w.env) && Held(w.store, name) && w.store.instances[name].deleting
    requires w.store.workload.Some?
    ensures CutAt(w, Reconcile(w, name).world, AtStrip(w, name), name)
  {
    hide Prologue, SetReference, Release, ReleaseAtStrip, Strips, Alone;
    PrologueOnce(w, name);
    match Prologue(w, name)
    case Stopped(_, _) =>
    case Ready(v, inst) =>
      if Handled(inst.kind) {
        var got := GetWorkload(v);
        GetWorkloadFacts(v);
        AloneOthers(v, got.world);
        if got.value.Success? {
          var marked := SetReference(got.world, got.value.value, name);
          MarkStripsNothing(got.world, got.value.value, name);
          if marked.outcome.Pass? {
            ReleaseCutAt(marked.world, name, marked.local);
          }
        }
      }
  }

  /** Without the finalizer a pass gets nowhere near a strip. */
  lemma GoneCutsNothing(w: World, name: string)
    requires Alone(w.env) && !Held(w.store, name) && (name in w.store.instances ==> w.store.instances[name].deleting)
    ensures var v := Reconcile(w, name).world;
            AtStrip(w, name) == None && Strips(v.log) == Strips(w.log) && !Held(v.store, name)
    ensures name in Reconcile(w, name).world.store.instances ==> Reconcile(w, name).world.store.instances[name].deleting
  {
    hide Strips;
    if name in w.store.instances {
      PrologueOnce(w, name);
    } else {
      Orphans.GetInstanceFacts(w, name);
      AloneOthers(w, GetInstance(w, name).world);
    }
  }

  // ----- All reruns, by where the failures fall -----

  /** The world as rerun number `k` finds it. */
  function Before(w: World, name: string, envs: seq<seq<Disturbance>>, k: nat): World
    requires k < |envs|
  {
    Reruns(w, name, envs[..k]).(env := envs[k])
  }

  /** In how many reruns a failure falls between the strip and the release. */
  function Breaks(w: World, name: string, envs: seq<seq<Disturbance>>): nat
    decreases |envs|
  {
    if envs == [] then 0
    else
      var v := w.(env := envs[0]);
      (if BreaksBetween(v, name) then 1 else 0) + Breaks(Step(w, name, Reconciled(envs[0])), name, envs[1..])
  }

  lemma BeforeShifts(w: World, name: string, envs: seq<seq<Disturbance>>, k: nat)
    requires 0 < k < |envs|
    ensures Before(w, name, envs, k) == Before(Step(w, name, Reconciled(envs[0])), name, envs[1..], k - 1)
  {
    hide Step;
    assert envs[..k][1..] == envs[1..][..k - 1];
  }

  lemma {:induction false} BreaksIff(w: World, name: string, envs: seq<seq<Disturbance>>)
    ensures Breaks(w, name, envs) > 0 <==> exists k :: 0 <= k < |envs| && BreaksBetween(Before(w, name, envs, k), name)
    decreases |envs|
  {
    hide Step, BreaksBetween;
    if envs == [] {
    } else {
      var v, rest := Step(w, name, Reconciled(envs[0])), envs[1..];
      assert Before(w, name, envs, 0) == w.(env := envs[0]);
      BreaksIff(v, name, rest);
      forall k | 0 < k < |envs|
        ensures Before(w, name, envs, k) == Before(v, name, rest, k - 1)
      {
        BeforeShifts(w, name, envs, k);
      }
      assert forall k :: 0 <= k < |rest| ==> Before(w, name, envs, k + 1) == Before(v, name, rest, k);
    }
  }

  lemma PassKeepsDeleted(w: World, name: string)
    requires Alone(w.env) && Deleted(w.store, name)
    ensures var v := Reconcile(w, name).world;
            && Deleted(v.store, name)
            && Strips(v.log) == Strips(w.log) + (if BreaksBetween(w, name) then 1 else 0)
                                + (if Held(w.store, name) && !Held(v.store, name) then 1 else 0)
            && (Held(v.store, name) <==> Held(w.store, name) && !Completes(w, name))
  {
    hide Reconcile, AtStrip, Strips;
    if Held(w.store, name) {
      PassCutAt(w, name);
    } else {
      GoneCutsNothing(w, name);
    }
  }

  lemma {:induction false} RerunsCount(w: World, name: string, envs: seq<seq<Disturbance>>)
    requires Deleted(w.store, name) && forall k :: 0 <= k < |envs| ==> Alone(envs[k])
    ensures var v := Reruns(w, name, envs);
            && Deleted(v.store, name)
            && (Held(v.store, name) ==> Held(w.store, name))
            && Strips(v.log) == Strips(w.log) + Breaks(w, name, envs)
                                + (if Held(w.store, name) && !Held(v.store, name) then 1 else 0)
    decreases |envs|
  {
    hide Reconcile, BreaksBetween, Completes, Strips;
    if envs == [] {
    } else {
      PassKeepsDeleted(w.(env := envs[0]), name);
      RerunsCount(Step(w, name, Reconciled(envs[0])), name, envs[1..]);
    }
  }

  /** What the saved count decodes to, or 1 where it decides nothing. */
  function CountOf(wl: Workload): int32 {
    if SavedCount(wl.annotations).Success? then SavedCount(wl.annotations).value else 1
  }

  lemma BetweenAtFirst(w: World, name: string, kind: string)
    requires Held(w.store, name) && w.store.instances[name].deleting && w.store.instances[name].kind == kind
    requires w.store.workload.Some? && Handled(kind)
    requires Scales(kind) ==> SavedCount(w.store.workload.value.annotations).Success?
    ensures Between(w.store, name, kind, CountOf(w.store.workload.value), 0)
  {
  }

  lemma BetweenGone(s: Store, name: string, kind: string, count: int32, strips: nat)
    requires Between(s, name, kind, count, strips) && !Held(s, name)
    ensures s.workload.Some? && Bare(s.workload.value) && strips > 0
    ensures Up(kind, CountAfter(count, strips - 1), s.workload.value)
  {
  }

  /** The result by the number of reruns that broke between strip and release. */
  lemma ReleasedByBreaks(w: World, name: string, envs: seq<seq<Disturbance>>)
    requires Held(w.store, name) && w.store.instances[name].deleting && Handled(w.store.instances[name].kind)
    requires w.store.workload.Some?
    requires Scales(w.store.instances[name].kind) ==> SavedCount(w.store.workload.value.annotations).Success?
    requires forall k :: 0 <= k < |envs| ==> Alone(envs[k])
    ensures var kind, v, breaks := w.store.instances[name].kind, Reruns(w, name, envs), Breaks(w, name, envs);
            !Held(v.store, name) ==>
              && v.store.workload.Some? && Bare(v.store.workload.value)
              && Strips(v.log) == Strips(w.log) + breaks + 1
              && Up(kind, CountAfter(CountOf(w.store.workload.value), breaks), v.store.workload.value)
  {
    hide Reruns, Strips, Breaks, Between, Bare, Up, CountAfter, CountOf, SavedCount, Alone, Handled, Scales;
    var kind, v, base := w.store.instances[name].kind, Reruns(w, name, envs), Strips(w.log);
    var count := CountOf(w.store.workload.value);
    BetweenAtFirst(w, name, kind);
    RerunsStayBetween(w, name, envs, kind, count, base);
    if !Held(v.store, name) {
      BetweenGone(v.store, name, kind, count, Strips(v.log) - base);
      RerunsCount(w, name, envs);
    }
  }

  /**
    Deletion under crashes. Rerun the pass with failures and lost answers at any calls: once
    the finalizer is gone the workload is bare and awake, a CronJob is resumed, and replicas
    are the saved count if in no rerun a failure fell between the committed strip and the
    committed release, and 1 otherwise. The log shows the same: one strip, or more.
   */
  lemma DeletionUnderCrashes(w: World, name: string, envs: seq<seq<Disturbance>>)
    requires Held(w.store, name) && w.store.instances[name].deleting && Handled(w.store.instances[name].kind)
    requires w.store.workload.Some?
    requires Scales(w.store.instances[name].kind) ==> SavedCount(w.store.workload.value.annotations).Success?
    requires forall k :: 0 <= k < |envs| ==> Alone(envs[k])
    ensures var kind, v := w.store.instances[name].kind, Reruns(w, name, envs);
            var broken := exists k :: 0 <= k < |envs| && BreaksBetween(Before(w, name, envs, k), name);
            !Held(v.store, name) ==>
              && v.store.workload.Some? && Bare(v.store.workload.value)
              && Strips(v.log) > Strips(w.log) && (Strips(v.log) - Strips(w.log) == 1 <==> !broken)
              && (kind == CRON_JOB ==> !v.store.workload.value.suspend)
              && (kind != CRON_JOB ==>
                    v.store.workload.value.replicas ==
                    if broken then 1 else SavedCount(w.store.workload.value.annotations).value)
  {
    hide Reruns, Strips, Breaks, BreaksBetween, Before, SavedCount, Bare, Alone;
    ReleasedByBreaks(w, name, envs);
    BreaksIff(w, name, envs);
  }

  // ----- A saved count that is not a number -----

  predicate Stuck(s: Store, name: string) {
    && Held(s, name) && s.instances[name].deleting && Scales(s.instances[name].kind)
    && s.workload.Some? && SavedCount(s.workload.value.annotations).Failure?
  }

  lemma PassStaysStuck(w: World, name: string)
    requires Alone(w.env) && Stuck(w.store, name)
    ensures Stuck(Reconcile(w, name).world.store, name)
  {
    hide Prologue, Retry;
    var p := Prologue(w, name);
    PrologueOnce(w, name);
    if p.Ready? {
      var got := GetWorkload(p.world);
      GetWorkloadFacts(p.world);
      AloneOthers(p.world, got.world);
      if got.value.Success? {
        KeysDiffer();
        var local := got.value.value;
        if !Has(local.annotations, REFERENCE) {
          var written := AloneRetry(got.world, local, Refer(name));
        }
      }
    }
  }

  /** A saved count edited into something else than a number keeps the instance for ever. */
  lemma {:induction false} NeverReleased(w: World, name: string, envs: seq<seq<Disturbance>>)
    requires Stuck(w.store, name)
    requires forall k :: 0 <= k < |envs| ==> Alone(envs[k])
    ensures Held(Reruns(w, name, envs).store, name)
    decreases |envs|
  {
    if envs == [] {
    } else {
      PassStaysStuck(w.(env := envs[0]), name);
      NeverReleased(Step(w, name, Reconciled(envs[0])), name, envs[1..]);
    }
  }
}
