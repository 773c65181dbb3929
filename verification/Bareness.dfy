/**
  What a released workload is left with. The strip removes all three annotations, but its
  guard looks at two of them only, so `expected-state` alone is enough to slip through: a
  workload recreated inside the wake-up keeps it when the finalizer goes.
 */
module Bareness {
  import opened Wrappers
  import opened Annotations
  import opened Cluster
  import opened Idling
  import opened Reconciling
  import opened Frames
  import opened Conduct
  import opened Restoring
  import Finalizers
  import FirstPass
  import Orphans
  import Settling
  import Transitions

  /** Every release of a finalizer logged after `from` found the workload, if any, bare. */
  ghost predicate DropsBare(from: nat, w: World) {
    && from <= |w.log|
    && forall k :: from <= k < |w.log| && w.log[k].op.DropFinalizer? ==> BareIn(w.log[k].before)
  }

  lemma BehavingDropsBare(w: World, v: World, kind: string)
    requires Behaves(w, v, kind, true)
    ensures DropsBare(|w.log|, v)
  {
    hide BareIn, Linked;
    assert forall k :: |w.log| <= k < |v.log| ==> v.log[k] in New(w, v);
  }

  // ----- Passes that see the workload -----

  /** What the script of a pass must not do: serve an old workload, recreate it, or hide it. */
  ghost predicate SeesWorkload(env: seq<Disturbance>) {
    CurrentWorkloads(env) && Orphans.NeverMissing(env)
  }

  lemma HonestWorkload(w: World, name: string)
    requires SeesWorkload(w.env)
    ensures MissingIsBare(w, name)
  {
    hide Prologue;
    Orphans.PrologueAddsNoScript(w, name);
    match Prologue(w, name)
    case Stopped(_, _) =>
    case Ready(v, _) =>
      assert v.env != [] ==> v.env[0] in v.env;
  }

  lemma PassDropsBare(w: World, name: string)
    requires SeesWorkload(w.env)
    ensures DropsBare(|w.log|, Reconcile(w, name).world)
  {
    hide Prologue, Reconcile, DropsBare, MissingIsBare, StartsCurrent, Behaves;
    var p := Prologue(w, name);
    var kind := if p.Ready? then p.instance.kind else "";
    HonestWorkload(w, name);
    CurrentWorkloadsStart(w, name);
    PassBehaves(w, name, kind, true);
    BehavingDropsBare(w, Reconcile(w, name).world, kind);
  }

  // ----- All runs -----

  ghost predicate Sees(e: Event) {
    e.Reconciled? ==> SeesWorkload(e.env)
  }

  lemma DropsJoin(from: nat, w: World, v: World)
    requires DropsBare(from, w) && DropsBare(|w.log|, v) && w.log <= v.log
    ensures DropsBare(from, v)
  {
  }

  lemma EventDropsBare(w: World, name: string, event: Event)
    requires Sees(event)
    ensures var v := Step(w, name, event);
            DropsBare(|w.log|, v) && w.log <= v.log
  {
    hide Reconcile, ApplyDesiredIdleState, BareIn, Linked, Transitions.Lawful;
    Transitions.EventIsLawful(w, name, event);
    match event
    case External(_) =>
    case Reconciled(env) => PassDropsBare(w.(env := env), name);
    case Kidlectl(target, idle, env) =>
      KidlectlBehaves(w.(env := env), target, idle, "", true);
      BehavingDropsBare(w.(env := env), ApplyDesiredIdleState(w.(env := env), target, idle).world, "");
  }

  /**
    Over every run whose passes are served the current workload and see no recreation, with
    failures, lost answers, lost races, edits and old instances at any call: every finalizer
    ever given up left a workload with none of the three annotations.
   */
  lemma {:induction false} ReleasedIsAlwaysBare(w: World, name: string, events: seq<Event>)
    requires forall k :: 0 <= k < |events| ==> Sees(events[k])
    ensures DropsBare(|w.log|, Run(w, name, events))
    decreases |events|
  {
    hide Step, DropsBare, Sees;
    if events == [] {
      NothingDropped(w);
    } else {
      var v := Step(w, name, events[0]);
      EventDropsBare(w, name, events[0]);
      ReleasedIsAlwaysBare(v, name, events[1..]);
      LogGrows(v, name, events[1..]);
      DropsJoin(|w.log|, v, Run(v, name, events[1..]));
    }
  }

  lemma NothingDropped(w: World)
    ensures DropsBare(|w.log|, w)
  {
  }

  lemma LogGrows(w: World, name: string, events: seq<Event>)
    ensures w.log <= Run(w, name, events).log
  {
    Transitions.RunIsLawful(w, name, events);
  }

  // ----- Recreation -----

  /** The wake-up of this copy writes nothing, or fails. */
  predicate WakesWithoutWriting(kind: string, local: Workload) {
    if kind == CRON_JOB then !local.suspend else SavedCount(local.annotations).Failure?
  }

  function WakeChange(kind: string, local: Workload): Change
    requires !WakesWithoutWriting(kind, local)
  {
    if kind == CRON_JOB then ToSuspend(false) else ToCount(SavedCount(local.annotations).value)
  }

  lemma WakeIsRetry(kind: string, w: World, local: Workload)
    requires !WakesWithoutWriting(kind, local)
    ensures Wakeup(kind, w, local) == Retry(w, local, WakeChange(kind, local), Attempts())
  {
    hide Retry;
  }

  /** What the wake-up makes of a workload created meanwhile: only `expected-state` is on it. */
  lemma FreshAfterWakeup(kind: string, local: Workload, wl: Workload)
    requires !WakesWithoutWriting(kind, local) && wl.annotations == Some(map[])
    ensures var next := Apply(WakeChange(kind, local), wl);
            && !Has(next.annotations, REFERENCE) && !Has(next.annotations, PREVIOUS) && Has(next.annotations, EXPECTED)
  {
    hide SavedCount;
    KeysDiffer();
  }

  /**
    Recreated at the wake-up's read, the workload gets `expected-state`, the strip does not
    see it, and the release leaves it behind: the pass finishes and nothing comes back to it.
   */
  lemma RecreatedKeepsExpected(w: World, name: string, local: Workload)
    requires Held(w.store, name) && w.store.instances[name].deleting
    requires !WakesWithoutWriting(w.store.instances[name].kind, local)
    ensures var r := Release(w.(env := RecreationScript()), name, w.store.instances[name], local);
            && r.end == Finished && !Held(r.world.store, name)
            && r.world.store.workload.Some? && Has(r.world.store.workload.value.annotations, EXPECTED)
            && !DropsBare(|w.log|, r.world)
  {
    hide Wakeup, Retry, RecreationScript, Recreated, Apply, WakeChange, WakesWithoutWriting;
    var inst, a, u := w.store.instances[name], Recreated(w), w.(env := RecreationScript());
    var change := WakeChange(inst.kind, local);
    RecreatedRetry(w, local, change);
    WakeIsRetry(inst.kind, u, local);
    FreshAfterWakeup(inst.kind, local, a.store.workload.value);
    var v := Rewritten(a, change);
    assert Wakeup(inst.kind, u, local) == Try(v, v.store.workload.value, Pass);
    Settling.QuietDrop(v, name);
    QuietDropIsLogged(v, name);
    var done := RemoveFinalizer(v, name, inst).world;
    assert done.log[|v.log|].op == DropFinalizer && !BareIn(done.log[|v.log|].before);
  }

  lemma QuietDropIsLogged(w: World, name: string)
    requires w.env == [] && Held(w.store, name)
    ensures var v := RemoveFinalizer(w, name, w.store.instances[name]).world;
            |v.log| == |w.log| + 1 && v.log[|w.log|].op == DropFinalizer && v.log[|w.log|].before == w.store
  {
    var inst := w.store.instances[name];
    forall x {
      Finalizers.RemovedMembers(inst.finalizers, Finalizers.KIDLE, x);
    }
    assert Admits(inst, inst.(finalizers := Finalizers.Removed(inst.finalizers, Finalizers.KIDLE)));
  }

  lemma SilentWakeReleasesBare(w: World, name: string, inst: Instance, local: Workload)
    requires Handled(inst.kind) && Has(local.annotations, REFERENCE) && WakesWithoutWriting(inst.kind, local)
    ensures DropsBare(|w.log|, Release(w, name, inst, local).world)
  {
    hide RemoveAnnotations, DropsBare, RemoveFinalizer, SavedCount, Behaves;
    NothingBehaves(w, inst.kind, true);
    StripAndDropBehave(inst.kind, true, w, name, inst, local);
    BehavingDropsBare(w, Release(w, name, inst, local).world, inst.kind);
  }

  /**
    The exact law. From a marked copy of a held, deleted instance of a handled kind, no script
    at all can make the release leave an annotation behind if and only if the wake-up has
    nothing to write: a CronJob that is running, or a saved count that is not a number.
   */
  lemma ReleasesBareIff(w: World, name: string, local: Workload)
    requires Held(w.store, name) && w.store.instances[name].deleting && Handled(w.store.instances[name].kind)
    requires Has(local.annotations, REFERENCE)
    ensures var inst := w.store.instances[name];
            (forall env :: DropsBare(|w.log|, Release(w.(env := env), name, inst, local).world)) <==>
            WakesWithoutWriting(inst.kind, local)
  {
    hide Release, DropsBare, WakesWithoutWriting;
    var inst := w.store.instances[name];
    if WakesWithoutWriting(inst.kind, local) {
      forall env
        ensures DropsBare(|w.log|, Release(w.(env := env), name, inst, local).world)
      {
        SilentWakeReleasesBare(w.(env := env), name, inst, local);
      }
    } else {
      RecreatedKeepsExpected(w, name, local);
    }
  }

  /** Nine calls, the read of the workload, and then the recreation. */
  function RecreatedInPass(): seq<Disturbance> {
    FirstPass.Calls(9) + ([Disturbance([], Served)] + RecreationScript())
  }

  /** The same as a whole pass over a marked workload, from the instance's read on. */
  lemma RecreatedPassKeepsExpected(w: World, name: string)
    requires FirstPass.Fresh(w.store, name) && w.store.instances[name].deleting
    requires Handled(w.store.instances[name].kind)
    requires w.store.workload.Some? && Has(w.store.workload.value.annotations, REFERENCE)
    requires !WakesWithoutWriting(w.store.instances[name].kind, w.store.workload.value)
    ensures var r := Reconcile(w.(env := RecreatedInPass()), name);
            && r.end == Finished && !Held(r.world.store, name)
            && r.world.store.workload.Some? && Has(r.world.store.workload.value.annotations, EXPECTED)
  {
    hide Prologue, Release, RecreationScript, FirstPass.Calls, WakesWithoutWriting;
    var inst, local := w.store.instances[name], w.store.workload.value;
    var rest := [Disturbance([], Served)] + RecreationScript();
    FirstPass.NineCalls(w.(env := RecreatedInPass()), name, rest);
    var v := Prologue(w.(env := RecreatedInPass()), name).world;
    var u := v.(env := RecreationScript());
    assert GetWorkload(v) == Reply(u, Success(local)) by {
      assert rest[1..] == RecreationScript();
    }
    RecreatedKeepsExpected(v, name, local);
  }
}
