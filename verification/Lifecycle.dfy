/**
  Whole lives without interference: attach, idle and wake any number of times, by hand or by
  schedule, and delete.
 */
module Lifecycle {
  import opened Wrappers
  import opened Decimal
  import opened Annotations
  import opened Cluster
  import opened Idling
  import opened Owned
  import opened Reconciling
  import opened Settling
  import Schedules

  // ----- A workload under management -----

  /** No kidle annotation, and awake. */
  predicate Untouched(kind: string, o: Workload) {
    && Bare(o)
    && if kind == CRON_JOB then !o.suspend else o.replicas > 0
  }

  predicate Awake(kind: string, o: Workload, wl: Workload) {
    if kind == CRON_JOB then !wl.suspend
    else
      && wl.replicas == o.replicas
      && (Has(wl.annotations, PREVIOUS) ==> Get(wl.annotations, PREVIOUS) == Some(Itoa(o.replicas)))
  }

  predicate Asleep(kind: string, o: Workload, wl: Workload) {
    if kind == CRON_JOB then wl.suspend
    else wl.replicas == 0 && Get(wl.annotations, PREVIOUS) == Some(Itoa(o.replicas))
  }

  /** What belongs to others is as it was in the original `o`. */
  predicate Preserves(kind: string, o: Workload, wl: Workload) {
    && Foreign(View(wl.annotations)) == Foreign(View(o.annotations))
    && wl.rest == o.rest
    && (if kind == CRON_JOB then wl.replicas == o.replicas else wl.suspend == o.suspend)
  }

  predicate Managed(kind: string, o: Workload, wl: Workload) {
    Preserves(kind, o, wl) && (Awake(kind, o, wl) || Asleep(kind, o, wl))
  }

  lemma UntouchedIsManaged(kind: string, o: Workload)
    requires Untouched(kind, o)
    ensures Managed(kind, o, o) && Awake(kind, o, o)
  {
  }

  lemma MarkedIsManaged(kind: string, name: string, o: Workload, wl: Workload)
    requires Managed(kind, o, wl)
    ensures Managed(kind, o, Marked(name, wl)) && Has(Marked(name, wl).annotations, REFERENCE)
    ensures Get(Marked(name, wl).annotations, PREVIOUS) == Get(wl.annotations, PREVIOUS)
    ensures Awake(kind, o, Marked(name, wl)) == Awake(kind, o, wl)
    ensures Asleep(kind, o, Marked(name, wl)) == Asleep(kind, o, wl)
  {
    KeysDiffer();
    assert Foreign(View(Marked(name, wl).annotations)) == Foreign(View(wl.annotations));
  }

  lemma WakingRestores(kind: string, o: Workload, wl: Workload)
    requires Handled(kind) && Untouched(kind, o) && Preserves(kind, o, wl) && Asleep(kind, o, wl)
    ensures Preserves(kind, o, Woken(kind, wl)) && Awake(kind, o, Woken(kind, wl))
    ensures Has(Woken(kind, wl).annotations, REFERENCE) == Has(wl.annotations, REFERENCE)
    ensures Has(Woken(kind, wl).annotations, PREVIOUS) == Has(wl.annotations, PREVIOUS)
  {
    KeysDiffer();
    AtoiItoa(o.replicas);
    Wrap32Congruent(o.replicas);
    assert Foreign(View(Woken(kind, wl).annotations)) == Foreign(View(wl.annotations));
  }

  lemma SleepingSaves(kind: string, o: Workload, wl: Workload)
    requires Handled(kind) && Preserves(kind, o, wl) && Awake(kind, o, wl)
    ensures Preserves(kind, o, Slept(kind, wl)) && Asleep(kind, o, Slept(kind, wl))
    ensures Has(Slept(kind, wl).annotations, REFERENCE) == Has(wl.annotations, REFERENCE)
    ensures Has(wl.annotations, PREVIOUS) ==> Has(Slept(kind, wl).annotations, PREVIOUS)
  {
    KeysDiffer();
    assert Foreign(View(Slept(kind, wl).annotations)) == Foreign(View(wl.annotations));
  }

  lemma ManagedWakes(kind: string, o: Workload, wl: Workload)
    requires Managed(kind, o, wl)
    ensures Wakes(kind, wl)
  {
    AtoiItoa(o.replicas);
  }

  /** A pass takes a managed workload to where the flag says, and loses nothing of the original. */
  lemma SettleFollowsFlag(kind: string, idle: bool, name: string, o: Workload, wl: Workload)
    requires Handled(kind) && Untouched(kind, o) && Managed(kind, o, wl)
    ensures var after := Settle(kind, idle, name, wl);
            && Preserves(kind, o, after) && Has(after.annotations, REFERENCE)
            && (if idle then Asleep(kind, o, after) else Awake(kind, o, after))
            && (Has(wl.annotations, PREVIOUS) ==> Has(after.annotations, PREVIOUS))
            && (idle && Scales(kind) ==> Has(after.annotations, PREVIOUS))
    ensures Wakes(kind, wl)
  {
    var m := Marked(name, wl);
    MarkedIsManaged(kind, name, o, wl);
    ManagedWakes(kind, o, wl);
    if NeedWakeup(kind, m, idle) {
      WakingRestores(kind, o, m);
    } else if NeedIdle(kind, m, idle) {
      SleepingSaves(kind, o, m);
    }
  }

  // ----- Steps between passes -----

  /** An instance that is not being deleted, over a managed workload. */
  ghost predicate Tended(s: Store, name: string, o: Workload) {
    && Workable(s, name) && !s.instances[name].deleting && s.workload.Some?
    && Untouched(s.instances[name].kind, o)
    && Managed(s.instances[name].kind, o, s.workload.value)
  }

  predicate Follows(s: Store, name: string, o: Workload)
    requires name in s.instances && s.workload.Some?
  {
    var kind, wl := s.instances[name].kind, s.workload.value;
    if s.instances[name].idle then Asleep(kind, o, wl) else Awake(kind, o, wl)
  }

  predicate Saved(s: Store) {
    s.workload.Some? && Has(s.workload.value.annotations, PREVIOUS)
  }

  lemma PlainManaged(kind: string, o: Workload, wl: Workload)
    ensures Managed(kind, o, wl) == Managed(kind, o, Plain(wl))
    ensures Awake(kind, o, wl) == Awake(kind, o, Plain(wl)) && Asleep(kind, o, wl) == Asleep(kind, o, Plain(wl))
    ensures Preserves(kind, o, wl) == Preserves(kind, o, Plain(wl))
  {
  }

  /** What an undisturbed pass over a tended store leads to. */
  ghost predicate PassedTo(w: World, v: World, name: string, o: Workload) {
    && Tended(w.store, name, o) && Tended(v.store, name, o)
    && Follows(v.store, name, o) && Holds(v.store.instances[name])
    && SameSpec(v.store.instances[name], w.store.instances[name])
    && v.store.instances - {name} == w.store.instances - {name}
    && (Saved(w.store) ==> Saved(v.store))
    && (w.store.instances[name].idle && Scales(w.store.instances[name].kind) ==> Saved(v.store))
    && v.image == w.image
    && Schedules.RoleIntact(Schedules.Content(w.store.children), name)
    && Schedules.Content(v.store.children) ==
         Schedules.Settled(Schedules.Content(w.store.children), w.image, name, v.store.instances[name])
  }

  lemma PassTends(w: World, name: string, o: Workload)
    requires Tended(w.store, name, o)
    ensures PassedTo(w, Step(w, name, Reconciled([])), name, o)
  {
    hide Reconcile, Settle;
    var u := w.(env := []);
    var inst, wl := w.store.instances[name], w.store.workload.value;
    QuietPass(u, name);
    StaysWorkable(u, name);
    PlainManaged(inst.kind, o, wl);
    SettleFollowsFlag(inst.kind, inst.idle, name, o, Plain(wl));
    PlainManaged(inst.kind, o, Reconcile(u, name).world.store.workload.value);
  }

  lemma FlipTends(w: World, name: string, o: Workload, idle: bool)
    requires Tended(w.store, name, o)
    ensures var v := Step(w, name, Kidlectl(name, idle, []));
            && Tended(v.store, name, o) && v.store.instances[name].idle == idle
            && (Holds(w.store.instances[name]) ==> Holds(v.store.instances[name]))
            && v.store.instances[name].kind == w.store.instances[name].kind
            && v.store.instances[name].idling == w.store.instances[name].idling
            && v.store.instances[name].waking == w.store.instances[name].waking
            && v.store.instances - {name} == w.store.instances - {name}
            && v.store.workload == w.store.workload && v.store.children == w.store.children
            && v.image == w.image
  {
  }

  // ----- The lifecycle -----

  lemma {:induction false} RunJoins(w: World, name: string, a: seq<Event>, b: seq<Event>)
    ensures Run(w, name, a + b) == Run(Run(w, name, a), name, b)
    decreases |a|
  {
    if a == [] {
      assert a + b == b;
    } else {
      assert (a + b)[1..] == a[1..] + b;
      RunJoins(Step(w, name, a[0]), name, a[1..], b);
    }
  }

  /** Idle, let the operator work, wake, let it work. */
  function Cycle(name: string): seq<Event> {
    [Kidlectl(name, true, []), Reconciled([]), Kidlectl(name, false, []), Reconciled([])]
  }

  function Cycles(name: string, k: nat): seq<Event> {
    if k == 0 then [] else Cycles(name, k - 1) + Cycle(name)
  }

  function Life(name: string, k: nat): seq<Event> {
    [Reconciled([])] + Cycles(name, k) + [External(DeleteInstance(name)), Reconciled([])]
  }

  /** Attached, not being deleted, flag down, awake. */
  ghost predicate Rested(s: Store, name: string, o: Workload, kind: string) {
    && Tended(s, name, o) && Holds(s.instances[name]) && s.instances[name].kind == kind
    && !s.instances[name].idle && Follows(s, name, o)
  }

  lemma CycleTends(w: World, name: string, o: Workload, kind: string)
    requires Rested(w.store, name, o, kind)
    ensures var v := Run(w, name, Cycle(name));
            Rested(v.store, name, o, kind) && (Scales(kind) ==> Saved(v.store))
  {
    hide Step;
    var a := Step(w, name, Kidlectl(name, true, []));
    FlipTends(w, name, o, true);
    var b := Step(a, name, Reconciled([]));
    PassTends(a, name, o);
    var c := Step(b, name, Kidlectl(name, false, []));
    FlipTends(b, name, o, false);
    PassTends(c, name, o);
    var e := Cycle(name);
    assert Run(w, name, e) == Run(a, name, e[1..]);
    assert Run(a, name, e[1..]) == Run(b, name, e[1..][1..]);
    assert Run(b, name, e[2..]) == Run(c, name, e[2..][1..]);
    assert Run(c, name, e[3..]) == Run(Step(c, name, Reconciled([])), name, e[3..][1..]);
    assert e[1..][1..] == e[2..] && e[2..][1..] == e[3..] && e[3..][1..] == [];
  }

  lemma {:induction false} CyclesTend(w: World, name: string, o: Workload, kind: string, k: nat)
    requires Rested(w.store, name, o, kind)
    ensures Rested(Run(w, name, Cycles(name, k)).store, name, o, kind)
    ensures k > 0 && Scales(kind) ==> Saved(Run(w, name, Cycles(name, k)).store)
    decreases k
  {
    hide Step, Tended, Follows, Saved;
    if k == 0 {
    } else {
      var u := Run(w, name, Cycles(name, k - 1));
      CyclesTend(w, name, o, kind, k - 1);
      CycleTends(u, name, o, kind);
      OneCycleMore(w, name, k - 1);
    }
  }

  lemma OneCycleMore(w: World, name: string, k: nat)
    ensures Run(w, name, Cycles(name, k + 1)) == Run(Run(w, name, Cycles(name, k)), name, Cycle(name))
  {
    RunJoins(w, name, Cycles(name, k), Cycle(name));
  }

  /** The released workload: bare, awake, and otherwise the original. */
  predicate GivenBack(kind: string, o: Workload, wl: Workload, after: Workload) {
    && View(after.annotations) == View(o.annotations) && after.rest == o.rest && after.suspend == o.suspend
    && after.replicas == if Scales(kind) && !Has(wl.annotations, PREVIOUS) then 1 else o.replicas
  }

  lemma ReleaseGivesBack(kind: string, name: string, o: Workload, wl: Workload, after: Workload)
    requires Handled(kind) && Untouched(kind, o) && Managed(kind, o, wl)
    requires Plain(after) == Released(kind, name, Plain(wl))
    ensures GivenBack(kind, o, wl, after)
  {
    ManagedWakes(kind, o, wl);
    ReleasedIsBare(kind, name, Plain(wl));
    AtoiItoa(o.replicas);
    Wrap32Congruent(o.replicas);
    assert Foreign(View(Plain(after).annotations)) == View(after.annotations);
    assert Foreign(View(o.annotations)) == View(o.annotations);
  }

  lemma DeletionReleases(w: World, name: string, o: Workload)
    requires Tended(w.store, name, o) && Holds(w.store.instances[name])
    ensures var v := Step(Step(w, name, External(DeleteInstance(name))), name, Reconciled([]));
            && !Held(v.store, name) && v.store.workload.Some?
            && GivenBack(w.store.instances[name].kind, o, w.store.workload.value, v.store.workload.value)
  {
    var a := Step(w, name, External(DeleteInstance(name)));
    var kind, wl := w.store.instances[name].kind, w.store.workload.value;
    ManagedWakes(kind, o, wl);
    QuietDeletion(a.(env := []), name);
    ReleaseGivesBack(kind, name, o, wl, Step(a, name, Reconciled([])).store.workload.value);
  }

  /**
    Attach, any number of idle and wake cycles, delete: the workload gets back exactly its
    annotations (nil and empty alike) and its spec, except that a workload never put to sleep
    is set to one replica.
   */
  lemma LifecycleIdentity(w: World, name: string, k: nat)
    requires Workable(w.store, name) && !w.store.instances[name].deleting && !w.store.instances[name].idle
    requires w.store.workload.Some? && Untouched(w.store.instances[name].kind, w.store.workload.value)
    ensures var o, kind := w.store.workload.value, w.store.instances[name].kind;
            var v := Run(w, name, Life(name, k));
            && !Held(v.store, name) && v.store.workload.Some?
            && View(v.store.workload.value.annotations) == View(o.annotations)
            && v.store.workload.value.rest == o.rest
            && v.store.workload.value.suspend == o.suspend
            && (v.store.workload.value.replicas == o.replicas <==> kind == CRON_JOB || k > 0 || o.replicas == 1)
            && (k == 0 && kind != CRON_JOB ==> v.store.workload.value.replicas == 1)
  {
    var o := w.store.workload.value;
    UntouchedIsManaged(w.store.instances[name].kind, o);
    var a := Step(w, name, Reconciled([]));
    PassTends(w, name, o);
    var b := Run(a, name, Cycles(name, k));
    CyclesTend(a, name, o, w.store.instances[name].kind, k);
    if k == 0 {
      AttachSavesNothing(w, name, o);
    }
    DeletionReleases(b, name, o);
    LifeUnfolds(w, name, k);
  }

  lemma LifeUnfolds(w: World, name: string, k: nat)
    ensures var b := Run(Step(w, name, Reconciled([])), name, Cycles(name, k));
            Run(w, name, Life(name, k)) == Step(Step(b, name, External(DeleteInstance(name))), name, Reconciled([]))
  {
    var a := Step(w, name, Reconciled([]));
    var b := Run(a, name, Cycles(name, k));
    var tail := [External(DeleteInstance(name)), Reconciled([])];
    RunJoins(w, name, [Reconciled([])] + Cycles(name, k), tail);
    RunJoins(w, name, [Reconciled([])], Cycles(name, k));
    assert [Reconciled([])][1..] == [];
    assert Run(w, name, [Reconciled([])]) == Run(a, name, []) == a;
    var c := Step(b, name, tail[0]);
    assert tail[1..] == [Reconciled([])];
    assert Run(b, name, tail) == Run(c, name, tail[1..]) == Run(Step(c, name, Reconciled([])), name, []);
  }

  lemma AttachSavesNothing(w: World, name: string, o: Workload)
    requires Tended(w.store, name, o) && w.store.workload == Some(o) && !w.store.instances[name].idle
    ensures Scales(w.store.instances[name].kind) ==> !Saved(Step(w, name, Reconciled([])).store)
  {
    QuietPass(w.(env := []), name);
    KeysDiffer();
    var after := Step(w, name, Reconciled([])).store.workload.value;
    assert Has(after.annotations, PREVIOUS) == Has(Plain(after).annotations, PREVIOUS);
  }

  // ----- Scheduled runs -----

  /** A CronJob fires: its container runs `kidlectl` with the arguments it was given. */
  function Fire(w: World, name: string, key: string): World {
    if key !in w.store.children.jobs then w
    else
      var args := Lookup(w.store.children.jobs[key].containers, CONTAINER).args;
      if |args| != 2 || (args[0] != IDLE && args[0] != WAKEUP) then w
      else Step(w, name, Kidlectl(args[1], args[0] == IDLE, []))
  }

  /** Each fire of the idle or the wake-up CronJob is followed by an undisturbed pass. */
  function RunFires(w: World, name: string, fires: seq<bool>): World
    decreases |fires|
  {
    if fires == [] then w
    else
      RunFires(FireThenPass(w, name, fires[0]), name, fires[1..])
  }

  /** Both CronJobs are there with the desired values. */
  predicate Scheduled(s: Store, image: string, name: string)
    requires name in s.instances
  {
    var inst, jobs := s.instances[name], Schedules.Content(s.children).jobs;
    && inst.idling.Some? && inst.waking.Some?
    && Schedules.JobMatches(jobs, image, name, IDLE, inst.idling)
    && Schedules.JobMatches(jobs, image, name, WAKEUP, inst.waking)
    && Intact(s, name)
  }

  /** Single `kidlectl` containers, wherever the two CronJobs exist. */
  predicate Intact(s: Store, name: string) {
    Schedules.Single(Schedules.Content(s.children).jobs, name)
  }

  lemma PassedSchedules(w: World, v: World, name: string, o: Workload)
    requires PassedTo(w, v, name, o) && Intact(w.store, name)
    requires w.store.instances[name].idling.Some? && w.store.instances[name].waking.Some?
    ensures Scheduled(v.store, w.image, name)
  {
    var inst, jobs := v.store.instances[name], Schedules.Content(w.store.children).jobs;
    Schedules.SettledJobsMatch(jobs, w.image, name, inst);
    Schedules.SettledJobsIntact(jobs, w.image, name, inst);
  }

  /** The first undisturbed pass of an instance with both schedules sets the CronJobs up. */
  lemma PassSchedules(w: World, name: string, o: Workload)
    requires Tended(w.store, name, o) && Intact(w.store, name)
    requires w.store.instances[name].idling.Some? && w.store.instances[name].waking.Some?
    ensures var v := Step(w, name, Reconciled([]));
            name in v.store.instances && Scheduled(v.store, w.image, name)
  {
    PassTends(w, name, o);
    PassedSchedules(w, Step(w, name, Reconciled([])), name, o);
  }

  lemma FireFlips(w: World, name: string, idle: bool)
    requires name in w.store.instances && Scheduled(w.store, w.image, name)
    ensures Fire(w, name, ChildName(name, if idle then IDLE else WAKEUP)) ==
            Step(w, name, Kidlectl(name, idle, []))
  {
    var key := ChildName(name, if idle then IDLE else WAKEUP);
    assert Schedules.Content(w.store.children).jobs[key].containers == w.store.children.jobs[key].containers;
  }

  /** What a fire and the pass after it lead to. */
  ghost predicate FiredTo(w: World, v: World, name: string, o: Workload, idle: bool) {
    && name in w.store.instances && Tended(v.store, name, o) && Scheduled(v.store, v.image, name)
    && v.store.instances - {name} == w.store.instances - {name}
    && v.store.instances[name].kind == w.store.instances[name].kind
    && v.store.instances[name].idle == idle && Follows(v.store, name, o)
  }

  function FireThenPass(w: World, name: string, idle: bool): World {
    Step(Fire(w, name, ChildName(name, if idle then IDLE else WAKEUP)), name, Reconciled([]))
  }

  lemma OneFire(w: World, name: string, o: Workload, idle: bool)
    requires Tended(w.store, name, o) && Scheduled(w.store, w.image, name)
    ensures FiredTo(w, FireThenPass(w, name, idle), name, o, idle)
  {
    FireFlips(w, name, idle);
    var a := Step(w, name, Kidlectl(name, idle, []));
    FlipTends(w, name, o, idle);
    PassTends(a, name, o);
    PassedSchedules(a, Step(a, name, Reconciled([])), name, o);
  }

  lemma FiresJoin(u: World, v: World, w: World, name: string, o: Workload, first: bool, last: bool)
    requires FiredTo(u, v, name, o, first) && FiredTo(v, w, name, o, last)
    ensures FiredTo(u, w, name, o, last)
  {
  }

  /**
    For every sequence of fires of the two CronJobs the operator made, each followed by an
    undisturbed pass: the workload sleeps if and only if the last fire was the idle one, an
    awake workload has its original count, and no other instance changes.
   */
  lemma {:induction false} ScheduledRuns(w: World, name: string, o: Workload, fires: seq<bool>)
    requires Tended(w.store, name, o) && Scheduled(w.store, w.image, name)
    ensures fires == [] ==> RunFires(w, name, fires) == w
    ensures fires != [] ==> FiredTo(w, RunFires(w, name, fires), name, o, fires[|fires| - 1])
    decreases |fires|
  {
    hide FireThenPass, Scheduled;
    if fires == [] {
    } else {
      var v := FireThenPass(w, name, fires[0]);
      OneFire(w, name, o, fires[0]);
      ScheduledRuns(v, name, o, fires[1..]);
      if fires[1..] != [] {
        FiresJoin(w, v, RunFires(v, name, fires[1..]), name, o, fires[0], fires[|fires| - 1]);
      }
    }
  }
}
