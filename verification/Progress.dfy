/**
  Getting there in spite of failures. A retried change survives as many lost races as it has
  attempts to spare. When calls fail at any points of any number of passes, one undisturbed
  pass afterwards still finishes a deletion or makes the workload follow the flag, exactly
  when it would have done so at the start.
 */
module Progress {
  import opened Wrappers
  import opened Decimal
  import opened Annotations
  import opened Cluster
  import opened Idling
  import opened Owned
  import opened Reconciling
  import opened Frames
  import opened Deletion
  import opened Settling
  import Finalizers
  import Orphans
  import Schedules
  import Transitions

  // ----- How many lost races a change survives -----

  /** Where edits leave a workload that was there: still there, and touched. */
  function Touched(edits: seq<Edit>, present: bool, touched: bool): (bool, bool) {
    if edits == [] then (present, touched)
    else
      match edits[0]
      case EditWorkload(_, _, _, _) => Touched(edits[1..], present, touched || present)
      case DeleteWorkload => Touched(edits[1..], false, true)
      case CreateWorkload(_, _, _, _) => Touched(edits[1..], true, touched || !present)
      case _ => Touched(edits[1..], present, touched)
  }

  /** Edits that beat an update to it: there is a workload, but not the version that was read. */
  predicate Beats(edits: seq<Edit>) {
    Touched(edits, true, false) == (true, true)
  }

  lemma {:induction false} TouchedIs(w: World, edits: seq<Edit>, touched: bool, version: nat)
    requires version <= w.store.revision
    requires w.store.workload.Some? ==> (touched <==> w.store.workload.value.version != version)
    requires w.store.workload.None? ==> touched
    ensures var s, end := EditAll(w, edits).store, Touched(edits, w.store.workload.Some?, touched);
            && s.workload.Some? == end.0
            && (s.workload.Some? ==> (end.1 <==> s.workload.value.version != version))
    decreases |edits|
  {
    if edits == [] {
    } else {
      var v := Commit(w, Outside(edits[0]), ApplyEdit(w.store, edits[0]));
      TouchedIs(v, edits[1..], if edits[0].EditWorkload? then touched || w.store.workload.Some?
                               else if edits[0].DeleteWorkload? then true
                               else if edits[0].CreateWorkload? then touched || w.store.workload.None?
                               else touched, version);
    }
  }

  /** Between the read and the update of one attempt after the other, others edit. */
  function Races(rounds: seq<seq<Edit>>): seq<Disturbance> {
    if rounds == [] then []
    else [Disturbance([], Served), Disturbance(rounds[0], Served)] + Races(rounds[1..])
  }

  lemma RaceLost(w: World, local: Workload, change: Change, rounds: seq<seq<Edit>>)
    requires w.store.workload.Some? && rounds != [] && Beats(rounds[0]) && w.env == Races(rounds)
    ensures var t := Attempt(w, local, change);
            t.outcome == Fail(Conflict) && t.world.env == Races(rounds[1..]) && t.world.store.workload.Some?
  {
    hide EditAll, Touched;
    var got, rest := GetWorkload(w), w.env[1..];
    assert rest[0] == Disturbance(rounds[0], Served) && rest[1..] == Races(rounds[1..]);
    NoEdits(w.(env := rest));
    assert got.world == w.(env := rest) && got.value == Success(w.store.workload.value);
    var v := got.world.(env := rest[1..]);
    TouchedIs(v, rounds[0], false, w.store.workload.value.version);
    EditAllFacts(v, rounds[0]);
  }

  lemma NoEdits(w: World)
    ensures EditAll(w, []) == w
  {
  }

  /** A retried change survives exactly as many lost races as it has attempts to spare. */
  lemma {:induction false} SurvivesRacesIff(
    w: World, local: Workload, change: Change, attempts: nat, rounds: seq<seq<Edit>>)
    requires w.store.workload.Some? && w.env == Races(rounds)
    requires forall k :: 0 <= k < |rounds| ==> Beats(rounds[k])
    ensures var t := Retry(w, local, change, attempts);
            t.outcome == if |rounds| < attempts then Pass else Fail(Conflict)
    decreases attempts
  {
    hide Attempt, Beats;
    if attempts == 0 {
    } else {
      if rounds == [] {
        QuietAttempt(w, local, change);
      } else {
        RaceLost(w, local, change, rounds);
        var first := Attempt(w, local, change);
        SurvivesRacesIff(first.world, first.local, change, attempts - 1, rounds[1..]);
      }
    }
  }

  lemma QuietAttempt(w: World, local: Workload, change: Change)
    requires w.env == [] && w.store.workload.Some?
    ensures Attempt(w, local, change).outcome == Pass
  {
  }

  /** Idling rides out four races and gives up, with nothing written, after the fifth. */
  lemma IdleSurvivesFour(kind: string, w: World, local: Workload, rounds: seq<seq<Edit>>)
    requires Scales(kind) && w.store.workload.Some? && w.env == Races(rounds)
    requires forall k :: 0 <= k < |rounds| ==> Beats(rounds[k])
    ensures Idle(kind, w, local).outcome == if |rounds| <= 4 then Pass else Fail(Conflict)
    ensures |rounds| > 4 ==> ByOthers(w, Idle(kind, w, local).world)
  {
    hide Retry, ByOthers, OnlyEdits, Beats, Races, Rewritten;
    SurvivesRacesIff(w, local, ToZero, Attempts(), rounds);
    var a := RetryIsAtomic(w, local, ToZero, Attempts());
  }

  // ----- The Role keeps its rule -----

  /** Still nobody else, and the Role is still one that a pass can work with. */
  ghost predicate Kept(w: World, v: World, name: string) {
    Alone(v.env) && (Schedules.RoleIntact(w.store.children, name) ==> Schedules.RoleIntact(v.store.children, name))
  }

  lemma MutateKeeps(w: World, change: Write, name: string)
    requires Alone(w.env)
    requires var next := change(w.store.children, w.store.revision + 1);
             next.Success? && Schedules.RoleIntact(w.store.children, name) ==> Schedules.RoleIntact(next.value, name)
    ensures Kept(w, Mutate(w, change).world, name)
  {
    AloneArrival(w);
  }

  lemma RBACKeeps(w: World, name: string)
    requires Alone(w.env)
    ensures Kept(w, EnsureAccount(w, name).world, name)
    ensures Kept(w, EnsureRole(w, name).world, name)
    ensures Kept(w, EnsureBinding(w, name).world, name)
  {
    hide Read, Mutate;
    var sa, role, rb := ChildName(name, "sa"), ChildName(name, "role"), ChildName(name, "rb");
    Schedules.AloneRead(w, FindAccount(sa));
    MutateKeeps(Read(w, FindAccount(sa)).world, CreateAccount(sa), name);
    Schedules.AloneRead(w, FindIn(Bindings(), rb));
    MutateKeeps(Read(w, FindIn(Bindings(), rb)).world, CreateBinding(rb, Binding(sa, role)), name);
    var got := Read(w, FindIn(Roles(), role));
    Schedules.AloneRead(w, FindIn(Roles(), role));
    MutateKeeps(got.world, CreateRole(role, Role(0, [Policy(name)])), name);
    if got.value.Success? && got.value.value.rules != [] {
      var current := got.value.value;
      MutateKeeps(got.world, UpdateRole(role, current.(rules := current.rules[0 := Policy(name)])), name);
    }
  }

  lemma JobKeeps(w: World, name: string, command: string, schedule: Option<string>)
    requires |command| <= 6 && Alone(w.env)
    ensures Kept(w, ReconcileJob(w, name, command, schedule).world, name)
  {
    hide Read, Mutate;
    var key := ChildName(name, command);
    var got := Read(w, FindIn(Jobs(), key));
    Schedules.AloneRead(w, FindIn(Jobs(), key));
    MutateKeeps(got.world, DeleteJob(key), name);
    if schedule.Some? {
      var v := JobValues(name, schedule.value, command);
      MutateKeeps(got.world, CreateJob(key, SetValues(NewJob(), w.image, v)), name);
      if got.value.Success? {
        MutateKeeps(got.world, UpdateJob(key, SetValues(got.value.value, w.image, v)), name);
      }
    }
  }

  lemma ChildrenKeep(w: World, name: string, inst: Instance)
    requires Alone(w.env)
    ensures Kept(w, ReconcileCronStrategies(w, name, inst).world, name)
  {
    hide EnsureAccount, EnsureRole, EnsureBinding, ReconcileJob, Schedules.RoleIntact;
    var a := EnsureAccount(w, name);
    RBACKeeps(w, name);
    var b := EnsureRole(a.world, name);
    RBACKeeps(a.world, name);
    var c := EnsureBinding(b.world, name);
    RBACKeeps(b.world, name);
    var d := ReconcileJob(c.world, name, IDLE, inst.idling);
    JobKeeps(c.world, name, IDLE, inst.idling);
    JobKeeps(d.world, name, WAKEUP, inst.waking);
  }

  // ----- The rest of a pass does not touch owned objects -----

  ghost predicate SameChildren(w: World, v: World) {
    Alone(v.env) && v.store.children == w.store.children
  }

  lemma {:induction false} ChainKeepsChildren(s: Store, entries: seq<Entry>, t: Store, name: string)
    requires Linked(s, entries, t)
    requires forall e :: e in entries ==> Transitions.Lawful(e, name) && !e.op.WriteChild? && !e.op.Outside?
    ensures t.children == s.children
    decreases |entries|
  {
    hide Transitions.Lawful;
    if entries == [] {
    } else {
      var k := |entries| - 1;
      assert entries[k] in entries;
      ChainKeepsChildren(s, entries[..k], entries[k].before, name);
      Transitions.WritesKeepChildren(entries[k], name);
    }
  }

  lemma StridesKeepChildren(w: World, v: World, name: string)
    requires Alone(w.env) && Transitions.Strides(w, v, name)
    ensures SameChildren(w, v)
  {
    hide Linked, Transitions.Lawful;
    ChainKeepsChildren(w.store, New(w, v), v.store, name);
  }

  lemma PrologueKeepsRole(w: World, name: string)
    requires Alone(w.env)
    ensures Kept(w, Prologue(w, name).world, name)
  {
    hide GetInstance, EnsureFinalizer, ReconcileCronStrategies, InstanceSnapshot, Transitions.Strides, ByOthers,
      OnlyEdits, Schedules.RoleIntact;
    var got := GetInstance(w, name);
    Orphans.GetInstanceFacts(w, name);
    Transitions.EditsStride(w, got.world, name);
    StridesKeepChildren(w, got.world, name);
    if got.value.Success? {
      var marked := EnsureFinalizer(got.world, name, got.value.value);
      Transitions.TakeSteps(got.world, name, got.value.value);
      StridesKeepChildren(got.world, marked.world, name);
      if marked.value.Success? {
        ChildrenKeep(marked.world, name, marked.value.value);
      }
    }
  }

  lemma PassKeepsRole(w: World, name: string)
    requires Alone(w.env)
    ensures Kept(w, Reconcile(w, name).world, name)
  {
    hide Prologue, Proceed, InstanceSnapshot, Transitions.Steps, Transitions.Strides, Schedules.RoleIntact;
    PrologueKeepsRole(w, name);
    Transitions.PrologueSteps(w, name);
    match Prologue(w, name)
    case Stopped(_, _) =>
    case Ready(v, inst) =>
      Transitions.ProceedSteps(v, name, inst);
      StridesKeepChildren(v, Proceed(v, name, inst).world, name);
  }

  lemma {:induction false} RerunsKeepRole(w: World, name: string, envs: seq<seq<Disturbance>>)
    requires Schedules.RoleIntact(w.store.children, name)
    requires forall k :: 0 <= k < |envs| ==> Alone(envs[k])
    ensures Schedules.RoleIntact(Reruns(w, name, envs).store.children, name)
    decreases |envs|
  {
    hide Reconcile, Schedules.RoleIntact;
    if envs == [] {
    } else {
      PassKeepsRole(w.(env := envs[0]), name);
      RerunsKeepRole(Step(w, name, Reconciled(envs[0])), name, envs[1..]);
    }
  }

  // ----- Deletion ends -----

  /** Reruns are a run of passes. */
  function Passes(envs: seq<seq<Disturbance>>): seq<Event> {
    if envs == [] then [] else [Reconciled(envs[0])] + Passes(envs[1..])
  }

  lemma {:induction false} RerunsAreRuns(w: World, name: string, envs: seq<seq<Disturbance>>)
    ensures Reruns(w, name, envs) == Run(w, name, Passes(envs))
    decreases |envs|
  {
    hide Step;
    if envs == [] {
    } else {
      assert Passes(envs)[1..] == Passes(envs[1..]);
      RerunsAreRuns(Step(w, name, Reconciled(envs[0])), name, envs[1..]);
    }
  }

  /** A Role without rules keeps the finalizer, whatever else fails. */
  lemma {:induction false} BrokenRoleKeepsFinalizer(w: World, name: string, envs: seq<seq<Disturbance>>)
    requires Held(w.store, name) && !Schedules.RoleIntact(w.store.children, name)
    requires forall k :: 0 <= k < |envs| ==> Alone(envs[k])
    ensures Held(Reruns(w, name, envs).store, name)
    decreases |envs|
  {
    hide Prologue, Schedules.RoleIntact;
    if envs == [] {
    } else {
      BrokenRoleStops(w.(env := envs[0]), name);
      BrokenRoleKeepsFinalizer(Step(w, name, Reconciled(envs[0])), name, envs[1..]);
    }
  }

  /** An instance being deleted, or gone already, that has no workload. */
  predicate Vacant(s: Store, name: string) {
    s.workload.None? && (name in s.instances ==> s.instances[name].deleting)
  }

  lemma VacantPass(w: World, name: string)
    requires Alone(w.env) && Vacant(w.store, name)
    ensures var s := Reconcile(w, name).world.store;
            && Vacant(s, name) && (Held(s, name) ==> Held(w.store, name))
            && (name in s.instances && name in w.store.instances ==>
                  s.instances[name].kind == w.store.instances[name].kind)
  {
    hide Prologue, UpdateInstance, ReconcileWithIdler;
    if name in w.store.instances {
      PrologueOnce(w, name);
      match Prologue(w, name) {
        case Stopped(_, _) =>
        case Ready(v, inst) =>
          var got := GetWorkload(v);
          GetWorkloadFacts(v);
          AloneKeepsRest(v, got.world);
          var dropped := inst.(finalizers := Finalizers.Removed(inst.finalizers, Finalizers.KIDLE));
          AloneUpdate(got.world, name, dropped, DropFinalizer);
          Finalizers.RemovedMembers(inst.finalizers, Finalizers.KIDLE, Finalizers.KIDLE);
      }
    } else {
      GoneCutsNothing(w, name);
      VacantStop(w, name);
    }
  }

  lemma VacantStop(w: World, name: string)
    requires Alone(w.env) && name !in w.store.instances
    ensures var v := Reconcile(w, name).world;
            v.store.workload == w.store.workload && v.store.instances == w.store.instances
  {
    AloneArrival(w);
  }

  lemma {:induction false} VacantReruns(w: World, name: string, envs: seq<seq<Disturbance>>)
    requires Vacant(w.store, name) && forall k :: 0 <= k < |envs| ==> Alone(envs[k])
    ensures var s := Reruns(w, name, envs).store;
            && Vacant(s, name) && (Held(s, name) ==> Held(w.store, name))
            && (Held(s, name) ==> s.instances[name].kind == w.store.instances[name].kind)
    decreases |envs|
  {
    hide Reconcile;
    if envs == [] {
    } else {
      VacantPass(w.(env := envs[0]), name);
      VacantReruns(Step(w, name, Reconciled(envs[0])), name, envs[1..]);
    }
  }

  /** Once given up, the finalizer is not taken again. */
  lemma GoneStays(w: World, name: string)
    requires !Held(w.store, name) && (name in w.store.instances ==> w.store.instances[name].deleting)
    ensures !Held(Step(w, name, Reconciled([])).store, name)
  {
    GoneCutsNothing(w.(env := []), name);
  }

  lemma VacantEnds(w: World, name: string, envs: seq<seq<Disturbance>>)
    requires Held(w.store, name) && Vacant(w.store, name) && Handled(w.store.instances[name].kind)
    requires Schedules.RoleIntact(w.store.children, name)
    requires forall k :: 0 <= k < |envs| ==> Alone(envs[k])
    ensures !Held(Step(Reruns(w, name, envs), name, Reconciled([])).store, name)
  {
    hide Reruns, Schedules.RoleIntact;
    VacantReruns(w, name, envs);
    RerunsKeepRole(w, name, envs);
    LastPassReleases(Reruns(w, name, envs), name);
  }

  lemma BetweenFacts(s: Store, name: string, kind: string, count: int32, strips: nat)
    requires Between(s, name, kind, count, strips)
    ensures name in s.instances ==> s.instances[name].deleting
    ensures Held(s, name) ==> s.instances[name].kind == kind && s.workload.Some? && Wakes(kind, s.workload.value)
  {
  }

  lemma WakingHasCount(kind: string, wl: Workload)
    requires Wakes(kind, wl)
    ensures Scales(kind) ==> SavedCount(wl.annotations).Success?
  {
  }

  lemma WakingStays(w: World, name: string, envs: seq<seq<Disturbance>>)
    requires Held(w.store, name) && w.store.instances[name].deleting && w.store.workload.Some?
    requires Handled(w.store.instances[name].kind) && Wakes(w.store.instances[name].kind, w.store.workload.value)
    requires forall k :: 0 <= k < |envs| ==> Alone(envs[k])
    ensures var kind, s := w.store.instances[name].kind, Reruns(w, name, envs).store;
            && (name in s.instances ==> s.instances[name].deleting)
            && (Held(s, name) ==> s.instances[name].kind == kind && s.workload.Some? && Wakes(kind, s.workload.value))
  {
    hide Reruns, Strips, Between, CountOf, SavedCount, Alone, Handled, Scales, Wakes;
    var kind, base, v := w.store.instances[name].kind, Strips(w.log), Reruns(w, name, envs);
    var count := CountOf(w.store.workload.value);
    WakingHasCount(kind, w.store.workload.value);
    BetweenAtFirst(w, name, kind);
    RerunsStayBetween(w, name, envs, kind, count, base);
    BetweenFacts(v.store, name, kind, count, Strips(v.log) - base);
  }

  lemma WakingEnds(w: World, name: string, envs: seq<seq<Disturbance>>)
    requires Held(w.store, name) && w.store.instances[name].deleting && w.store.workload.Some?
    requires CanRelease(w.store, name)
    requires forall k :: 0 <= k < |envs| ==> Alone(envs[k])
    ensures !Held(Step(Reruns(w, name, envs), name, Reconciled([])).store, name)
  {
    hide Reruns, Step, Wakes, Alone, Schedules.RoleIntact;
    WakingStays(w, name, envs);
    RerunsKeepRole(w, name, envs);
    LastPassReleases(Reruns(w, name, envs), name);
  }

  /** From where the finalizer is gone, or an undisturbed pass can release it. */
  lemma LastPassReleases(v: World, name: string)
    requires name in v.store.instances ==> v.store.instances[name].deleting
    requires Held(v.store, name) ==> CanRelease(v.store, name)
    ensures !Held(Step(v, name, Reconciled([])).store, name)
  {
    hide Reconcile, CanRelease;
    if Held(v.store, name) {
      QuietDeletion(v.(env := []), name);
    } else {
      GoneStays(v, name);
    }
  }

  /**
    Whatever calls failed before, one undisturbed pass finishes a deletion, exactly when it
    could have at the start: the kind is one of the three, the Role, if it exists, has a rule,
    and the saved count of the workload, if it exists, is a number. What the workload is left
    with is said by `DeletionUnderCrashes`.
   */
  lemma DeletionEnds(w: World, name: string, envs: seq<seq<Disturbance>>)
    requires Held(w.store, name) && w.store.instances[name].deleting
    requires forall k :: 0 <= k < |envs| ==> Alone(envs[k])
    ensures !Held(Reruns(w, name, envs + [[]]).store, name) <==> CanRelease(w.store, name)
  {
    hide Step, Reruns, Schedules.RoleIntact;
    var kind := w.store.instances[name].kind;
    OneMorePass(w, name, envs);
    if !Handled(kind) {
      RerunsAreRuns(w, name, envs + [[]]);
      Transitions.UnhandledKeepsFinalizer(w, name, Passes(envs + [[]]));
    } else if !Schedules.RoleIntact(w.store.children, name) {
      BrokenRoleKeepsFinalizer(w, name, envs + [[]]);
    } else if w.store.workload.None? {
      VacantEnds(w, name, envs);
    } else if CanRelease(w.store, name) {
      WakingEnds(w, name, envs);
    } else {
      NeverReleased(w, name, envs + [[]]);
    }
  }

  lemma {:induction false} RerunsJoin(w: World, name: string, a: seq<seq<Disturbance>>, b: seq<seq<Disturbance>>)
    ensures Reruns(w, name, a + b) == Reruns(Reruns(w, name, a), name, b)
    decreases |a|
  {
    if a == [] {
      assert a + b == b;
    } else {
      assert (a + b)[1..] == a[1..] + b;
      RerunsJoin(Step(w, name, Reconciled(a[0])), name, a[1..], b);
    }
  }

  lemma OneMorePass(w: World, name: string, envs: seq<seq<Disturbance>>)
    ensures Reruns(w, name, envs + [[]]) == Step(Reruns(w, name, envs), name, Reconciled([]))
  {
    hide Step;
    var v, last: seq<seq<Disturbance>> := Reruns(w, name, envs), [[]];
    RerunsJoin(w, name, envs, last);
    assert last[1..] == [];
    assert Reruns(v, name, last) == Reruns(Step(v, name, Reconciled([])), name, last[1..]);
  }

  // ----- The flag is followed -----

  /** An instance of this spec, not being deleted, over a workload that can (or cannot) converge. */
  ghost predicate Heading(s: Store, name: string, inst: Instance, can: bool) {
    && Workable(s, name) && !inst.deleting && SameSpec(s.instances[name], inst)
    && s.workload.Some? && CanConverge(inst.kind, inst.idle, s.workload.value) == can
  }

  lemma PrologueHeads(w: World, name: string, inst: Instance, can: bool)
    requires Alone(w.env) && Heading(w.store, name, inst, can)
    ensures var p := Prologue(w, name);
            && Alone(p.world.env) && Heading(p.world.store, name, inst, can)
            && (p.Ready? ==> SameSpec(p.instance, inst))
  {
    hide GetInstance, EnsureFinalizer, ReconcileCronStrategies, Schedules.RoleIntact, CanConverge;
    var got := GetInstance(w, name);
    Orphans.GetInstanceFacts(w, name);
    AloneKeepsRest(w, got.world);
    if got.value.Success? {
      var marked := EnsureFinalizer(got.world, name, got.value.value);
      AloneFinalizer(got.world, name, got.value.value);
      if marked.value.Success? {
        var held := marked.value.value;
        ChildrenKeep(marked.world, name, held);
        ChildrenAreOthers(marked.world, name, held);
        AloneKeepsRest(marked.world, ReconcileCronStrategies(marked.world, name, held).world);
      }
    }
  }

  /** The changes a pass makes leave the prospects as they were. */
  lemma ChangeHeads(kind: string, idle: bool, wl: Workload, change: Change)
    requires Handled(kind)
    requires match change
             case Refer(_) => true
             case ToZero => Scales(kind) && NeedIdle(kind, wl, idle)
             case ToCount(count) =>
               Scales(kind) && NeedWakeup(kind, wl, idle) && SavedCount(wl.annotations) == Success(count)
             case ToSuspend(_) => kind == CRON_JOB
             case Strip => false
    ensures CanConverge(kind, idle, Apply(change, wl)) == CanConverge(kind, idle, wl)
  {
    hide Atoi, Itoa;
    KeysDiffer();
  }

  lemma RetryHeads(w: World, local: Workload, change: Change, name: string, inst: Instance, can: bool)
    requires Alone(w.env) && Heading(w.store, name, inst, can) && (change.Refer? ==> change.name == name)
    requires CanConverge(inst.kind, inst.idle, Apply(change, w.store.workload.value)) == can
    ensures var t := Retry(w, local, change, Attempts());
            && Alone(t.world.env) && Heading(t.world.store, name, inst, can)
            && (t.outcome.Pass? ==>
                  && Some(t.local) == t.world.store.workload
                  && Plain(t.local) == Plain(Apply(change, w.store.workload.value)))
  {
    hide Retry, Apply;
    var written := AloneRetry(w, local, change);
    Transitions.RetrySteps(w, local, change, name);
    StridesKeepChildren(w, Retry(w, local, change, Attempts()).world, name);
  }

  lemma IdlerHeads(w: World, name: string, inst: Instance, copy: Instance, can: bool)
    requires Alone(w.env) && Heading(w.store, name, inst, can) && SameSpec(copy, inst)
    ensures Heading(ReconcileWithIdler(w, name, copy, w.store.workload.value).world.store, name, inst, can)
  {
    hide Retry, CanConverge, Apply, SavedCount;
    var kind, idle, local := inst.kind, inst.idle, w.store.workload.value;
    var marked := SetReference(w, local, name);
    if !Has(local.annotations, REFERENCE) {
      ChangeHeads(kind, idle, local, Refer(name));
      RetryHeads(w, local, Refer(name), name, inst, can);
    }
    if marked.outcome.Pass? {
      ActHeads(marked.world, name, inst, can);
    }
  }

  lemma ActHeads(w: World, name: string, inst: Instance, can: bool)
    requires Alone(w.env) && Heading(w.store, name, inst, can)
    ensures var wl := w.store.workload.value;
            && (NeedWakeup(inst.kind, wl, inst.idle) ==> Heading(Wakeup(inst.kind, w, wl).world.store, name, inst, can))
            && (NeedIdle(inst.kind, wl, inst.idle) ==> Heading(Idle(inst.kind, w, wl).world.store, name, inst, can))
  {
    hide Retry, CanConverge, Apply, SavedCount;
    var kind, idle, wl := inst.kind, inst.idle, w.store.workload.value;
    if kind == CRON_JOB {
      ChangeHeads(kind, idle, wl, ToSuspend(idle));
      RetryHeads(w, wl, ToSuspend(idle), name, inst, can);
    } else if NeedIdle(kind, wl, idle) {
      ChangeHeads(kind, idle, wl, ToZero);
      RetryHeads(w, wl, ToZero, name, inst, can);
    } else if NeedWakeup(kind, wl, idle) && SavedCount(wl.annotations).Success? {
      var change := ToCount(SavedCount(wl.annotations).value);
      ChangeHeads(kind, idle, wl, change);
      RetryHeads(w, wl, change, name, inst, can);
    }
  }

  lemma PassHeads(w: World, name: string, inst: Instance, can: bool)
    requires Alone(w.env) && Heading(w.store, name, inst, can)
    ensures Heading(Reconcile(w, name).world.store, name, inst, can)
  {
    hide Prologue, ReconcileWithIdler, CanConverge, Schedules.RoleIntact;
    PrologueHeads(w, name, inst, can);
    match Prologue(w, name)
    case Stopped(_, _) =>
    case Ready(v, copy) =>
      var got := GetWorkload(v);
      GetWorkloadFacts(v);
      AloneKeepsRest(v, got.world);
      if got.value.Success? {
        IdlerHeads(got.world, name, inst, copy, can);
      }
  }

  lemma {:induction false} RerunsHead(w: World, name: string, envs: seq<seq<Disturbance>>, inst: Instance, can: bool)
    requires Heading(w.store, name, inst, can)
    requires forall k :: 0 <= k < |envs| ==> Alone(envs[k])
    ensures Heading(Reruns(w, name, envs).store, name, inst, can)
    decreases |envs|
  {
    hide Reconcile, Heading;
    if envs == [] {
    } else {
      PassHeads(w.(env := envs[0]), name, inst, can);
      RerunsHead(Step(w, name, Reconciled(envs[0])), name, envs[1..], inst, can);
    }
  }

  /** The workload stays as it is, and what keeps passes from it stays too. */
  ghost predicate Standing(s: Store, name: string, inst: Instance, wl: Workload) {
    Blocked(s, name) && SameSpec(s.instances[name], inst) && s.workload == Some(wl)
  }

  lemma BlockedAlonePass(w: World, name: string, inst: Instance, wl: Workload)
    requires Alone(w.env) && Standing(w.store, name, inst, wl)
    ensures Standing(Reconcile(w, name).world.store, name, inst, wl)
  {
    hide Prologue, Schedules.RoleIntact;
    if !Schedules.RoleIntact(w.store.children, name) {
      BrokenRoleStops(w, name);
    } else {
      PrologueStands(w, name, inst, wl);
    }
  }

  lemma PrologueStands(w: World, name: string, inst: Instance, wl: Workload)
    requires Alone(w.env) && Standing(w.store, name, inst, wl) && !Handled(inst.kind)
    ensures var p := Prologue(w, name);
            Standing(p.world.store, name, inst, wl) && (p.Ready? ==> p.instance.kind == inst.kind)
  {
    hide GetInstance, EnsureFinalizer, ReconcileCronStrategies, Schedules.RoleIntact;
    var got := GetInstance(w, name);
    Orphans.GetInstanceFacts(w, name);
    AloneKeepsRest(w, got.world);
    if got.value.Success? {
      var marked := EnsureFinalizer(got.world, name, got.value.value);
      AloneFinalizer(got.world, name, got.value.value);
      if marked.value.Success? {
        var held := marked.value.value;
        ChildrenAreOthers(marked.world, name, held);
        AloneKeepsRest(marked.world, ReconcileCronStrategies(marked.world, name, held).world);
      }
    }
  }

  lemma {:induction false} BlockedReruns(
    w: World, name: string, envs: seq<seq<Disturbance>>, inst: Instance, wl: Workload)
    requires Standing(w.store, name, inst, wl) && forall k :: 0 <= k < |envs| ==> Alone(envs[k])
    ensures Standing(Reruns(w, name, envs).store, name, inst, wl)
    decreases |envs|
  {
    hide Reconcile, Standing;
    if envs == [] {
    } else {
      BlockedAlonePass(w.(env := envs[0]), name, inst, wl);
      BlockedReruns(Step(w, name, Reconciled(envs[0])), name, envs[1..], inst, wl);
    }
  }

  lemma HeadingConverges(w: World, name: string, envs: seq<seq<Disturbance>>)
    requires Workable(w.store, name) && !w.store.instances[name].deleting && w.store.workload.Some?
    requires forall k :: 0 <= k < |envs| ==> Alone(envs[k])
    ensures var inst, v := w.store.instances[name], Step(Reruns(w, name, envs), name, Reconciled([]));
            && v.store.workload.Some?
            && (Converged(inst.kind, inst.idle, v.store.workload.value) <==>
                CanConverge(inst.kind, inst.idle, w.store.workload.value))
  {
    hide Reconcile, Reruns, Converged, CanConverge, SavedCount, Schedules.RoleIntact;
    var inst, u := w.store.instances[name], Reruns(w, name, envs);
    RerunsHead(w, name, envs, inst, CanConverge(inst.kind, inst.idle, w.store.workload.value));
    ConvergesIff(u.(env := []), name);
    if Converged(inst.kind, inst.idle, u.store.workload.value) {
      ConvergedCould(inst.kind, inst.idle, u.store.workload.value);
    }
  }

  lemma ConvergedCould(kind: string, idle: bool, wl: Workload)
    requires Converged(kind, idle, wl)
    ensures CanConverge(kind, idle, wl)
  {
  }

  /**
    Failures cost nothing but time: after any passes with failing calls, one undisturbed pass
    makes the workload follow the flag exactly when it would have done so at the start.
   */
  lemma ConvergesAfterCrashesIff(w: World, name: string, envs: seq<seq<Disturbance>>)
    requires name in w.store.instances && !w.store.instances[name].deleting && w.store.workload.Some?
    requires forall k :: 0 <= k < |envs| ==> Alone(envs[k])
    ensures var inst, v := w.store.instances[name], Reruns(w, name, envs + [[]]);
            && v.store.workload.Some?
            && (Converged(inst.kind, inst.idle, v.store.workload.value) <==> WillFollow(w.store, name))
  {
    hide Step, Reruns, Converged, CanConverge, Schedules.RoleIntact;
    var inst, wl := w.store.instances[name], w.store.workload.value;
    OneMorePass(w, name, envs);
    if Workable(w.store, name) {
      HeadingConverges(w, name, envs);
      if Converged(inst.kind, inst.idle, wl) {
        ConvergedCould(inst.kind, inst.idle, wl);
      }
    } else {
      BlockedReruns(w, name, envs + [[]], inst, wl);
    }
  }
}
