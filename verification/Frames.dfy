/**
  What one call can do to the world. A call that does not write the workload or an instance
  is `ByOthers`: it only lets others act and touches owned objects. A retried change is
  `ByOthers` followed by at most one rewrite of the version then current.
 */
module Frames {
  import opened Wrappers
  import opened Cluster
  import opened Idling
  import opened Owned

  // ----- Chains of entries -----

  ghost predicate Linked(from: Store, entries: seq<Entry>, to: Store) {
    if entries == [] then from == to
    else
      var last := entries[|entries| - 1];
      Linked(from, entries[..|entries| - 1], last.before) && last.after == to
  }

  lemma {:induction false} LinkedJoins(a: Store, xs: seq<Entry>, b: Store, ys: seq<Entry>, c: Store)
    requires Linked(a, xs, b) && Linked(b, ys, c)
    ensures Linked(a, xs + ys, c)
  {
    if ys == [] {
      assert xs + ys == xs;
    } else {
      var k := |ys| - 1;
      LinkedJoins(a, xs, b, ys[..k], ys[k].before);
      assert (xs + ys)[..|xs + ys| - 1] == xs + ys[..k];
    }
  }

  /** Nobody's write to the workload or to an instance other than an outsider's. */
  ghost predicate Mild(e: Entry) {
    match e.op
    case Outside(edit) => e.after == ApplyEdit(e.before, edit)
    case WriteChild =>
      && e.after.revision == e.before.revision + 1
      && e.after.instances == e.before.instances
      && e.after.workload == e.before.workload
    case _ => false
  }

  // ----- Conditions on scripts -----

  predicate Recreates(e: Edit) {
    e.DeleteWorkload? || e.CreateWorkload?
  }

  /** The workload is neither deleted nor created while the script plays. */
  ghost predicate Steady(env: seq<Disturbance>) {
    forall d, e :: d in env && e in d.edits ==> !Recreates(e)
  }

  /** Nobody edits anything and no read is stale: calls only fail. */
  ghost predicate Alone(env: seq<Disturbance>) {
    forall d :: d in env ==> d.edits == [] && (d.verdict.Served? || Fails(d.verdict))
  }

  // ----- Steps by others -----

  function New(w: World, v: World): seq<Entry>
    requires |w.log| <= |v.log|
  {
    v.log[|w.log|..]
  }

  /** Only outsiders acted. */
  ghost predicate OnlyEdits(w: World, v: World) {
    |w.log| <= |v.log| && forall e :: e in New(w, v) ==> e.op.Outside?
  }

  /** The edit is one that the script announces. */
  ghost predicate Announced(edit: Edit, env: seq<Disturbance>) {
    exists d :: d in env && edit in d.edits
  }

  ghost predicate ByOthers(w: World, v: World) {
    && v.image == w.image
    && |w.log| <= |v.log|
    && v.log == w.log + New(w, v)
    && Linked(w.store, New(w, v), v.store)
    && (forall e :: e in New(w, v) ==> Mild(e))
    && (forall d :: d in v.env ==> d in w.env)
    && (forall e :: e in New(w, v) && e.op.Outside? ==> Announced(e.op.edit, w.env))
    && (Steady(w.env) ==> forall e :: e in New(w, v) && e.op.Outside? ==> !Recreates(e.op.edit))
    && (Alone(w.env) ==> forall e :: e in New(w, v) ==> e.op.WriteChild?)
  }

  lemma OthersStay(w: World)
    ensures ByOthers(w, w) && OnlyEdits(w, w)
  {
  }

  lemma EmptyOrNot(env: seq<Disturbance>)
    ensures env == [] || exists d :: d in env
  {
    if env != [] {
      assert env[0] in env;
    }
  }

  lemma OthersAddNoScript(w: World, v: World)
    requires ByOthers(w, v) && w.env == []
    ensures v.env == []
  {
    EmptyOrNot(v.env);
  }

  lemma NewJoins(u: World, v: World, w: World)
    requires |u.log| <= |v.log| && v.log == u.log + New(u, v)
    requires |v.log| <= |w.log| && w.log == v.log + New(v, w)
    ensures |u.log| <= |w.log| && w.log == u.log + New(u, w)
    ensures New(u, w) == New(u, v) + New(v, w)
    ensures forall e :: e in New(u, w) <==> e in New(u, v) || e in New(v, w)
  {
    assert New(u, w) == New(u, v) + New(v, w);
  }

  lemma OthersJoin(u: World, v: World, w: World)
    requires ByOthers(u, v) && ByOthers(v, w)
    ensures ByOthers(u, w)
    ensures OnlyEdits(u, v) && OnlyEdits(v, w) ==> OnlyEdits(u, w)
  {
    hide New;
    NewJoins(u, v, w);
    LinkedJoins(u.store, New(u, v), v.store, New(v, w), w.store);
  }

  lemma OneEntry(w: World, op: Op, after: Store)
    requires Mild(Entry(op, w.store, after))
    requires op.Outside? ==> Announced(op.edit, w.env) && (!Steady(w.env) || !Recreates(op.edit))
    requires Alone(w.env) ==> op.WriteChild?
    ensures ByOthers(w, Commit(w, op, after))
  {
    var v := Commit(w, op, after);
    assert New(w, v) == [Entry(op, w.store, after)];
    assert New(w, v)[..0] == [];
  }

  /** Only outsiders' entries, all from the given list. */
  ghost predicate ByEdits(w: World, v: World, edits: seq<Edit>) {
    && v.env == w.env && v.image == w.image
    && |w.log| <= |v.log| && v.log == w.log + New(w, v)
    && Linked(w.store, New(w, v), v.store)
    && forall e :: e in New(w, v) ==> Mild(e) && e.op.Outside? && e.op.edit in edits
  }

  lemma OneEdit(w: World, edit: Edit, edits: seq<Edit>)
    requires edit in edits
    ensures ByEdits(w, Commit(w, Outside(edit), ApplyEdit(w.store, edit)), edits)
  {
    var entry := Entry(Outside(edit), w.store, ApplyEdit(w.store, edit));
    var v := Commit(w, entry.op, entry.after);
    assert New(w, v) == [entry];
    assert [entry][..0] == [];
  }

  lemma EditsJoin(u: World, v: World, w: World, edits: seq<Edit>, more: seq<Edit>)
    requires ByEdits(u, v, edits) && ByEdits(v, w, more) && forall e :: e in more ==> e in edits
    ensures ByEdits(u, w, edits)
  {
    NewJoins(u, v, w);
    LinkedJoins(u.store, New(u, v), v.store, New(v, w), w.store);
  }

  lemma {:induction false} EditAllFacts(w: World, edits: seq<Edit>)
    ensures ByEdits(w, EditAll(w, edits), edits)
    ensures edits == [] ==> EditAll(w, edits) == w
    decreases |edits|
  {
    if edits == [] {
    } else {
      var u := Commit(w, Outside(edits[0]), ApplyEdit(w.store, edits[0]));
      OneEdit(w, edits[0], edits);
      EditAllFacts(u, edits[1..]);
      EditsJoin(w, u, EditAll(w, edits), edits, edits[1..]);
    }
  }

  lemma ArriveIsOthers(w: World)
    ensures ByOthers(w, Arrive(w)) && OnlyEdits(w, Arrive(w))
    ensures Alone(w.env) ==> Arrive(w).store == w.store && Arrive(w).log == w.log
    ensures w.env == [] ==> Arrive(w) == w
  {
    if w.env != [] {
      assert w.env[0] in w.env;
      EditAllFacts(w.(env := w.env[1..]), w.env[0].edits);
      assert New(w.(env := w.env[1..]), Arrive(w)) == New(w, Arrive(w));
    } else {
      OthersStay(w);
    }
  }

  /** When nobody edits, a call only moves the script on. */
  lemma AloneArrival(w: World)
    requires Alone(w.env)
    ensures var a, v := Arrive(w), VerdictOf(w);
            && a.store == w.store && a.log == w.log && a.image == w.image && Alone(a.env)
            && a.env == (if w.env == [] then [] else w.env[1..])
            && (v.Served? || Fails(v)) && (w.env == [] ==> a == w && v.Served?)
  {
    ArriveIsOthers(w);
    if w.env != [] {
      assert w.env[0] in w.env;
      EditAllFacts(w.(env := w.env[1..]), w.env[0].edits);
    }
  }

  lemma ReadIsOthers<T>(w: World, find: Children -> Option<T>)
    ensures ByOthers(w, Read(w, find).world)
  {
    ArriveIsOthers(w);
  }

  lemma MutateIsOthers(w: World, change: Write)
    ensures ByOthers(w, Mutate(w, change).world)
  {
    ArriveIsOthers(w);
    var a, v := Arrive(w), Mutate(w, change).world;
    if v != a {
      OneEntry(a, WriteChild, v.store);
      OthersJoin(w, a, v);
    }
  }

  // ----- The owned objects -----

  lemma EnsureAccountIsOthers(w: World, name: string)
    ensures ByOthers(w, EnsureAccount(w, name).world)
  {
    hide Read, Mutate, ByOthers;
    var key := ChildName(name, "sa");
    var got := Read(w, FindAccount(key)).world;
    ReadIsOthers(w, FindAccount(key));
    MutateIsOthers(got, CreateAccount(key));
    OthersJoin(w, got, Mutate(got, CreateAccount(key)).world);
  }

  lemma EnsureRoleIsOthers(w: World, name: string)
    ensures ByOthers(w, EnsureRole(w, name).world)
  {
    var key := ChildName(name, "role");
    var got := Read(w, FindIn(Roles(), key));
    ReadIsOthers(w, FindIn(Roles(), key));
    var v := EnsureRole(w, name).world;
    if v != got.world {
      var change := if got.value.Success?
        then UpdateRole(key, got.value.value.(rules := got.value.value.rules[0 := Policy(name)]))
        else CreateRole(key, Role(0, [Policy(name)]));
      MutateIsOthers(got.world, change);
      OthersJoin(w, got.world, v);
    }
  }

  lemma EnsureBindingIsOthers(w: World, name: string)
    ensures ByOthers(w, EnsureBinding(w, name).world)
  {
    hide Read, Mutate, ByOthers;
    var key := ChildName(name, "rb");
    var got := Read(w, FindIn(Bindings(), key)).world;
    ReadIsOthers(w, FindIn(Bindings(), key));
    var change := CreateBinding(key, Binding(ChildName(name, "sa"), ChildName(name, "role")));
    MutateIsOthers(got, change);
    OthersJoin(w, got, Mutate(got, change).world);
  }

  lemma ReconcileJobIsOthers(w: World, name: string, command: string, schedule: Option<string>)
    requires |command| <= 6
    ensures ByOthers(w, ReconcileJob(w, name, command, schedule).world)
  {
    var key := ChildName(name, command);
    var got := Read(w, FindIn(Jobs(), key));
    ReadIsOthers(w, FindIn(Jobs(), key));
    var v := ReconcileJob(w, name, command, schedule).world;
    if v != got.world {
      var change :=
        if schedule.None? then DeleteJob(key)
        else
          var values := JobValues(name, schedule.value, command);
          if got.value.Success? then UpdateJob(key, SetValues(got.value.value, w.image, values))
          else CreateJob(key, SetValues(NewJob(), w.image, values));
      MutateIsOthers(got.world, change);
      OthersJoin(w, got.world, v);
    }
  }

  lemma RBACIsOthers(w: World, name: string)
    ensures ByOthers(w, CreateRBAC(w, name).world)
  {
    hide EnsureAccount, EnsureRole, EnsureBinding, ByOthers;
    var a := EnsureAccount(w, name);
    EnsureAccountIsOthers(w, name);
    var b := EnsureRole(a.world, name);
    EnsureRoleIsOthers(a.world, name);
    OthersJoin(w, a.world, b.world);
    EnsureBindingIsOthers(b.world, name);
    OthersJoin(w, b.world, EnsureBinding(b.world, name).world);
  }

  lemma JobsAreOthers(w: World, name: string, inst: Instance)
    ensures var d := ReconcileJob(w, name, IDLE, inst.idling);
            ByOthers(w, d.world) && ByOthers(w, ReconcileJob(d.world, name, WAKEUP, inst.waking).world)
  {
    var d := ReconcileJob(w, name, IDLE, inst.idling);
    ReconcileJobIsOthers(w, name, IDLE, inst.idling);
    ReconcileJobIsOthers(d.world, name, WAKEUP, inst.waking);
    OthersJoin(w, d.world, ReconcileJob(d.world, name, WAKEUP, inst.waking).world);
  }

  lemma ChildrenAreOthers(w: World, name: string, inst: Instance)
    ensures ByOthers(w, ReconcileCronStrategies(w, name, inst).world)
  {
    var c := CreateRBAC(w, name).world;
    var v := ReconcileCronStrategies(w, name, inst).world;
    RBACIsOthers(w, name);
    if v != c {
      assert ByOthers(c, v) by { JobsAreOthers(c, name, inst); }
      OthersJoin(w, c, v);
    }
  }

  // ----- Calls that only fail -----

  lemma {:induction false} ChildWritesKeepRest(s: Store, entries: seq<Entry>, t: Store)
    requires Linked(s, entries, t) && forall e :: e in entries ==> Mild(e) && e.op.WriteChild?
    ensures t.instances == s.instances && t.workload == s.workload
    decreases |entries|
  {
    if entries == [] {
    } else {
      var k := |entries| - 1;
      ChildWritesKeepRest(s, entries[..k], entries[k].before);
      assert entries[k] in entries;
    }
  }

  /** When nobody edits, others leave instances and workload alone. */
  lemma AloneKeepsRest(w: World, v: World)
    requires ByOthers(w, v) && Alone(w.env)
    ensures v.store.instances == w.store.instances && v.store.workload == w.store.workload
    ensures Alone(v.env)
  {
    ChildWritesKeepRest(w.store, New(w, v), v.store);
  }

  // ----- Copies stay snapshots -----

  lemma MildKeepsSnapshots(e: Entry, wl: Workload, inst: Instance, name: string)
    requires Mild(e)
    ensures e.before.revision <= e.after.revision
    ensures Snapshot(wl, e.before) ==> Snapshot(wl, e.after)
    ensures InstanceSnapshot(inst, e.before, name) ==> InstanceSnapshot(inst, e.after, name)
  {
  }

  lemma {:induction false} ChainKeepsSnapshots(
    s: Store, entries: seq<Entry>, t: Store, wl: Workload, inst: Instance, name: string)
    requires Linked(s, entries, t) && forall e :: e in entries ==> Mild(e)
    ensures Snapshot(wl, s) ==> Snapshot(wl, t)
    ensures InstanceSnapshot(inst, s, name) ==> InstanceSnapshot(inst, t, name)
    decreases |entries|
  {
    if entries == [] {
    } else {
      var k := |entries| - 1;
      ChainKeepsSnapshots(s, entries[..k], entries[k].before, wl, inst, name);
      assert entries[k] in entries;
      MildKeepsSnapshots(entries[k], wl, inst, name);
    }
  }

  lemma OthersKeepSnapshot(w: World, v: World, wl: Workload)
    requires ByOthers(w, v) && Snapshot(wl, w.store)
    ensures Snapshot(wl, v.store)
  {
    ChainKeepsSnapshots(w.store, New(w, v), v.store, wl, Instance(0, [], false, false, "", None, None), "");
  }

  lemma OthersKeepInstanceSnapshot(w: World, v: World, inst: Instance, name: string)
    requires ByOthers(w, v) && InstanceSnapshot(inst, w.store, name)
    ensures InstanceSnapshot(inst, v.store, name)
  {
    ChainKeepsSnapshots(w.store, New(w, v), v.store, Workload(0, None, 0, false, ""), inst, name);
  }

  // ----- A retried change is one atomic rewrite -----

  /** The rewrite of whatever version of the workload is current in `a`. */
  function Rewritten(a: World, change: Change): World
    requires a.store.workload.Some?
  {
    Commit(a, Write(change), PutWorkload(a.store, Apply(change, a.store.workload.value)))
  }

  /** Either nothing was written, or exactly one rewrite of the version current at that moment. */
  ghost predicate AtMostOneRewrite(a: World, change: Change, t: Try) {
    || (t.world == a && t.outcome.Fail?)
    || (&& a.store.workload.Some?
        && t.world == Rewritten(a, change)
        && (t.outcome == Pass || t.outcome == Fail(Unavailable))
        && (t.outcome == Pass ==> t.local == t.world.store.workload.value))
  }

  lemma UpdateIsAtomic(w: World, copy: Workload, change: Change) returns (a: World)
    requires Snapshot(copy, w.store)
    ensures ByOthers(w, a) && OnlyEdits(w, a)
    ensures var put := UpdateWorkload(w, Apply(change, copy), change);
            && AtMostOneRewrite(a, change, Try(put.world, if put.value.Success? then put.value.value else copy,
                 match put.value case Success(_) => Pass case Failure(e) => Fail(e)))
            && (put.value == Failure(Conflict) ==> put.world == a)
  {
    a := Arrive(w);
    ArriveIsOthers(w);
    OthersKeepSnapshot(w, a, copy);
  }

  lemma GetWorkloadFacts(w: World)
    ensures var got := GetWorkload(w);
            && ByOthers(w, got.world) && OnlyEdits(w, got.world)
            && (got.value.Success? ==> Snapshot(got.value.value, got.world.store))
            && (Alone(w.env) ==> got.world.store == w.store && got.world.log == w.log)
            && (Alone(w.env) && got.value.Success? ==> w.store.workload == Some(got.value.value))
            && (Alone(w.env) && got.value == Failure(NotFound) ==> w.store.workload.None?)
            && (w.env == [] ==> got == CurrentWorkload(w))
  {
    hide EditAll, Linked, Mild, New;
    ArriveIsOthers(w);
    if w.env != [] {
      assert w.env[0] in w.env;
    }
    var a := Arrive(w);
  }

  lemma AttemptIsAtomic(w: World, local: Workload, change: Change) returns (a: World)
    ensures ByOthers(w, a) && OnlyEdits(w, a)
    ensures AtMostOneRewrite(a, change, Attempt(w, local, change))
  {
    var got := GetWorkload(w);
    GetWorkloadFacts(w);
    a := got.world;
    if got.value.Success? {
      a := UpdateIsAtomic(got.world, got.value.value, change);
      OthersJoin(w, got.world, a);
    }
  }

  lemma ConflictWroteNothing(w: World, a: World, b: World, change: Change, first: Try)
    requires ByOthers(w, a) && AtMostOneRewrite(a, change, first) && first.outcome == Fail(Conflict)
    requires OnlyEdits(w, a) && ByOthers(first.world, b) && OnlyEdits(first.world, b)
    ensures ByOthers(w, b) && OnlyEdits(w, b)
  {
    OthersJoin(w, a, b);
  }

  /**
    No lost update: whatever the script does, a retried change lets others act and then
    either fails having written nothing or rewrites, once, the version current at that
    moment. Only a lost answer can hide a rewrite behind a failure.
   */
  lemma {:induction false} RetryIsAtomic(w: World, local: Workload, change: Change, attempts: nat) returns (a: World)
    ensures ByOthers(w, a) && OnlyEdits(w, a)
    ensures AtMostOneRewrite(a, change, Retry(w, local, change, attempts))
    decreases attempts
  {
    hide Attempt, ByOthers, OnlyEdits;
    if attempts == 0 {
      OthersStay(w);
      a := w;
    } else {
      var first := Attempt(w, local, change);
      a := AttemptIsAtomic(w, local, change);
      if first.outcome == Fail(Conflict) {
        var b := RetryIsAtomic(first.world, first.local, change, attempts - 1);
        ConflictWroteNothing(w, a, b, change, first);
        a := b;
      }
    }
  }
}
