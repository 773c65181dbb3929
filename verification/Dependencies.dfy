/**
  The order in which owned objects come to be: at every point a pass may crash, a CronJob
  has its RoleBinding, and a RoleBinding has the ServiceAccount and Role it names.
 */
module Dependencies {
  import opened Wrappers
  import opened Cluster
  import opened Owned
  import opened Reconciling
  import opened Frames
  import opened Transitions
  import Orphans

  ghost predicate Supported(c: Children, name: string) {
    && (forall b :: b in c.bindings ==> c.bindings[b].account in c.accounts && c.bindings[b].role in c.roles)
    && (ChildName(name, IDLE) in c.jobs || ChildName(name, WAKEUP) in c.jobs ==> ChildName(name, "rb") in c.bindings)
  }

  /** Supported now, and after every change ever committed. */
  ghost predicate AlwaysSupported(w: World, name: string) {
    && Supported(w.store.children, name)
    && forall e :: e in w.log ==> Supported(e.after.children, name)
  }

  /** Others may edit roles and CronJobs but neither create nor delete owned objects. */
  ghost predicate KeepsChildren(env: seq<Disturbance>) {
    forall d, e :: d in env && e in d.edits ==> !e.ReplaceChildren?
  }

  /** No account, role or binding has gone. */
  predicate Grown(c: Children, d: Children) {
    c.accounts <= d.accounts && c.roles.Keys <= d.roles.Keys && c.bindings.Keys <= d.bindings.Keys
  }

  /** What every step of a pass keeps. */
  ghost predicate Keeps(w: World, v: World, name: string) {
    && AlwaysSupported(v, name) && KeepsChildren(v.env)
    && Grown(w.store.children, v.store.children)
  }

  lemma EditKeepsSupport(w: World, e: Edit, name: string)
    requires AlwaysSupported(w, name) && !e.ReplaceChildren?
    ensures var v := Commit(w, Outside(e), ApplyEdit(w.store, e));
            AlwaysSupported(v, name) && Grown(w.store.children, v.store.children)
  {
  }

  lemma {:induction false} EditAllKeepsSupport(w: World, edits: seq<Edit>, name: string)
    requires AlwaysSupported(w, name) && forall e :: e in edits ==> !e.ReplaceChildren?
    ensures AlwaysSupported(EditAll(w, edits), name)
    ensures Grown(w.store.children, EditAll(w, edits).store.children)
    ensures EditAll(w, edits).env == w.env
    decreases |edits|
  {
    if edits == [] {
    } else {
      EditKeepsSupport(w, edits[0], name);
      EditAllKeepsSupport(Commit(w, Outside(edits[0]), ApplyEdit(w.store, edits[0])), edits[1..], name);
    }
  }

  lemma ArriveKeeps(w: World, name: string)
    requires AlwaysSupported(w, name) && KeepsChildren(w.env)
    ensures Keeps(w, Arrive(w), name)
  {
    if w.env != [] {
      assert w.env[0] in w.env;
      EditAllKeepsSupport(w.(env := w.env[1..]), w.env[0].edits, name);
    }
  }

  /** A write of owned objects that keeps support whatever has been added meanwhile. */
  lemma MutateKeeps(w: World, change: Write, name: string)
    requires AlwaysSupported(w, name) && KeepsChildren(w.env)
    requires forall c, v :: Grown(w.store.children, c) && Supported(c, name) && change(c, v).Success? ==>
               Supported(change(c, v).value, name) && Grown(c, change(c, v).value)
    ensures Keeps(w, Mutate(w, change).world, name)
    ensures Mutate(w, change).outcome == Pass ==>
              var a := Arrive(w);
              && change(a.store.children, a.store.revision + 1).Success?
              && Mutate(w, change).world.store.children == change(a.store.children, a.store.revision + 1).value
  {
    ArriveKeeps(w, name);
  }

  lemma ReadKeeps<T>(w: World, find: Children -> Option<T>, name: string)
    requires AlwaysSupported(w, name) && KeepsChildren(w.env)
    ensures var r := Read(w, find);
            && Keeps(w, r.world, name)
            && (r.value.Success? ==> find(r.world.store.children) == Some(r.value.value))
  {
    ArriveKeeps(w, name);
  }

  lemma AccountFirst(w: World, name: string)
    requires AlwaysSupported(w, name) && KeepsChildren(w.env)
    ensures var d := EnsureAccount(w, name);
            Keeps(w, d.world, name) && (d.outcome == Pass ==> ChildName(name, "sa") in d.world.store.children.accounts)
  {
    hide Read, Mutate, AlwaysSupported, KeepsChildren;
    var key := ChildName(name, "sa");
    ReadKeeps(w, FindAccount(key), name);
    MutateKeeps(Read(w, FindAccount(key)).world, CreateAccount(key), name);
  }

  lemma RoleNext(w: World, name: string)
    requires AlwaysSupported(w, name) && KeepsChildren(w.env)
    ensures var d := EnsureRole(w, name);
            Keeps(w, d.world, name) && (d.outcome == Pass ==> ChildName(name, "role") in d.world.store.children.roles)
  {
    hide Read, Mutate, AlwaysSupported, KeepsChildren;
    var key := ChildName(name, "role");
    var got := Read(w, FindIn(Roles(), key));
    ReadKeeps(w, FindIn(Roles(), key), name);
    if got.value == Failure(NotFound) {
      MutateKeeps(got.world, CreateRole(key, Role(0, [Policy(name)])), name);
    } else if got.value.Success? && got.value.value.rules != [] {
      var role := got.value.value;
      MutateKeeps(got.world, UpdateRole(key, role.(rules := role.rules[0 := Policy(name)])), name);
    }
  }

  lemma BindingThen(w: World, name: string)
    requires AlwaysSupported(w, name) && KeepsChildren(w.env)
    requires ChildName(name, "sa") in w.store.children.accounts
    requires ChildName(name, "role") in w.store.children.roles
    ensures var d := EnsureBinding(w, name);
            Keeps(w, d.world, name) && (d.outcome == Pass ==> ChildName(name, "rb") in d.world.store.children.bindings)
  {
    hide Read, Mutate, AlwaysSupported, KeepsChildren;
    var key := ChildName(name, "rb");
    ReadKeeps(w, FindIn(Bindings(), key), name);
    MutateKeeps(Read(w, FindIn(Bindings(), key)).world,
                CreateBinding(key, Binding(ChildName(name, "sa"), ChildName(name, "role"))), name);
  }

  lemma WriteKeeps(w: World, key: string, v: JobValues, name: string)
    requires AlwaysSupported(w, name) && KeepsChildren(w.env)
    requires ChildName(name, "rb") in w.store.children.bindings
    ensures Keeps(w, CreateOrUpdateJob(w, key, v).world, name)
  {
    hide Read, Mutate, SetValues, NewJob, AlwaysSupported, KeepsChildren;
    var got := Read(w, FindIn(Jobs(), key));
    ReadKeeps(w, FindIn(Jobs(), key), name);
    if got.value.Success? {
      MutateKeeps(got.world, UpdateJob(key, SetValues(got.value.value, w.image, v)), name);
    } else {
      MutateKeeps(got.world, CreateJob(key, SetValues(NewJob(), w.image, v)), name);
    }
  }

  lemma RemoveKeeps(w: World, key: string, name: string)
    requires AlwaysSupported(w, name) && KeepsChildren(w.env)
    ensures Keeps(w, RemoveJob(w, key).world, name)
  {
    hide Read, Mutate, AlwaysSupported, KeepsChildren;
    ReadKeeps(w, FindIn(Jobs(), key), name);
    MutateKeeps(Read(w, FindIn(Jobs(), key)).world, DeleteJob(key), name);
  }

  lemma JobsLast(w: World, name: string, command: string, schedule: Option<string>)
    requires AlwaysSupported(w, name) && KeepsChildren(w.env) && |command| <= 6
    requires ChildName(name, "rb") in w.store.children.bindings
    ensures Keeps(w, ReconcileJob(w, name, command, schedule).world, name)
  {
    var key := ChildName(name, command);
    match schedule
    case None => RemoveKeeps(w, key, name);
    case Some(s) => WriteKeeps(w, key, JobValues(name, s, command), name);
  }

  lemma ChildrenKeepSupport(w: World, name: string, inst: Instance)
    requires AlwaysSupported(w, name) && KeepsChildren(w.env)
    ensures Keeps(w, ReconcileCronStrategies(w, name, inst).world, name)
  {
    var a := EnsureAccount(w, name);
    AccountFirst(w, name);
    if a.outcome == Pass {
      var b := EnsureRole(a.world, name);
      RoleNext(a.world, name);
      if b.outcome == Pass {
        var c := EnsureBinding(b.world, name);
        BindingThen(b.world, name);
        if c.outcome == Pass {
          var d := ReconcileJob(c.world, name, IDLE, inst.idling);
          JobsLast(c.world, name, IDLE, inst.idling);
          if d.outcome == Pass {
            JobsLast(d.world, name, WAKEUP, inst.waking);
          }
        }
      }
    }
  }

  // ----- The rest of a pass leaves owned objects alone -----

  lemma LawfulKeepsSupport(e: Entry, name: string)
    requires Lawful(e, name) && !e.op.WriteChild? && Supported(e.before.children, name)
    requires e.op.Outside? ==> !e.op.edit.ReplaceChildren?
    ensures Supported(e.after.children, name) && Grown(e.before.children, e.after.children)
  {
    hide Supported;
    if e.op.Outside? {
      EditKeepsSupport(World("", e.before, [], []), e.op.edit, name);
    } else {
      WritesKeepChildren(e, name);
    }
  }

  lemma {:induction false} ChainKeepsSupport(s: Store, entries: seq<Entry>, t: Store, name: string)
    requires Linked(s, entries, t) && Supported(s.children, name)
    requires forall e :: e in entries ==>
               Lawful(e, name) && !e.op.WriteChild? && (e.op.Outside? ==> !e.op.edit.ReplaceChildren?)
    ensures Supported(t.children, name) && Grown(s.children, t.children)
    ensures forall e :: e in entries ==> Supported(e.after.children, name)
    decreases |entries|
  {
    hide Lawful, Supported;
    if entries == [] {
    } else {
      var k := |entries| - 1;
      assert entries == entries[..k] + [entries[k]];
      ChainKeepsSupport(s, entries[..k], entries[k].before, name);
      LawfulKeepsSupport(entries[k], name);
    }
  }

  /** What strides leave, whoever makes them. */
  lemma StridesKeep(w: World, v: World, name: string)
    requires AlwaysSupported(w, name) && KeepsChildren(w.env) && Strides(w, v, name)
    ensures Keeps(w, v, name)
  {
    hide Lawful, Supported, Grown, Linked;
    ChainKeepsSupport(w.store, New(w, v), v.store, name);
  }

  lemma PrologueKeeps(w: World, name: string)
    requires AlwaysSupported(w, name) && KeepsChildren(w.env)
    ensures AlwaysSupported(Prologue(w, name).world, name) && KeepsChildren(Prologue(w, name).world.env)
  {
    hide GetInstance, EnsureFinalizer, ReconcileCronStrategies, InstanceSnapshot, AlwaysSupported, KeepsChildren,
      Strides, ByOthers, OnlyEdits;
    var got := GetInstance(w, name);
    Orphans.GetInstanceFacts(w, name);
    EditsStride(w, got.world, name);
    StridesKeep(w, got.world, name);
    if got.value.Success? {
      var marked := EnsureFinalizer(got.world, name, got.value.value);
      TakeSteps(got.world, name, got.value.value);
      StridesKeep(got.world, marked.world, name);
      if marked.value.Success? {
        ChildrenKeepSupport(marked.world, name, marked.value.value);
      }
    }
  }

  lemma PassKeepsSupport(w: World, name: string)
    requires AlwaysSupported(w, name) && KeepsChildren(w.env)
    ensures AlwaysSupported(Reconcile(w, name).world, name)
  {
    hide Prologue, Proceed, InstanceSnapshot, AlwaysSupported, KeepsChildren, Steps, Strides;
    PrologueKeeps(w, name);
    PrologueSteps(w, name);
    match Prologue(w, name)
    case Stopped(_, _) =>
    case Ready(v, inst) =>
      ProceedSteps(v, name, inst);
      StridesKeep(v, Proceed(v, name, inst).world, name);
  }

  lemma KidlectlKeeps(w: World, target: string, idle: bool, name: string)
    requires AlwaysSupported(w, name) && KeepsChildren(w.env)
    ensures AlwaysSupported(ApplyDesiredIdleState(w, target, idle).world, name)
  {
    hide ApplyDesiredIdleState, AlwaysSupported, KeepsChildren, Strides;
    KidlectlIsLawful(w, target, idle, name);
    StridesKeep(w, ApplyDesiredIdleState(w, target, idle).world, name);
  }

  ghost predicate LeavesChildren(e: Event) {
    match e
    case External(edit) => !edit.ReplaceChildren?
    case Reconciled(env) => KeepsChildren(env)
    case Kidlectl(_, _, env) => KeepsChildren(env)
  }

  /**
    In every state of every run in which nobody else creates or deletes owned objects, with
    crashes, lost answers, conflicts, stale reads and edits at any call.
   */
  lemma {:induction false} DependencyOrder(w: World, name: string, events: seq<Event>)
    requires AlwaysSupported(w, name) && forall k :: 0 <= k < |events| ==> LeavesChildren(events[k])
    ensures AlwaysSupported(Run(w, name, events), name)
    decreases |events|
  {
    if events == [] {
    } else {
      assert LeavesChildren(events[0]);
      match events[0] {
        case External(edit) => EditKeepsSupport(w, edit, name);
        case Reconciled(env) => PassKeepsSupport(w.(env := env), name);
        case Kidlectl(target, idle, env) => KidlectlKeeps(w.(env := env), target, idle, name);
      }
      DependencyOrder(Step(w, name, events[0]), name, events[1..]);
    }
  }
}
