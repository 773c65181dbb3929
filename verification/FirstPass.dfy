/**
  Where the calls of a pass fall. Over a namespace without owned objects, and for an instance
  without schedules, a pass makes nine calls before it looks at the workload: a script can
  then place a disturbance at any call after that.
 */
module FirstPass {
  import opened Wrappers
  import opened Cluster
  import opened Owned
  import opened Reconciling

  /** This many calls that are simply served. */
  function Calls(k: nat): seq<Disturbance> {
    seq(k, _ => Disturbance([], Served))
  }

  lemma ServedCall(w: World, k: nat, rest: seq<Disturbance>)
    requires k > 0 && w.env == Calls(k) + rest
    ensures Arrive(w) == w.(env := Calls(k - 1) + rest) && VerdictOf(w) == Served
  {
    assert w.env[1..] == Calls(k - 1) + rest;
  }

  predicate Fresh(s: Store, name: string) {
    && s.children == Children({}, map[], map[], map[])
    && name in s.instances && Holds(s.instances[name])
    && s.instances[name].idling.None? && s.instances[name].waking.None?
  }

  /** Still nothing but owned objects was written. */
  predicate SameRest(w: World, v: World) {
    && v.store.instances == w.store.instances && v.store.workload == w.store.workload
    && w.store.revision <= v.store.revision
  }

  lemma AccountMade(w: World, name: string, k: nat, rest: seq<Disturbance>)
    requires k >= 2 && w.env == Calls(k) + rest && w.store.children.accounts == {}
    ensures var d := EnsureAccount(w, name);
            && d.outcome == Pass && d.world.env == Calls(k - 2) + rest && SameRest(w, d.world)
            && d.world.store.children.(accounts := {}) == w.store.children
  {
    var got := Read(w, FindAccount(ChildName(name, "sa")));
    ServedCall(w, k, rest);
    ServedCall(got.world, k - 1, rest);
  }

  lemma RoleMade(w: World, name: string, k: nat, rest: seq<Disturbance>)
    requires k >= 2 && w.env == Calls(k) + rest && w.store.children.roles == map[]
    ensures var d := EnsureRole(w, name);
            && d.outcome == Pass && d.world.env == Calls(k - 2) + rest && SameRest(w, d.world)
            && d.world.store.children.(roles := map[]) == w.store.children
  {
    var got := Read(w, FindIn(Roles(), ChildName(name, "role")));
    ServedCall(w, k, rest);
    ServedCall(got.world, k - 1, rest);
  }

  lemma BindingMade(w: World, name: string, k: nat, rest: seq<Disturbance>)
    requires k >= 2 && w.env == Calls(k) + rest && w.store.children.bindings == map[]
    ensures var d := EnsureBinding(w, name);
            && d.outcome == Pass && d.world.env == Calls(k - 2) + rest && SameRest(w, d.world)
            && d.world.store.children.(bindings := map[]) == w.store.children
  {
    var got := Read(w, FindIn(Bindings(), ChildName(name, "rb")));
    ServedCall(w, k, rest);
    ServedCall(got.world, k - 1, rest);
  }

  lemma NoJobThere(w: World, name: string, command: string, k: nat, rest: seq<Disturbance>)
    requires |command| <= 6 && k >= 1 && w.env == Calls(k) + rest && w.store.children.jobs == map[]
    ensures ReconcileJob(w, name, command, None) == Done(w.(env := Calls(k - 1) + rest), Pass)
  {
    ServedCall(w, k, rest);
  }

  lemma ChildrenMade(w: World, name: string, inst: Instance, rest: seq<Disturbance>)
    requires w.env == Calls(8) + rest && w.store.children == Children({}, map[], map[], map[])
    requires inst.idling.None? && inst.waking.None?
    ensures var d := ReconcileCronStrategies(w, name, inst);
            d.outcome == Pass && d.world.env == rest && SameRest(w, d.world)
  {
    hide EnsureAccount, EnsureRole, EnsureBinding, ReconcileJob, Calls;
    var a := EnsureAccount(w, name).world;
    AccountMade(w, name, 8, rest);
    var b := EnsureRole(a, name).world;
    RoleMade(a, name, 6, rest);
    var c := EnsureBinding(b, name).world;
    BindingMade(b, name, 4, rest);
    NoJobThere(c, name, IDLE, 2, rest);
    NoJobThere(c.(env := Calls(1) + rest), name, WAKEUP, 1, rest);
    NoCalls(rest);
  }

  lemma NoCalls(rest: seq<Disturbance>)
    ensures Calls(0) + rest == rest
  {
  }

  lemma NineCalls(w: World, name: string, rest: seq<Disturbance>)
    requires Fresh(w.store, name) && w.env == Calls(9) + rest
    ensures var p := Prologue(w, name);
            p.Ready? && p.instance == w.store.instances[name] && p.world.env == rest && SameRest(w, p.world)
  {
    hide ReconcileCronStrategies, Calls;
    ServedCall(w, 9, rest);
    ChildrenMade(w.(env := Calls(8) + rest), name, w.store.instances[name], rest);
  }
}
