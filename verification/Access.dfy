/**
  What the generated Role allows: the CronJobs of an instance may read and change that
  instance, and no other.
 */
module Access {
  import opened Wrappers
  import opened Cluster
  import opened Owned
  import opened Frames
  import opened Schedules

  const GROUP := "kidle.kidle.dev"
  const RESOURCE := "idlingresources"

  /** A list of a rule covers an item it holds, or everything through `*`. */
  predicate Covers(items: seq<string>, item: string) {
    item in items || "*" in items
  }

  /** A rule without names is about every object of its resources. */
  predicate Allows(rule: Rule, verb: string, group: string, resource: string, target: string) {
    && Covers(rule.verbs, verb) && Covers(rule.groups, group) && Covers(rule.resources, resource)
    && (rule.names == [] || target in rule.names)
  }

  /** What `kidlectl` and nothing else needs. */
  predicate Wanted(name: string, verb: string, group: string, resource: string, target: string) {
    && (verb == "get" || verb == "patch" || verb == "update")
    && group == GROUP && resource == RESOURCE && target == name
  }

  lemma PolicyIsExact(name: string, verb: string, group: string, resource: string, target: string)
    ensures Allows(Policy(name), verb, group, resource, target) <==> Wanted(name, verb, group, resource, target)
  {
    StarsDiffer();
  }

  lemma StarsDiffer()
    ensures "*" != "get" && "*" != "patch" && "*" != "update" && "*" != GROUP && "*" != RESOURCE
  {
    assert |"*"| == 1 && |"get"| == 3 && |"patch"| == 5 && |"update"| == 6 && |GROUP| == 15 && |RESOURCE| == 15;
  }

  /** A binding of the account to a role with a rule that allows it. */
  ghost predicate Granted(c: Children, account: string, verb: string, group: string, resource: string, target: string) {
    exists b, rule ::
      && b in c.bindings && c.bindings[b].account == account && c.bindings[b].role in c.roles
      && rule in c.roles[c.bindings[b].role].rules
      && Allows(rule, verb, group, resource, target)
  }

  /**
    After access has been set up, through whatever failures: the first rule of the instance's
    Role allows exactly reading, patching and updating that one instance.
   */
  lemma RoleAllowsExactly(w: World, name: string, verb: string, group: string, resource: string, target: string)
    requires Alone(w.env) && RoleIntact(w.store.children, name) && CreateRBAC(w, name).outcome == Pass
    ensures var c, role := CreateRBAC(w, name).world.store.children, ChildName(name, "role");
            && role in c.roles && c.roles[role].rules != []
            && (Allows(c.roles[role].rules[0], verb, group, resource, target) <==>
                Wanted(name, verb, group, resource, target))
  {
    hide CreateRBAC, ChildName, Policy, Allows, Wanted;
    var v := QuietRBAC(w, name);
    PolicyIsExact(name, verb, group, resource, target);
  }

  /** Nobody has used the instance's names for the account, the role or the binding yet. */
  predicate NamesFree(c: Children, name: string) {
    && ChildName(name, "role") !in c.roles && ChildName(name, "rb") !in c.bindings
    && forall b :: b in c.bindings ==> c.bindings[b].account != ChildName(name, "sa")
  }

  /**
    From free names, the account under which the instance's CronJobs run is granted exactly
    that: a fire may read and update its own instance, and can touch no other.
   */
  lemma AccountIsGrantedExactly(w: World, name: string, verb: string, group: string, resource: string, target: string)
    requires Alone(w.env) && NamesFree(w.store.children, name) && CreateRBAC(w, name).outcome == Pass
    ensures Granted(CreateRBAC(w, name).world.store.children, ChildName(name, "sa"), verb, group, resource, target) <==>
            Wanted(name, verb, group, resource, target)
  {
    hide CreateRBAC, ChildName, Policy, Allows, Wanted;
    var v := QuietRBAC(w, name);
    var c, role, rb := CreateRBAC(w, name).world.store.children, ChildName(name, "role"), ChildName(name, "rb");
    PolicyIsExact(name, verb, group, resource, target);
    assert c.roles[role].rules == [Policy(name)];
    if Wanted(name, verb, group, resource, target) {
      assert c.bindings[rb].account == ChildName(name, "sa") && Policy(name) in c.roles[role].rules;
    }
  }

  /** The CronJobs run under that account, with the two verbs they need on their own instance. */
  lemma FiresAreAllowed(w: World, name: string, inst: Instance)
    requires w.env == [] && NamesFree(w.store.children, name)
    ensures var d := ReconcileCronStrategies(w, name, inst);
            var c, account := d.world.store.children, ChildName(name, "sa");
            && d.outcome == Pass
            && Granted(c, account, "get", GROUP, RESOURCE, name) && Granted(c, account, "update", GROUP, RESOURCE, name)
            && (inst.idling.Some? ==>
                  ChildName(name, IDLE) in c.jobs && c.jobs[ChildName(name, IDLE)].account == account)
            && (inst.waking.Some? ==>
                  ChildName(name, WAKEUP) in c.jobs && c.jobs[ChildName(name, WAKEUP)].account == account)
  {
    hide CreateRBAC, ReconcileJob, Granted, ChildName, Content, SettledJobs;
    var a := CreateRBAC(w, name).world;
    var v := QuietRBAC(w, name);
    AccountIsGrantedExactly(w, name, "get", GROUP, RESOURCE, name);
    AccountIsGrantedExactly(w, name, "update", GROUP, RESOURCE, name);
    JobsKeepAccess(a, name, inst);
    assert ReconcileCronStrategies(w, name, inst) == ReconcileJobs(a, name, inst);
    GrantsStay(a.store.children, ReconcileJobs(a, name, inst).world.store.children, ChildName(name, "sa"), name);
  }

  lemma JobsKeepAccess(w: World, name: string, inst: Instance)
    requires w.env == []
    ensures var d := ReconcileJobs(w, name, inst);
            var c, account := d.world.store.children, ChildName(name, "sa");
            && d.outcome == Pass && c.roles == w.store.children.roles && c.bindings == w.store.children.bindings
            && (inst.idling.Some? ==>
                  ChildName(name, IDLE) in c.jobs && c.jobs[ChildName(name, IDLE)].account == account)
            && (inst.waking.Some? ==>
                  ChildName(name, WAKEUP) in c.jobs && c.jobs[ChildName(name, WAKEUP)].account == account)
  {
    hide ReconcileJob, ChildName;
    CommandsNeverMeet(name, name);
    var b := ReconcileJob(w, name, IDLE, inst.idling);
    QuietJob(w, name, IDLE, inst.idling);
    QuietJob(b.world, name, WAKEUP, inst.waking);
  }

  lemma GrantsStay(c: Children, d: Children, account: string, name: string)
    requires d.roles == c.roles && d.bindings == c.bindings
    ensures forall verb, group, resource, target ::
              Granted(c, account, verb, group, resource, target) ==> Granted(d, account, verb, group, resource, target)
  {
    hide Allows;
  }
}
