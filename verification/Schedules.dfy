/**
  The owned objects against the spec: what an undisturbed pass makes of them, that a second
  pass changes nothing, and that names keep instances and commands apart.
 */
module Schedules {
  import opened Wrappers
  import opened Cluster
  import opened Owned
  import opened Containers
  import opened Frames
  import opened DnsName

  // ----- Names -----

  /** A generated name ends as its suffix does. */
  lemma NameEnds(name: string, suffix: string)
    requires 0 < |suffix| <= 6 && Lower(suffix[|suffix| - 1]) == suffix[|suffix| - 1]
    ensures ChildName(name, suffix) != ""
    ensures ChildName(name, suffix)[|ChildName(name, suffix)| - 1] == suffix[|suffix| - 1]
  {
    var tail := Dashed(suffix);
    assert tail[|tail| - 1] == suffix[|suffix| - 1];
  }

  /** How the names of owned objects read, when they fit. */
  lemma ShortNamesRead(name: string, suffix: string)
    requires 0 < |suffix| <= 6
    ensures |name| + |suffix| <= 56 ==> ChildName(name, suffix) == "kidle-" + name + "-" + suffix
  {
    assert "kidle" + "-" + name + ("-" + suffix) == "kidle-" + name + "-" + suffix;
  }

  /** The idle CronJob of one instance is never the wake-up CronJob of any instance. */
  lemma CommandsNeverMeet(a: string, b: string)
    ensures ChildName(a, IDLE) != ChildName(b, WAKEUP)
  {
    NameEnds(a, IDLE);
    NameEnds(b, WAKEUP);
  }

  // ----- The desired objects -----

  /** Contents without versions. */
  function Content(c: Children): Children {
    c.(roles := map k | k in c.roles :: c.roles[k].(version := 0),
       jobs := map k | k in c.jobs :: c.jobs[k].(version := 0))
  }

  function SettledJobs(jobs: map<string, Job>, image: string, name: string, command: string, schedule: Option<string>)
    : map<string, Job>
    requires |command| <= 6
  {
    var key := ChildName(name, command);
    match schedule
    case None => jobs - {key}
    case Some(s) =>
      var job := if key in jobs then jobs[key] else NewJob();
      jobs[key := SetValues(job, image, JobValues(name, s, command))]
  }

  function SettledRBAC(c: Children, name: string, v: nat): Children
    requires RoleIntact(c, name)
  {
    var role, binding := ChildName(name, "role"), ChildName(name, "rb");
    var rules := if role in c.roles then c.roles[role].rules[0 := Policy(name)] else [Policy(name)];
    c.(accounts := c.accounts + {ChildName(name, "sa")},
       roles := c.roles[role := Role(v, rules)],
       bindings := if binding in c.bindings then c.bindings
                   else c.bindings[binding := Binding(ChildName(name, "sa"), role)])
  }

  /** What the children become, told without calls, failures or versions. */
  function Settled(c: Children, image: string, name: string, inst: Instance): Children
    requires RoleIntact(c, name)
  {
    SettledRBAC(c, name, 0).(
      jobs := SettledJobs(SettledJobs(c.jobs, image, name, IDLE, inst.idling), image, name, WAKEUP, inst.waking))
  }

  /** Overwriting the first rule needs one to be there. */
  predicate RoleIntact(c: Children, name: string) {
    ChildName(name, "role") in c.roles ==> c.roles[ChildName(name, "role")].rules != []
  }

  // ----- A pass that succeeds while nobody else edits -----

  /** Nobody edited anything, and nothing but owned objects was written. */
  ghost predicate Calm(w: World, v: World) {
    && Alone(v.env) && (w.env == [] ==> v.env == []) && v.image == w.image
    && v.store.instances == w.store.instances && v.store.workload == w.store.workload
    && w.log <= v.log
    && forall k :: |w.log| <= k < |v.log| ==> v.log[k].op.WriteChild?
  }

  lemma CalmJoins(u: World, v: World, w: World)
    requires Calm(u, v) && Calm(v, w)
    ensures Calm(u, w)
  {
  }

  /** A read that succeeds, or finds nothing, tells the truth. */
  lemma AloneRead<T>(w: World, find: Children -> Option<T>)
    requires Alone(w.env)
    ensures var r := Read(w, find);
            && Calm(w, r.world) && r.world.store == w.store
            && (!Fails(VerdictOf(w)) ==>
                  r.value == if find(w.store.children).Some? then Success(find(w.store.children).value)
                             else Failure(NotFound))
            && (Fails(VerdictOf(w)) ==> r.value == Failure(Unavailable))
            && (w.env == [] ==> !Fails(VerdictOf(w)))
  {
    AloneArrival(w);
  }

  /** A write that succeeds has happened; undisturbed, a write the server allows succeeds. */
  lemma AloneMutate(w: World, change: Write)
    requires Alone(w.env)
    ensures var d, next := Mutate(w, change), change(w.store.children, w.store.revision + 1);
            && (d.outcome == Pass ==> next.Success? && Calm(w, d.world) && d.world.store.children == next.value)
            && (d.outcome == Fail(NotFound) ==> next == Failure(NotFound))
            && (w.env == [] && next.Success? ==> d.outcome == Pass)
  {
    AloneArrival(w);
  }

  /** The call passed with this effect on the owned objects; undisturbed, it does pass. */
  ghost predicate Makes(w: World, d: Done, c: Children) {
    && (d.outcome == Pass ==> Calm(w, d.world) && d.world.store.children == c)
    && (w.env == [] ==> d.outcome == Pass)
  }

  lemma QuietAccount(w: World, name: string)
    requires Alone(w.env)
    ensures Makes(w, EnsureAccount(w, name),
                  w.store.children.(accounts := w.store.children.accounts + {ChildName(name, "sa")}))
  {
    hide Read, Mutate;
    var c, key := w.store.children, ChildName(name, "sa");
    var got := Read(w, FindAccount(key));
    AloneRead(w, FindAccount(key));
    AloneMutate(got.world, CreateAccount(key));
    if key in c.accounts {
      assert c.accounts + {key} == c.accounts;
    }
  }

  lemma QuietRole(w: World, name: string)
    requires Alone(w.env) && RoleIntact(w.store.children, name)
    ensures var c, key := w.store.children, ChildName(name, "role");
            var rules := if key in c.roles then c.roles[key].rules[0 := Policy(name)] else [Policy(name)];
            Makes(w, EnsureRole(w, name), c.(roles := c.roles[key := Role(w.store.revision + 1, rules)]))
  {
    hide Read, Mutate;
    var c, key := w.store.children, ChildName(name, "role");
    var got := Read(w, FindIn(Roles(), key));
    AloneRead(w, FindIn(Roles(), key));
    if got.value.Success? {
      var role := got.value.value;
      AloneMutate(got.world, UpdateRole(key, role.(rules := role.rules[0 := Policy(name)])));
    } else {
      AloneMutate(got.world, CreateRole(key, Role(0, [Policy(name)])));
    }
  }

  lemma QuietBinding(w: World, name: string)
    requires Alone(w.env)
    ensures var c, key := w.store.children, ChildName(name, "rb");
            Makes(w, EnsureBinding(w, name),
                  if key in c.bindings then c
                  else c.(bindings := c.bindings[key := Binding(ChildName(name, "sa"), ChildName(name, "role"))]))
  {
    hide Read, Mutate;
    var key := ChildName(name, "rb");
    var got := Read(w, FindIn(Bindings(), key));
    AloneRead(w, FindIn(Bindings(), key));
    AloneMutate(got.world, CreateBinding(key, Binding(ChildName(name, "sa"), ChildName(name, "role"))));
  }

  lemma QuietWrite(w: World, key: string, v: JobValues)
    requires Alone(w.env)
    ensures var c := w.store.children;
            var job := SetValues(if key in c.jobs then c.jobs[key] else NewJob(), w.image, v);
            Makes(w, CreateOrUpdateJob(w, key, v), c.(jobs := c.jobs[key := job.(version := w.store.revision + 1)]))
  {
    hide Read, Mutate, SetValues;
    SettingKeepsVersions(w.image, v);
    var got := Read(w, FindIn(Jobs(), key));
    AloneRead(w, FindIn(Jobs(), key));
    if got.value.Success? {
      AloneMutate(got.world, UpdateJob(key, SetValues(got.value.value, w.image, v)));
    } else {
      AloneMutate(got.world, CreateJob(key, SetValues(NewJob(), w.image, v)));
    }
  }

  lemma SettingKeepsVersions(image: string, v: JobValues)
    ensures forall job :: SetValues(job, image, v).version == job.version
  {
  }

  /** A removal whose read fails takes the CronJob for gone. */
  lemma QuietRemove(w: World, key: string)
    requires Alone(w.env) && !Fails(VerdictOf(w))
    ensures Makes(w, RemoveJob(w, key), w.store.children.(jobs := w.store.children.jobs - {key}))
  {
    hide Read, Mutate;
    var c := w.store.children;
    var got := Read(w, FindIn(Jobs(), key));
    AloneRead(w, FindIn(Jobs(), key));
    AloneMutate(got.world, DeleteJob(key));
    if key !in c.jobs {
      assert c.jobs - {key} == c.jobs;
    }
  }

  /** The read before a removal, if there is one, is answered. */
  predicate RemovalSeen(w: World, schedule: Option<string>) {
    schedule.None? ==> !Fails(VerdictOf(w))
  }

  lemma QuietJob(w: World, name: string, command: string, schedule: Option<string>)
    requires |command| <= 6 && Alone(w.env) && RemovalSeen(w, schedule)
    ensures var c, key := w.store.children, ChildName(name, command);
            Makes(w, ReconcileJob(w, name, command, schedule),
                  c.(jobs := WithVersion(
                       SettledJobs(c.jobs, w.image, name, command, schedule), key, w.store.revision + 1)))
  {
    hide CreateOrUpdateJob, RemoveJob;
    var key := ChildName(name, command);
    if schedule.Some? {
      QuietWrite(w, key, JobValues(name, schedule.value, command));
    } else {
      QuietRemove(w, key);
    }
  }

  function WithVersion(jobs: map<string, Job>, key: string, v: nat): map<string, Job> {
    if key in jobs then jobs[key := jobs[key].(version := v)] else jobs
  }

  lemma QuietRBAC(w: World, name: string) returns (v: nat)
    requires Alone(w.env) && RoleIntact(w.store.children, name)
    ensures Makes(w, CreateRBAC(w, name), SettledRBAC(w.store.children, name, v))
  {
    hide EnsureAccount, EnsureRole, EnsureBinding;
    var a := EnsureAccount(w, name);
    QuietAccount(w, name);
    v := a.world.store.revision + 1;
    if a.outcome.Pass? {
      var b := EnsureRole(a.world, name);
      QuietRole(a.world, name);
      if b.outcome.Pass? {
        CalmJoins(w, a.world, b.world);
        var d := EnsureBinding(b.world, name);
        QuietBinding(b.world, name);
        if d.outcome.Pass? {
          CalmJoins(w, b.world, d.world);
        }
      }
    }
  }

  lemma ContentOfRBAC(c: Children, name: string, v: nat)
    requires RoleIntact(c, name)
    ensures RoleIntact(Content(c), name)
    ensures Content(SettledRBAC(c, name, v)) == SettledRBAC(Content(c), name, 0)
  {
  }

  lemma ContentOfJobs(c: Children, image: string, name: string, command: string, schedule: Option<string>, v: nat)
    requires |command| <= 6
    ensures var key := ChildName(name, command);
            Content(c.(jobs := WithVersion(SettledJobs(c.jobs, image, name, command, schedule), key, v))) ==
            Content(c).(jobs := SettledJobs(Content(c).jobs, image, name, command, schedule))
  {
  }

  /** As `Makes`, for contents. */
  ghost predicate MakesContent(w: World, d: Done, c: Children) {
    && (d.outcome == Pass ==> Calm(w, d.world) && Content(d.world.store.children) == c)
    && (w.env == [] ==> d.outcome == Pass)
  }

  /** The two CronJobs, one after the other. */
  function ReconcileJobs(w: World, name: string, inst: Instance): Done {
    var b := ReconcileJob(w, name, IDLE, inst.idling);
    if b.outcome.Fail? then b else ReconcileJob(b.world, name, WAKEUP, inst.waking)
  }

  /** The reads before the two possible removals are answered. */
  predicate RemovalsSeen(w: World, name: string, inst: Instance) {
    RemovalSeen(w, inst.idling) && RemovalSeen(ReconcileJob(w, name, IDLE, inst.idling).world, inst.waking)
  }

  lemma QuietJobs(w: World, name: string, inst: Instance)
    requires Alone(w.env) && RemovalsSeen(w, name, inst)
    ensures var jobs := SettledJobs(Content(w.store.children).jobs, w.image, name, IDLE, inst.idling);
            MakesContent(w, ReconcileJobs(w, name, inst),
              Content(w.store.children).(jobs := SettledJobs(jobs, w.image, name, WAKEUP, inst.waking)))
  {
    hide ReconcileJob, SettledJobs, Content;
    var b := ReconcileJob(w, name, IDLE, inst.idling);
    QuietJob(w, name, IDLE, inst.idling);
    if b.outcome.Pass? {
      var d := ReconcileJob(b.world, name, WAKEUP, inst.waking);
      QuietJob(b.world, name, WAKEUP, inst.waking);
      if d.outcome.Pass? {
        CalmJoins(w, b.world, d.world);
      }
      ContentOfJobs(w.store.children, w.image, name, IDLE, inst.idling, w.store.revision + 1);
      ContentOfJobs(b.world.store.children, w.image, name, WAKEUP, inst.waking, b.world.store.revision + 1);
    }
  }

  /** No read of a CronJob that should go is left unanswered. */
  predicate ReadsAnswered(w: World, name: string, inst: Instance) {
    RemovalsSeen(CreateRBAC(w, name).world, name, inst)
  }

  lemma UndisturbedAnswers(w: World, name: string, inst: Instance)
    requires w.env == [] && RoleIntact(w.store.children, name)
    ensures ReadsAnswered(w, name, inst)
  {
    hide CreateRBAC, ReconcileJob;
    var v := QuietRBAC(w, name);
    var a := CreateRBAC(w, name).world;
    QuietJob(a, name, IDLE, inst.idling);
  }

  /**
    The call by call pass and the plain description agree, whenever the pass succeeds with its
    removal reads answered, through any failures; undisturbed, it does succeed.
   */
  lemma PassedChildren(w: World, name: string, inst: Instance)
    requires Alone(w.env) && RoleIntact(w.store.children, name) && ReadsAnswered(w, name, inst)
    ensures RoleIntact(Content(w.store.children), name)
    ensures MakesContent(w, ReconcileCronStrategies(w, name, inst),
              Settled(Content(w.store.children), w.image, name, inst))
  {
    hide CreateRBAC, ReconcileJob, SettledJobs, Content;
    var a := CreateRBAC(w, name);
    var v := QuietRBAC(w, name);
    ContentOfRBAC(w.store.children, name, v);
    if a.outcome.Pass? {
      QuietJobs(a.world, name, inst);
      var d := ReconcileJobs(a.world, name, inst);
      if d.outcome.Pass? {
        CalmJoins(w, a.world, d.world);
      }
    }
  }

  lemma QuietChildren(w: World, name: string, inst: Instance)
    requires w.env == [] && RoleIntact(w.store.children, name)
    ensures var d := ReconcileCronStrategies(w, name, inst);
            && d.outcome == Pass && Calm(w, d.world)
            && RoleIntact(Content(w.store.children), name)
            && Content(d.world.store.children) == Settled(Content(w.store.children), w.image, name, inst)
  {
    hide ReconcileCronStrategies, Settled, Content, ReadsAnswered;
    UndisturbedAnswers(w, name, inst);
    PassedChildren(w, name, inst);
  }

  // ----- Children match the spec -----

  /** The CronJob of a command exists exactly when its schedule is set, with the desired values. */
  predicate JobMatches(jobs: map<string, Job>, image: string, name: string, command: string, schedule: Option<string>)
    requires |command| <= 6
  {
    var key := ChildName(name, command);
    && (key in jobs <==> schedule.Some?)
    && (key in jobs ==>
          && jobs[key].account == ChildName(name, "sa") && !jobs[key].suspend
          && jobs[key].schedule == schedule.value
          && Lookup(jobs[key].containers, CONTAINER).image == image
          && Lookup(jobs[key].containers, CONTAINER).args == [command, name])
  }

  /** An existing CronJob has exactly one `kidlectl` container. */
  predicate JobIntact(jobs: map<string, Job>, key: string) {
    key in jobs ==> First(jobs[key].containers, CONTAINER) == Last(jobs[key].containers, CONTAINER)
  }

  /** Single `kidlectl` containers wherever the instance's two CronJobs exist. */
  predicate Single(jobs: map<string, Job>, name: string) {
    JobIntact(jobs, ChildName(name, IDLE)) && JobIntact(jobs, ChildName(name, WAKEUP))
  }

  lemma SettledJobMatches(
    jobs: map<string, Job>, image: string, name: string, command: string, schedule: Option<string>)
    requires |command| <= 6 && JobIntact(jobs, ChildName(name, command))
    ensures JobMatches(SettledJobs(jobs, image, name, command, schedule), image, name, command, schedule)
    ensures forall k :: k != ChildName(name, command) ==>
              var next := SettledJobs(jobs, image, name, command, schedule);
              (k in next <==> k in jobs) && (k in jobs ==> next[k] == jobs[k])
  {
    var key := ChildName(name, command);
    if schedule.Some? {
      var job := if key in jobs then jobs[key] else NewJob();
      SettingShows(job.containers, image, JobValues(name, schedule.value, command));
    }
  }

  lemma SettledJobsMatch(jobs: map<string, Job>, image: string, name: string, inst: Instance)
    requires Single(jobs, name)
    ensures var first := SettledJobs(jobs, image, name, IDLE, inst.idling);
            JobsMatch(jobs, SettledJobs(first, image, name, WAKEUP, inst.waking), image, name, inst)
  {
    CommandsNeverMeet(name, name);
    SettledJobMatches(jobs, image, name, IDLE, inst.idling);
    var first := SettledJobs(jobs, image, name, IDLE, inst.idling);
    SettledJobMatches(first, image, name, WAKEUP, inst.waking);
  }

  /** Writing the desired values keeps a single `kidlectl` container single. */
  lemma SettledJobIntact(
    jobs: map<string, Job>, image: string, name: string, command: string, schedule: Option<string>, key: string)
    requires |command| <= 6 && JobIntact(jobs, key)
    ensures JobIntact(SettledJobs(jobs, image, name, command, schedule), key)
  {
    if key == ChildName(name, command) && schedule.Some? {
      var job := if key in jobs then jobs[key] else NewJob();
      var values := JobValues(name, schedule.value, command);
      SettingKeepsNames(job.containers, Desired(Lookup(job.containers, CONTAINER), image, values), CONTAINER);
    }
  }

  lemma SettledJobsIntact(jobs: map<string, Job>, image: string, name: string, inst: Instance)
    requires Single(jobs, name)
    ensures var first := SettledJobs(jobs, image, name, IDLE, inst.idling);
            var next := SettledJobs(first, image, name, WAKEUP, inst.waking);
            Single(next, name)
  {
    var first := SettledJobs(jobs, image, name, IDLE, inst.idling);
    SettledJobIntact(jobs, image, name, IDLE, inst.idling, ChildName(name, IDLE));
    SettledJobIntact(jobs, image, name, IDLE, inst.idling, ChildName(name, WAKEUP));
    SettledJobIntact(first, image, name, WAKEUP, inst.waking, ChildName(name, IDLE));
    SettledJobIntact(first, image, name, WAKEUP, inst.waking, ChildName(name, WAKEUP));
  }

  ghost predicate JobsMatch(
    before: map<string, Job>, after: map<string, Job>, image: string, name: string, inst: Instance) {
    && JobMatches(after, image, name, IDLE, inst.idling)
    && JobMatches(after, image, name, WAKEUP, inst.waking)
    && forall k :: k != ChildName(name, IDLE) && k != ChildName(name, WAKEUP) ==>
         (k in after <==> k in before) && (k in before ==> after[k] == before[k])
  }

  predicate RBACMatches(c: Children, x: Children, name: string) {
    var account, role, binding := ChildName(name, "sa"), ChildName(name, "role"), ChildName(name, "rb");
    && account in x.accounts && role in x.roles && binding in x.bindings
    && x.roles[role].rules != [] && x.roles[role].rules[0] == Policy(name)
    && x.accounts - {account} == c.accounts - {account}
    && x.roles - {role} == c.roles - {role}
    && x.bindings - {binding} == c.bindings - {binding}
  }

  /** The desired objects are there, and every object of another name is as it was. */
  ghost predicate ChildrenMatchSpec(c: Children, x: Children, image: string, name: string, inst: Instance) {
    RBACMatches(c, x, name) && JobsMatch(c.jobs, x.jobs, image, name, inst)
  }

  lemma SettledMatches(c: Children, image: string, name: string, inst: Instance)
    requires RoleIntact(c, name)
    requires Single(c.jobs, name)
    ensures ChildrenMatchSpec(c, Settled(c, image, name, inst), image, name, inst)
  {
    SettledJobsMatch(c.jobs, image, name, inst);
    RBACSettles(c, SettledRBAC(c, name, 0), name);
  }

  lemma RBACSettles(c: Children, x: Children, name: string)
    requires RoleIntact(c, name) && x == SettledRBAC(c, name, 0)
    ensures RBACMatches(c, x, name)
  {
    var role, binding := ChildName(name, "role"), ChildName(name, "rb");
    assert x.roles - {role} == c.roles - {role};
    assert x.bindings - {binding} == c.bindings - {binding};
  }

  /**
    The whole of what a successful pass leaves behind, and what it leaves alone: calls may fail
    and answers be lost, as long as the reads before removals are answered.
   */
  lemma ChildrenMatch(w: World, name: string, inst: Instance)
    requires Alone(w.env) && RoleIntact(w.store.children, name) && ReadsAnswered(w, name, inst)
    requires Single(w.store.children.jobs, name)
    ensures var d := ReconcileCronStrategies(w, name, inst);
            && (w.env == [] ==> d.outcome == Pass)
            && (d.outcome == Pass ==>
                  ChildrenMatchSpec(Content(w.store.children), Content(d.world.store.children), w.image, name, inst))
  {
    hide ReconcileCronStrategies, Settled, ReadsAnswered, ChildrenMatchSpec;
    PassedChildren(w, name, inst);
    SettledMatches(Content(w.store.children), w.image, name, inst);
  }

  lemma SettledJobTwice(jobs: map<string, Job>, image: string, name: string, command: string, schedule: Option<string>)
    requires |command| <= 6
    ensures var next := SettledJobs(jobs, image, name, command, schedule);
            SettledJobs(next, image, name, command, schedule) == next
  {
    var key := ChildName(name, command);
    if schedule.Some? {
      var job := if key in jobs then jobs[key] else NewJob();
      SettingIsIdempotent(job.containers, image, JobValues(name, schedule.value, command));
    }
  }

  lemma SettledJobsCommute(
    jobs: map<string, Job>, image: string, name: string, idling: Option<string>, waking: Option<string>)
    ensures SettledJobs(SettledJobs(jobs, image, name, IDLE, idling), image, name, WAKEUP, waking) ==
            SettledJobs(SettledJobs(jobs, image, name, WAKEUP, waking), image, name, IDLE, idling)
  {
    hide SetValues, ChildName;
    CommandsNeverMeet(name, name);
  }

  /** Settling twice is settling once, also for CronJobs somebody has tampered with. */
  lemma SettledTwice(c: Children, image: string, name: string, inst: Instance)
    requires RoleIntact(c, name)
    ensures var x := Settled(c, image, name, inst);
            RoleIntact(x, name) && Settled(x, image, name, inst) == x
  {
    var x, role := Settled(c, image, name, inst), ChildName(name, "role");
    assert x.roles[role].rules[0 := Policy(name)] == x.roles[role].rules;
    assert SettledRBAC(x, name, 0) == x;
    var a := SettledJobs(c.jobs, image, name, IDLE, inst.idling);
    var b := SettledJobs(a, image, name, WAKEUP, inst.waking);
    SettledJobTwice(a, image, name, WAKEUP, inst.waking);
    SettledJobsCommute(c.jobs, image, name, inst.idling, inst.waking);
    SettledJobTwice(SettledJobs(c.jobs, image, name, WAKEUP, inst.waking), image, name, IDLE, inst.idling);
    assert SettledJobs(b, image, name, IDLE, inst.idling) == b;
  }

  lemma IntactContent(c: Children, name: string)
    ensures RoleIntact(c, name) <==> RoleIntact(Content(c), name)
  {
    var key := ChildName(name, "role");
    assert key in c.roles ==> Content(c).roles[key].rules == c.roles[key].rules;
  }

  /** A second undisturbed pass leaves the contents of every owned object unchanged. */
  lemma SecondPassKeepsChildren(w: World, name: string, inst: Instance)
    requires w.env == [] && RoleIntact(w.store.children, name)
    ensures var first := ReconcileCronStrategies(w, name, inst).world;
            var second := ReconcileCronStrategies(first, name, inst);
            second.outcome == Pass && Content(second.world.store.children) == Content(first.store.children)
  {
    var first := ReconcileCronStrategies(w, name, inst).world;
    QuietChildren(w, name, inst);
    SettledTwice(Content(w.store.children), w.image, name, inst);
    IntactContent(first.store.children, name);
    QuietChildren(first, name, inst);
  }

  /** Undisturbed, the owned objects are settled if and only if the role has a rule to overwrite. */
  lemma ChildrenSettleIff(w: World, name: string, inst: Instance)
    requires w.env == []
    ensures ReconcileCronStrategies(w, name, inst).outcome == Pass <==> RoleIntact(w.store.children, name)
  {
    if RoleIntact(w.store.children, name) {
      QuietChildren(w, name, inst);
    } else {
      QuietAccount(w, name);
      assert EnsureRole(EnsureAccount(w, name).world, name).outcome == Fail(Panicked);
    }
  }

  /**
    A removal under every script. It passes exactly when its read failed, for whatever reason,
    or its delete was not refused and either found nothing or was answered; after a read that
    succeeded and a removal that passed the CronJob is gone.
   */
  lemma RemovalPassesIff(w: World, key: string)
    ensures var got, d := Read(w, FindIn(Jobs(), key)), RemoveJob(w, key);
            var c, v := Arrive(got.world).store.children, VerdictOf(got.world);
            && (got.value.Failure? ==> d == Done(got.world, Pass))
            && (got.value.Success? ==>
                  && (d.outcome == Pass <==> !v.Refused? && (key !in c.jobs || !v.Lost?))
                  && (d.outcome == Pass ==> key !in d.world.store.children.jobs))
  {
  }

  /** Whatever else fails, a Role without rules is never got past, and stays so. */
  lemma BrokenRoleFails(w: World, name: string, inst: Instance)
    requires Alone(w.env) && !RoleIntact(w.store.children, name)
    ensures var d := ReconcileCronStrategies(w, name, inst);
            d.outcome.Fail? && !RoleIntact(d.world.store.children, name)
  {
    hide Read, Mutate, EnsureBinding, ReconcileJob;
    var sa, role := ChildName(name, "sa"), ChildName(name, "role");
    var looked, a := Read(w, FindAccount(sa)).world, EnsureAccount(w, name);
    AloneRead(w, FindAccount(sa));
    AddingAccountKeepsRoles(looked, sa);
    if a.outcome.Pass? {
      AloneRead(a.world, FindIn(Roles(), role));
    }
  }

  lemma AddingAccountKeepsRoles(w: World, account: string)
    requires Alone(w.env)
    ensures var v := Mutate(w, CreateAccount(account)).world;
            Alone(v.env) && v.store.children.roles == w.store.children.roles
  {
    AloneArrival(w);
  }

  /**
    With failing calls but no edits, a CronJob that should go is gone after a successful
    removal exactly when it was not there or the read that looked for it succeeded: a failed
    read is taken for absence and the reconcile passes.
   */
  lemma RemovedIff(w: World, key: string)
    requires Alone(w.env) && RemoveJob(w, key).outcome == Pass
    ensures key !in RemoveJob(w, key).world.store.children.jobs <==>
            key !in w.store.children.jobs || !Fails(VerdictOf(w))
  {
    var got := Read(w, FindIn(Jobs(), key));
    ArriveIsOthers(w);
    assert w.env != [] ==> w.env[0] in w.env;
    if got.value.Success? {
      assert Alone(got.world.env);
      assert got.world.env != [] ==> got.world.env[0] in got.world.env;
      ArriveIsOthers(got.world);
    }
  }
}
