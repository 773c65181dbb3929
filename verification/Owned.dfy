/** The objects a schedule needs: a ServiceAccount, a Role, a RoleBinding and two CronJobs. */
module Owned {
  import opened Wrappers
  import opened DnsName
  import opened Cluster

  const CONTAINER := "kidlectl"
  const IDLE := "idle"
  const WAKEUP := "wakeup"

  /** The names of an instance's own objects; such a short suffix always leaves room for the tag. */
  function ChildName(name: string, suffix: string): string
    requires |suffix| <= 6
  {
    ToDNSName("kidle", name, suffix).value
  }

  function Policy(name: string): Rule {
    Rule(["get", "patch", "update"], ["kidle.kidle.dev"], ["idlingresources"], [name])
  }

  // ----- Containers -----

  /** A later container of the same name wins, as in a loop that fills a map. */
  function ToMap(containers: seq<Container>): map<string, Container> {
    if containers == [] then map[]
    else
      var last := containers[|containers| - 1];
      ToMap(containers[..|containers| - 1])[last.name := last]
  }

  /** The first container of that name is replaced; nothing happens when there is none. */
  function Replaced(containers: seq<Container>, c: Container): seq<Container> {
    if containers == [] then []
    else if containers[0].name == c.name then [c] + containers[1..]
    else [containers[0]] + Replaced(containers[1..], c)
  }

  /** A missing key reads as Go's zero value. */
  function Lookup(containers: seq<Container>, name: string): Container {
    var m := ToMap(containers);
    if name in m then m[name] else Container("", "", [], "")
  }

  // ----- CronJobs -----

  datatype JobValues = JobValues(name: string, schedule: string, command: string)

  function NewJob(): Job {
    Job(0, "", false, "", [Container(CONTAINER, "", [], "")])
  }

  function Desired(c: Container, image: string, v: JobValues): Container {
    c.(image := image, args := [v.command, v.name])
  }

  function SetValues(job: Job, image: string, v: JobValues): Job {
    job.(account := ChildName(v.name, "sa"), suspend := false, schedule := v.schedule,
         containers := Replaced(job.containers, Desired(Lookup(job.containers, CONTAINER), image, v)))
  }

  // ----- What the server makes of a write -----

  type Write = (Children, nat) -> Result<Children, Error>

  function FindAccount(account: string): Children -> Option<string> {
    (c: Children) => if account in c.accounts then Some(account) else None
  }

  function FindIn<T>(m: Children -> map<string, T>, key: string): Children -> Option<T> {
    (c: Children) => if key in m(c) then Some(m(c)[key]) else None
  }

  function Roles(): Children -> map<string, Role> { (c: Children) => c.roles }

  function Bindings(): Children -> map<string, Binding> { (c: Children) => c.bindings }

  function Jobs(): Children -> map<string, Job> { (c: Children) => c.jobs }

  function CreateAccount(account: string): Write {
    (c: Children, v: nat) =>
      if account in c.accounts then Failure(AlreadyExists) else Success(c.(accounts := c.accounts + {account}))
  }

  function CreateRole(key: string, role: Role): Write {
    (c: Children, v: nat) =>
      if key in c.roles then Failure(AlreadyExists) else Success(c.(roles := c.roles[key := role.(version := v)]))
  }

  function UpdateRole(key: string, role: Role): Write {
    (c: Children, v: nat) =>
      if key !in c.roles then Failure(NotFound)
      else if c.roles[key].version != role.version then Failure(Conflict)
      else Success(c.(roles := c.roles[key := role.(version := v)]))
  }

  function CreateBinding(key: string, b: Binding): Write {
    (c: Children, v: nat) =>
      if key in c.bindings then Failure(AlreadyExists) else Success(c.(bindings := c.bindings[key := b]))
  }

  function CreateJob(key: string, job: Job): Write {
    (c: Children, v: nat) =>
      if key in c.jobs then Failure(AlreadyExists) else Success(c.(jobs := c.jobs[key := job.(version := v)]))
  }

  function UpdateJob(key: string, job: Job): Write {
    (c: Children, v: nat) =>
      if key !in c.jobs then Failure(NotFound)
      else if c.jobs[key].version != job.version then Failure(Conflict)
      else Success(c.(jobs := c.jobs[key := job.(version := v)]))
  }

  function DeleteJob(key: string): Write {
    (c: Children, v: nat) =>
      if key !in c.jobs then Failure(NotFound) else Success(c.(jobs := c.jobs - {key}))
  }

  // ----- Reconciling -----

  function EnsureAccount(w: World, name: string): Done {
    var key := ChildName(name, "sa");
    var got := Read(w, FindAccount(key));
    match got.value
    case Success(_) => Done(got.world, Pass)
    case Failure(NotFound) => Mutate(got.world, CreateAccount(key))
    case Failure(e) => Done(got.world, Fail(e))
  }

  /** An existing role gets its first rule overwritten; a role without rules makes that panic. */
  function EnsureRole(w: World, name: string): Done {
    var key := ChildName(name, "role");
    var got := Read(w, FindIn(Roles(), key));
    match got.value
    case Success(role) =>
      if role.rules == [] then Done(got.world, Fail(Panicked))
      else Mutate(got.world, UpdateRole(key, role.(rules := role.rules[0 := Policy(name)])))
    case Failure(NotFound) => Mutate(got.world, CreateRole(key, Role(0, [Policy(name)])))
    case Failure(e) => Done(got.world, Fail(e))
  }

  /** An existing binding is left as it is. */
  function EnsureBinding(w: World, name: string): Done {
    var key := ChildName(name, "rb");
    var got := Read(w, FindIn(Bindings(), key));
    match got.value
    case Success(_) => Done(got.world, Pass)
    case Failure(NotFound) =>
      Mutate(got.world, CreateBinding(key, Binding(ChildName(name, "sa"), ChildName(name, "role"))))
    case Failure(e) => Done(got.world, Fail(e))
  }

  function CreateRBAC(w: World, name: string): Done {
    var account := EnsureAccount(w, name);
    if account.outcome.Fail? then account
    else
      var role := EnsureRole(account.world, name);
      if role.outcome.Fail? then role else EnsureBinding(role.world, name)
  }

  /** The change test compares two addresses, so an existing CronJob is always written again. */
  function CreateOrUpdateJob(w: World, key: string, v: JobValues): Done {
    var got := Read(w, FindIn(Jobs(), key));
    match got.value
    case Success(job) => Mutate(got.world, UpdateJob(key, SetValues(job, w.image, v)))
    case Failure(NotFound) => Mutate(got.world, CreateJob(key, SetValues(NewJob(), w.image, v)))
    case Failure(e) => Done(got.world, Fail(e))
  }

  /** A read that fails, for whatever reason, is taken to mean there is nothing to delete. */
  function RemoveJob(w: World, key: string): Done {
    var got := Read(w, FindIn(Jobs(), key));
    if got.value.Failure? then Done(got.world, Pass)
    else
      var done := Mutate(got.world, DeleteJob(key));
      if done.outcome == Fail(NotFound) then Done(done.world, Pass) else done
  }

  function ReconcileJob(w: World, name: string, command: string, schedule: Option<string>): Done
    requires |command| <= 6
  {
    var key := ChildName(name, command);
    match schedule
    case Some(s) => CreateOrUpdateJob(w, key, JobValues(name, s, command))
    case None => RemoveJob(w, key)
  }

  function ReconcileCronStrategies(w: World, name: string, inst: Instance): Done {
    var rbac := CreateRBAC(w, name);
    if rbac.outcome.Fail? then rbac
    else
      var idling := ReconcileJob(rbac.world, name, IDLE, inst.idling);
      if idling.outcome.Fail? then idling
      else ReconcileJob(idling.world, name, WAKEUP, inst.waking)
  }
}
