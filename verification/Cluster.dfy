/**
  The API server as the operator sees it: versioned objects, updates that succeed only
  against the version they were read at, and everybody else editing in between.

  A `World` carries a script of disturbances, one per API call: what others do just before
  the call arrives, and how the call is answered. An empty script means nobody interferes.
  Every committed change is logged, so a property of the log is a property of every state
  the cluster goes through, in the middle of a reconcile pass as well as between passes.
 */
module Cluster {
  import opened Wrappers
  import opened Decimal
  import opened Annotations
  import Finalizers

  datatype Error = NotFound | Conflict | AlreadyExists | Invalid | Unavailable | BadNumber | Panicked

  // ----- Objects -----

  /**
    A Deployment, StatefulSet or CronJob: the metadata Kidle writes, the two spec fields it
    scales with (`replicas` for the first two kinds, `suspend` for the third), and the rest.
   */
  datatype Workload = Workload(
    version: nat,
    annotations: Annotations,
    replicas: int32,
    suspend: bool,
    rest: string)

  /** An IdlingResource. A schedule is present when its cron strategy is. */
  datatype Instance = Instance(
    version: nat,
    finalizers: seq<string>,
    deleting: bool,
    idle: bool,
    kind: string,
    idling: Option<string>,
    waking: Option<string>)

  datatype Rule = Rule(verbs: seq<string>, groups: seq<string>, resources: seq<string>, names: seq<string>)

  datatype Role = Role(version: nat, rules: seq<Rule>)

  datatype Binding = Binding(account: string, role: string)

  datatype Container = Container(name: string, image: string, args: seq<string>, rest: string)

  /** A CronJob that Kidle owns and that fires `kidlectl`. */
  datatype Job = Job(
    version: nat,
    account: string,
    suspend: bool,
    schedule: string,
    containers: seq<Container>)

  datatype Children = Children(
    accounts: set<string>,
    roles: map<string, Role>,
    bindings: map<string, Binding>,
    jobs: map<string, Job>)

  /** One namespace: all instances by name, the workload they refer to, and the owned objects. */
  datatype State = State(
    revision: nat,
    instances: map<string, Instance>,
    workload: Option<Workload>,
    children: Children)

  /** Versions are handed out from the revision counter, so none is ahead of it. */
  ghost predicate Ordered(s: State) {
    && (s.workload.Some? ==> s.workload.value.version <= s.revision)
    && (forall n :: n in s.instances ==> s.instances[n].version <= s.revision)
  }

  type Store = s: State | Ordered(s) witness State(0, map[], None, Children({}, map[], map[], map[]))

  /** None of Kidle's annotations is on it. */
  predicate Bare(wl: Workload) {
    !Has(wl.annotations, REFERENCE) && !Has(wl.annotations, PREVIOUS) && !Has(wl.annotations, EXPECTED)
  }

  predicate Holds(inst: Instance) {
    Finalizers.KIDLE in inst.finalizers
  }

  predicate Held(s: Store, name: string) {
    name in s.instances && Holds(s.instances[name])
  }

  // ----- Everybody else -----

  /** External changes. None of them writes a kidle annotation or Kidle's finalizer. */
  datatype Edit =
    | EditWorkload(annotations: map<string, string>, replicas: int32, suspend: bool, rest: string)
    | DeleteWorkload
    | CreateWorkload(annotations: map<string, string>, replicas: int32, suspend: bool, rest: string)
    | EditInstance(name: string, idle: bool, finalizers: seq<string>, idling: Option<string>, waking: Option<string>)
    | DeleteInstance(name: string)
    | CreateInstance(name: string, instance: Instance)
    | TouchChildren(roles: map<string, Role>, jobs: map<string, Job>)
    | ReplaceChildren(children: Children)

  /** An object that is being deleted disappears with its last finalizer. */
  function PutInstance(s: Store, name: string, inst: Instance): Store {
    var stored := inst.(version := s.revision + 1);
    s.(revision := s.revision + 1,
       instances := if inst.deleting && inst.finalizers == [] then s.instances - {name}
                    else s.instances[name := stored])
  }

  function PutWorkload(s: Store, wl: Workload): Store {
    s.(revision := s.revision + 1, workload := Some(wl.(version := s.revision + 1)))
  }

  function ApplyEdit(s: Store, e: Edit): Store {
    match e
    case EditWorkload(annotations, replicas, suspend, rest) =>
      if s.workload.None? then s
      else PutWorkload(s, Workload(0, Some(Foreign(annotations) + Kidle(View(s.workload.value.annotations))),
                                   replicas, suspend, rest))
    case DeleteWorkload =>
      s.(revision := s.revision + 1, workload := None)
    case CreateWorkload(annotations, replicas, suspend, rest) =>
      if s.workload.Some? then s
      else PutWorkload(s, Workload(0, Some(Foreign(annotations)), replicas, suspend, rest))
    case EditInstance(name, idle, finalizers, idling, waking) =>
      if name !in s.instances then s
      else
        var current := s.instances[name];
        var others := Finalizers.Removed(finalizers, Finalizers.KIDLE);
        PutInstance(s, name, current.(idle := idle, idling := idling, waking := waking,
                                  finalizers := if Holds(current) then others + [Finalizers.KIDLE] else others))
    case DeleteInstance(name) =>
      if name !in s.instances then s else PutInstance(s, name, s.instances[name].(deleting := true))
    case CreateInstance(name, inst) =>
      if name in s.instances then s else PutInstance(s, name, inst.(deleting := false))
    case TouchChildren(roles, jobs) =>
      var v := s.revision + 1;
      var c := s.children;
      s.(revision := v, children := c.(
        roles := map k | k in c.roles :: if k in roles then roles[k].(version := v) else c.roles[k],
        jobs := map k | k in c.jobs :: if k in jobs then jobs[k].(version := v) else c.jobs[k]))
    case ReplaceChildren(children) =>
      s.(revision := s.revision + 1, children := children)
  }

  // ----- The controller's changes to the workload -----

  /** The four edits the idlers make inside a retried read-modify-write. */
  datatype Change =
    | Refer(name: string)
    | ToZero
    | ToCount(count: int32)
    | Strip
    | ToSuspend(on: bool)

  function Apply(change: Change, wl: Workload): Workload {
    match change
    case Refer(name) =>
      wl.(annotations := With(wl.annotations, REFERENCE, name))
    case ToZero =>
      wl.(annotations := With(With(wl.annotations, PREVIOUS, Itoa(wl.replicas)), EXPECTED, "0"), replicas := 0)
    case ToCount(count) =>
      wl.(annotations := With(wl.annotations, EXPECTED, Itoa(count)), replicas := count)
    case Strip =>
      wl.(annotations := Without(Without(Without(wl.annotations, REFERENCE), PREVIOUS), EXPECTED))
    case ToSuspend(on) =>
      wl.(annotations := With(wl.annotations, EXPECTED, FormatBool(on)), suspend := on)
  }

  // ----- The world -----

  datatype Op =
    | Outside(edit: Edit)
    | Write(change: Change)
    | TakeFinalizer
    | DropFinalizer
    | SetIdle(flag: bool)
    | WriteChild

  datatype Entry = Entry(op: Op, before: Store, after: Store)

  /**
    `Refused`: the call fails and changes nothing. `Lost`: an update is committed but its
    answer is lost, so the caller sees a failure. The stale verdicts answer a read from an
    old cache; an update is never stale.
   */
  datatype Verdict =
    | Served
    | Refused
    | Lost
    | StaleInstance(instance: Instance)
    | StaleWorkload(workload: Workload)
    | StaleMissing

  datatype Disturbance = Disturbance(edits: seq<Edit>, verdict: Verdict)

  datatype World = World(image: string, store: Store, env: seq<Disturbance>, log: seq<Entry>)

  datatype Reply<+T> = Reply(world: World, value: Result<T, Error>)

  datatype Done = Done(world: World, outcome: Outcome<Error>)

  function Commit(w: World, op: Op, after: Store): World {
    w.(store := after, log := w.log + [Entry(op, w.store, after)])
  }

  function EditAll(w: World, edits: seq<Edit>): World
    decreases |edits|
  {
    if edits == [] then w
    else EditAll(Commit(w, Outside(edits[0]), ApplyEdit(w.store, edits[0])), edits[1..])
  }

  /** The next call arrives: first the edits that win the race against it. */
  function Arrive(w: World): World {
    if w.env == [] then w else EditAll(w.(env := w.env[1..]), w.env[0].edits)
  }

  function VerdictOf(w: World): Verdict {
    if w.env == [] then Served else w.env[0].verdict
  }

  predicate Fails(v: Verdict) {
    v.Refused? || v.Lost?
  }

  /** A copy some read may return: the current version, or any contents of an older one. */
  predicate Snapshot(wl: Workload, s: Store) {
    && wl.version <= s.revision
    && (s.workload.Some? && s.workload.value.version == wl.version ==> wl == s.workload.value)
  }

  predicate InstanceSnapshot(inst: Instance, s: Store, name: string) {
    && inst.version <= s.revision
    && (name in s.instances && s.instances[name].version == inst.version ==> inst == s.instances[name])
  }

  function GetInstance(w: World, name: string): Reply<Instance> {
    var a := Arrive(w);
    match VerdictOf(w)
    case Refused => Reply(a, Failure(Unavailable))
    case Lost => Reply(a, Failure(Unavailable))
    case StaleMissing => Reply(a, Failure(NotFound))
    case StaleInstance(copy) =>
      if InstanceSnapshot(copy, a.store, name) then Reply(a, Success(copy)) else CurrentInstance(a, name)
    case _ => CurrentInstance(a, name)
  }

  function CurrentInstance(w: World, name: string): Reply<Instance> {
    Reply(w, if name in w.store.instances then Success(w.store.instances[name]) else Failure(NotFound))
  }

  function GetWorkload(w: World): Reply<Workload> {
    var a := Arrive(w);
    match VerdictOf(w)
    case Refused => Reply(a, Failure(Unavailable))
    case Lost => Reply(a, Failure(Unavailable))
    case StaleMissing => Reply(a, Failure(NotFound))
    case StaleWorkload(copy) =>
      if Snapshot(copy, a.store) then Reply(a, Success(copy)) else CurrentWorkload(a)
    case _ => CurrentWorkload(a)
  }

  function CurrentWorkload(w: World): Reply<Workload> {
    Reply(w, if w.store.workload.Some? then Success(w.store.workload.value) else Failure(NotFound))
  }

  /** Committed only against the version it was read at; the answer carries the new version. */
  function UpdateWorkload(w: World, wl: Workload, change: Change): Reply<Workload> {
    var a := Arrive(w);
    var v := VerdictOf(w);
    if v.Refused? then Reply(a, Failure(Unavailable))
    else if a.store.workload.None? then Reply(a, Failure(NotFound))
    else if a.store.workload.value.version != wl.version then Reply(a, Failure(Conflict))
    else
      var after := PutWorkload(a.store, wl);
      var done := Commit(a, Write(change), after);
      Reply(done, if v.Lost? then Failure(Unavailable) else Success(after.workload.value))
  }

  /** An object that is being deleted takes no new finalizers. */
  predicate Admits(current: Instance, next: Instance) {
    current.deleting ==> forall f :: f in next.finalizers ==> f in current.finalizers
  }

  function UpdateInstance(w: World, name: string, inst: Instance, op: Op): Reply<Instance> {
    var a := Arrive(w);
    var v := VerdictOf(w);
    if v.Refused? then Reply(a, Failure(Unavailable))
    else if name !in a.store.instances then Reply(a, Failure(NotFound))
    else if a.store.instances[name].version != inst.version then Reply(a, Failure(Conflict))
    else if !Admits(a.store.instances[name], inst) then Reply(a, Failure(Invalid))
    else
      var done := Commit(a, op, PutInstance(a.store, name, inst));
      Reply(done, if v.Lost? then Failure(Unavailable) else Success(inst.(version := a.store.revision + 1)))
  }

  /** A read of an owned object; a lagging cache may not know it yet. */
  function Read<T>(w: World, find: Children -> Option<T>): Reply<T> {
    var a := Arrive(w);
    var v := VerdictOf(w);
    if Fails(v) then Reply(a, Failure(Unavailable))
    else if v.StaleMissing? then Reply(a, Failure(NotFound))
    else
      var found := find(a.store.children);
      Reply(a, if found.Some? then Success(found.value) else Failure(NotFound))
  }

  /** A create, update or delete of an owned object: `change` says what the server makes of it. */
  function Mutate(w: World, change: (Children, nat) -> Result<Children, Error>): Done {
    var a := Arrive(w);
    var v := VerdictOf(w);
    if v.Refused? then Done(a, Fail(Unavailable))
    else
      match change(a.store.children, a.store.revision + 1)
      case Failure(e) => Done(a, Fail(e))
      case Success(c) =>
        var done := Commit(a, WriteChild, a.store.(revision := a.store.revision + 1, children := c));
        Done(done, if v.Lost? then Fail(Unavailable) else Pass)
  }
}
