/**
  The three idlers. Each shares one mutable local copy with the embedded `ObjectIdler`, and
  each retried closure is a bounded loop over that copy. A method ends in the world, with the
  local copy and with the outcome that its counterpart in Idling.dfy gives.
 */
module Idlers {
  import opened Wrappers
  import opened Decimal
  import opened Annotations
  import opened Cluster
  import opened Idling
  import opened Clients

  /** What a retry loop still has to do: nothing, or the rest of the attempts after a conflict. */
  ghost predicate Pending(spec: Try, w: World, local: Workload, change: Change, attempts: nat, err: Outcome<Error>) {
    spec == if err == Fail(Conflict) then Retry(w, local, change, attempts) else Try(w, local, err)
  }

  /** The part common to all kinds. */
  class ObjectIdler {
    const client: Client
    const local: LocalObject

    constructor (client: Client, local: LocalObject)
      ensures this.client == client && this.local == local
    {
      this.client, this.local := client, local;
    }

    method ReferOnce(name: string) returns (err: Outcome<Error>)
      modifies client, local
      ensures Try(client.world, local.Value(), err) == Attempt(old(client.world), old(local.Value()), Refer(name))
    {
      err := client.GetWorkload(local);
      if err.Pass? {
        local.AddAnnotation(REFERENCE, name);
        err := client.UpdateWorkload(local, Refer(name));
      }
    }

    method RetryRefer(name: string) returns (err: Outcome<Error>)
      modifies client, local
      ensures Try(client.world, local.Value(), err) ==
              Retry(old(client.world), old(local.Value()), Refer(name), Attempts())
    {
      hide Attempt;
      ghost var spec := Retry(client.world, local.Value(), Refer(name), Attempts());
      var attempts := Attempts();
      err := Fail(Conflict);
      while attempts > 0 && err == Fail(Conflict)
        invariant Pending(spec, client.world, local.Value(), Refer(name), attempts, err)
      {
        err := ReferOnce(name);
        attempts := attempts - 1;
      }
    }

    method SetReference(name: string) returns (err: Outcome<Error>)
      modifies client, local
      ensures Try(client.world, local.Value(), err) == Idling.SetReference(old(client.world), old(local.Value()), name)
    {
      var found := local.HasAnnotation(REFERENCE);
      if found {
        return Pass;
      }
      err := RetryRefer(name);
    }

    method StripOnce() returns (err: Outcome<Error>)
      modifies client, local
      ensures Try(client.world, local.Value(), err) == Attempt(old(client.world), old(local.Value()), Strip)
    {
      err := client.GetWorkload(local);
      if err.Pass? {
        local.RemoveAnnotation(REFERENCE);
        local.RemoveAnnotation(PREVIOUS);
        local.RemoveAnnotation(EXPECTED);
        err := client.UpdateWorkload(local, Strip);
      }
    }

    method RetryStrip() returns (err: Outcome<Error>)
      modifies client, local
      ensures Try(client.world, local.Value(), err) == Retry(old(client.world), old(local.Value()), Strip, Attempts())
    {
      hide Attempt;
      ghost var spec := Retry(client.world, local.Value(), Strip, Attempts());
      var attempts := Attempts();
      err := Fail(Conflict);
      while attempts > 0 && err == Fail(Conflict)
        invariant Pending(spec, client.world, local.Value(), Strip, attempts, err)
      {
        err := StripOnce();
        attempts := attempts - 1;
      }
    }

    method RemoveAnnotations() returns (err: Outcome<Error>)
      modifies client, local
      ensures Try(client.world, local.Value(), err) == Idling.RemoveAnnotations(old(client.world), old(local.Value()))
    {
      var referenced := local.HasAnnotation(REFERENCE);
      var saved := local.HasAnnotation(PREVIOUS);
      if !referenced && !saved {
        return Pass;
      }
      err := RetryStrip();
    }
  }

  class DeploymentIdler {
    const client: Client
    const deployment: LocalObject
    const base: ObjectIdler

    ghost predicate Valid() {
      base.client == client && base.local == deployment
    }

    constructor (client: Client, deployment: LocalObject)
      ensures Valid() && this.client == client && this.deployment == deployment
    {
      this.client, this.deployment := client, deployment;
      base := new ObjectIdler(client, deployment);
    }

    method NeedIdle(idle: bool) returns (need: bool)
      ensures need == Idling.NeedIdle(DEPLOYMENT, deployment.Value(), idle)
    {
      return idle && deployment.replicas > 0;
    }

    method NeedWakeup(idle: bool) returns (need: bool)
      ensures need == Idling.NeedWakeup(DEPLOYMENT, deployment.Value(), idle)
    {
      return !idle && deployment.replicas == 0;
    }

    method ZeroOnce() returns (err: Outcome<Error>)
      modifies client, deployment
      ensures Try(client.world, deployment.Value(), err) == Attempt(old(client.world), old(deployment.Value()), ToZero)
    {
      err := client.GetWorkload(deployment);
      if err.Pass? {
        deployment.AddAnnotation(PREVIOUS, Itoa(deployment.replicas));
        deployment.AddAnnotation(EXPECTED, "0");
        deployment.replicas := 0;
        err := client.UpdateWorkload(deployment, ToZero);
      }
    }

    method RetryZero() returns (err: Outcome<Error>)
      modifies client, deployment
      ensures Try(client.world, deployment.Value(), err) ==
              Retry(old(client.world), old(deployment.Value()), ToZero, Attempts())
    {
      hide Attempt;
      ghost var spec := Retry(client.world, deployment.Value(), ToZero, Attempts());
      var attempts := Attempts();
      err := Fail(Conflict);
      while attempts > 0 && err == Fail(Conflict)
        invariant Pending(spec, client.world, deployment.Value(), ToZero, attempts, err)
      {
        err := ZeroOnce();
        attempts := attempts - 1;
      }
    }

    method Idle() returns (err: Outcome<Error>)
      modifies client, deployment
      ensures Try(client.world, deployment.Value(), err) ==
              Idling.Idle(DEPLOYMENT, old(client.world), old(deployment.Value()))
    {
      err := RetryZero();
    }

    method CountOnce(previous: int32) returns (err: Outcome<Error>)
      modifies client, deployment
      ensures Try(client.world, deployment.Value(), err) ==
              Attempt(old(client.world), old(deployment.Value()), ToCount(previous))
    {
      err := client.GetWorkload(deployment);
      if err.Pass? {
        deployment.AddAnnotation(EXPECTED, Itoa(previous));
        deployment.replicas := previous;
        err := client.UpdateWorkload(deployment, ToCount(previous));
      }
    }

    method RetryCount(previous: int32) returns (err: Outcome<Error>)
      modifies client, deployment
      ensures Try(client.world, deployment.Value(), err) ==
              Retry(old(client.world), old(deployment.Value()), ToCount(previous), Attempts())
    {
      hide Attempt;
      ghost var spec := Retry(client.world, deployment.Value(), ToCount(previous), Attempts());
      var attempts := Attempts();
      err := Fail(Conflict);
      while attempts > 0 && err == Fail(Conflict)
        invariant Pending(spec, client.world, deployment.Value(), ToCount(previous), attempts, err)
      {
        err := CountOnce(previous);
        attempts := attempts - 1;
      }
    }

    method Wakeup() returns (restored: Option<int32>, err: Outcome<Error>)
      modifies client, deployment
      ensures Try(client.world, deployment.Value(), err) ==
              Idling.Wakeup(DEPLOYMENT, old(client.world), old(deployment.Value()))
      ensures err.Pass? ==> restored.Some? && SavedCount(old(deployment.annotations)) == Success(restored.value)
    {
      var previous: int32 := 1;
      var text, found := deployment.GetAnnotation(PREVIOUS);
      if found {
        var parsed := Atoi(text);
        if parsed == None {
          return None, Fail(BadNumber);
        }
        previous := Wrap32(parsed.value);
      }
      err := RetryCount(previous);
      restored := if err.Pass? then Some(previous) else None;
    }
  }

  class StatefulSetIdler {
    const client: Client
    const statefulSet: LocalObject
    const base: ObjectIdler

    ghost predicate Valid() {
      base.client == client && base.local == statefulSet
    }

    constructor (client: Client, statefulSet: LocalObject)
      ensures Valid() && this.client == client && this.statefulSet == statefulSet
    {
      this.client, this.statefulSet := client, statefulSet;
      base := new ObjectIdler(client, statefulSet);
    }

    method NeedIdle(idle: bool) returns (need: bool)
      ensures need == Idling.NeedIdle(STATEFUL_SET, statefulSet.Value(), idle)
    {
      return idle && statefulSet.replicas > 0;
    }

    method NeedWakeup(idle: bool) returns (need: bool)
      ensures need == Idling.NeedWakeup(STATEFUL_SET, statefulSet.Value(), idle)
    {
      return !idle && statefulSet.replicas == 0;
    }

    method ZeroOnce() returns (err: Outcome<Error>)
      modifies client, statefulSet
      ensures Try(client.world, statefulSet.Value(), err) ==
              Attempt(old(client.world), old(statefulSet.Value()), ToZero)
    {
      err := client.GetWorkload(statefulSet);
      if err.Pass? {
        statefulSet.AddAnnotation(PREVIOUS, Itoa(statefulSet.replicas));
        statefulSet.AddAnnotation(EXPECTED, "0");
        statefulSet.replicas := 0;
        err := client.UpdateWorkload(statefulSet, ToZero);
      }
    }

    method RetryZero() returns (err: Outcome<Error>)
      modifies client, statefulSet
      ensures Try(client.world, statefulSet.Value(), err) ==
              Retry(old(client.world), old(statefulSet.Value()), ToZero, Attempts())
    {
      hide Attempt;
      ghost var spec := Retry(client.world, statefulSet.Value(), ToZero, Attempts());
      var attempts := Attempts();
      err := Fail(Conflict);
      while attempts > 0 && err == Fail(Conflict)
        invariant Pending(spec, client.world, statefulSet.Value(), ToZero, attempts, err)
      {
        err := ZeroOnce();
        attempts := attempts - 1;
      }
    }

    method Idle() returns (err: Outcome<Error>)
      modifies client, statefulSet
      ensures Try(client.world, statefulSet.Value(), err) ==
              Idling.Idle(STATEFUL_SET, old(client.world), old(statefulSet.Value()))
    {
      err := RetryZero();
    }

    method CountOnce(previous: int32) returns (err: Outcome<Error>)
      modifies client, statefulSet
      ensures Try(client.world, statefulSet.Value(), err) ==
              Attempt(old(client.world), old(statefulSet.Value()), ToCount(previous))
    {
      err := client.GetWorkload(statefulSet);
      if err.Pass? {
        statefulSet.AddAnnotation(EXPECTED, Itoa(previous));
        statefulSet.replicas := previous;
        err := client.UpdateWorkload(statefulSet, ToCount(previous));
      }
    }

    method RetryCount(previous: int32) returns (err: Outcome<Error>)
      modifies client, statefulSet
      ensures Try(client.world, statefulSet.Value(), err) ==
              Retry(old(client.world), old(statefulSet.Value()), ToCount(previous), Attempts())
    {
      hide Attempt;
      ghost var spec := Retry(client.world, statefulSet.Value(), ToCount(previous), Attempts());
      var attempts := Attempts();
      err := Fail(Conflict);
      while attempts > 0 && err == Fail(Conflict)
        invariant Pending(spec, client.world, statefulSet.Value(), ToCount(previous), attempts, err)
      {
        err := CountOnce(previous);
        attempts := attempts - 1;
      }
    }

    method Wakeup() returns (restored: Option<int32>, err: Outcome<Error>)
      modifies client, statefulSet
      ensures Try(client.world, statefulSet.Value(), err) ==
              Idling.Wakeup(STATEFUL_SET, old(client.world), old(statefulSet.Value()))
      ensures err.Pass? ==> restored.Some? && SavedCount(old(statefulSet.annotations)) == Success(restored.value)
    {
      var previous: int32 := 1;
      var text, found := statefulSet.GetAnnotation(PREVIOUS);
      if found {
        var parsed := Atoi(text);
        if parsed == None {
          return None, Fail(BadNumber);
        }
        previous := Wrap32(parsed.value);
      }
      err := RetryCount(previous);
      restored := if err.Pass? then Some(previous) else None;
    }
  }

  class CronJobIdler {
    const client: Client
    const cronJob: LocalObject
    const base: ObjectIdler

    ghost predicate Valid() {
      base.client == client && base.local == cronJob
    }

    constructor (client: Client, cronJob: LocalObject)
      ensures Valid() && this.client == client && this.cronJob == cronJob
    {
      this.client, this.cronJob := client, cronJob;
      base := new ObjectIdler(client, cronJob);
    }

    method NeedIdle(idle: bool) returns (need: bool)
      ensures need == Idling.NeedIdle(CRON_JOB, cronJob.Value(), idle)
    {
      return idle && !cronJob.suspend;
    }

    method NeedWakeup(idle: bool) returns (need: bool)
      ensures need == Idling.NeedWakeup(CRON_JOB, cronJob.Value(), idle)
    {
      return !idle && cronJob.suspend;
    }

    method SuspendOnce() returns (err: Outcome<Error>)
      modifies client, cronJob
      ensures Try(client.world, cronJob.Value(), err) ==
              Attempt(old(client.world), old(cronJob.Value()), ToSuspend(true))
    {
      err := client.GetWorkload(cronJob);
      if err.Pass? {
        cronJob.AddAnnotation(EXPECTED, "true");
        cronJob.suspend := true;
        err := client.UpdateWorkload(cronJob, ToSuspend(true));
      }
    }

    method RetrySuspend() returns (err: Outcome<Error>)
      modifies client, cronJob
      ensures Try(client.world, cronJob.Value(), err) ==
              Retry(old(client.world), old(cronJob.Value()), ToSuspend(true), Attempts())
    {
      hide Attempt;
      ghost var spec := Retry(client.world, cronJob.Value(), ToSuspend(true), Attempts());
      var attempts := Attempts();
      err := Fail(Conflict);
      while attempts > 0 && err == Fail(Conflict)
        invariant Pending(spec, client.world, cronJob.Value(), ToSuspend(true), attempts, err)
      {
        err := SuspendOnce();
        attempts := attempts - 1;
      }
    }

    method Idle() returns (err: Outcome<Error>)
      modifies client, cronJob
      ensures Try(client.world, cronJob.Value(), err) ==
              Idling.Idle(CRON_JOB, old(client.world), old(cronJob.Value()))
    {
      if cronJob.suspend {
        return Pass;
      }
      err := RetrySuspend();
    }

    method ResumeOnce() returns (err: Outcome<Error>)
      modifies client, cronJob
      ensures Try(client.world, cronJob.Value(), err) ==
              Attempt(old(client.world), old(cronJob.Value()), ToSuspend(false))
    {
      err := client.GetWorkload(cronJob);
      if err.Pass? {
        cronJob.AddAnnotation(EXPECTED, "false");
        cronJob.suspend := false;
        err := client.UpdateWorkload(cronJob, ToSuspend(false));
      }
    }

    method RetryResume() returns (err: Outcome<Error>)
      modifies client, cronJob
      ensures Try(client.world, cronJob.Value(), err) ==
              Retry(old(client.world), old(cronJob.Value()), ToSuspend(false), Attempts())
    {
      hide Attempt;
      ghost var spec := Retry(client.world, cronJob.Value(), ToSuspend(false), Attempts());
      var attempts := Attempts();
      err := Fail(Conflict);
      while attempts > 0 && err == Fail(Conflict)
        invariant Pending(spec, client.world, cronJob.Value(), ToSuspend(false), attempts, err)
      {
        err := ResumeOnce();
        attempts := attempts - 1;
      }
    }

    method Wakeup() returns (restored: Option<int32>, err: Outcome<Error>)
      modifies client, cronJob
      ensures Try(client.world, cronJob.Value(), err) ==
              Idling.Wakeup(CRON_JOB, old(client.world), old(cronJob.Value()))
      ensures restored == None
    {
      restored := None;
      if !cronJob.suspend {
        return None, Pass;
      }
      err := RetryResume();
    }
  }

  /** The idler interface: one of the three, over one client and one local copy. */
  datatype Idler =
    | ForDeployment(deployment: DeploymentIdler)
    | ForStatefulSet(statefulSet: StatefulSetIdler)
    | ForCronJob(cronJob: CronJobIdler)
  {
    function Kind(): string {
      match this
      case ForDeployment(_) => DEPLOYMENT
      case ForStatefulSet(_) => STATEFUL_SET
      case ForCronJob(_) => CRON_JOB
    }

    function Base(): ObjectIdler {
      match this
      case ForDeployment(d) => d.base
      case ForStatefulSet(s) => s.base
      case ForCronJob(c) => c.base
    }

    ghost predicate Valid() {
      match this
      case ForDeployment(d) => d.Valid()
      case ForStatefulSet(s) => s.Valid()
      case ForCronJob(c) => c.Valid()
    }

    method NeedIdle(idle: bool) returns (need: bool)
      requires Valid()
      ensures need == Idling.NeedIdle(Kind(), Base().local.Value(), idle)
    {
      match this {
        case ForDeployment(d) => need := d.NeedIdle(idle);
        case ForStatefulSet(s) => need := s.NeedIdle(idle);
        case ForCronJob(c) => need := c.NeedIdle(idle);
      }
    }

    method NeedWakeup(idle: bool) returns (need: bool)
      requires Valid()
      ensures need == Idling.NeedWakeup(Kind(), Base().local.Value(), idle)
    {
      match this {
        case ForDeployment(d) => need := d.NeedWakeup(idle);
        case ForStatefulSet(s) => need := s.NeedWakeup(idle);
        case ForCronJob(c) => need := c.NeedWakeup(idle);
      }
    }

    method Idle() returns (err: Outcome<Error>)
      requires Valid()
      modifies Base().client, Base().local
      ensures Try(Base().client.world, Base().local.Value(), err) ==
              Idling.Idle(Kind(), old(Base().client.world), old(Base().local.Value()))
    {
      match this {
        case ForDeployment(d) => err := d.Idle();
        case ForStatefulSet(s) => err := s.Idle();
        case ForCronJob(c) => err := c.Idle();
      }
    }

    method Wakeup() returns (restored: Option<int32>, err: Outcome<Error>)
      requires Valid()
      modifies Base().client, Base().local
      ensures Try(Base().client.world, Base().local.Value(), err) ==
              Idling.Wakeup(Kind(), old(Base().client.world), old(Base().local.Value()))
    {
      match this {
        case ForDeployment(d) => restored, err := d.Wakeup();
        case ForStatefulSet(s) => restored, err := s.Wakeup();
        case ForCronJob(c) => restored, err := c.Wakeup();
      }
    }
  }
}
