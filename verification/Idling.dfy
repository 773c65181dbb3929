/**
  What the three idlers do, as functions of the world and of the local copy they share.
  The classes in Idlers.dfy are proved equal to these.
 */
module Idling {
  import opened Wrappers
  import opened Decimal
  import opened Annotations
  import opened Cluster

  const DEPLOYMENT := "Deployment"
  const STATEFUL_SET := "StatefulSet"
  const CRON_JOB := "CronJob"

  /** The number of attempts of client-go's `retry.DefaultRetry`. */
  function Attempts(): nat { 5 }

  predicate Scales(kind: string) {
    kind == DEPLOYMENT || kind == STATEFUL_SET
  }

  predicate Handled(kind: string) {
    Scales(kind) || kind == CRON_JOB
  }

  /** The local copy after a call, and how the call ended. */
  datatype Try = Try(world: World, local: Workload, outcome: Outcome<Error>)

  /** The retried closure: read, change, update. */
  function Attempt(w: World, local: Workload, change: Change): Try {
    var got := GetWorkload(w);
    match got.value
    case Failure(e) => Try(got.world, local, Fail(e))
    case Success(copy) =>
      var changed := Apply(change, copy);
      var put := UpdateWorkload(got.world, changed, change);
      match put.value
      case Success(stored) => Try(put.world, stored, Pass)
      case Failure(e) => Try(put.world, changed, Fail(e))
  }

  /** Again on a conflict, as long as attempts remain; any other answer is final. */
  function Retry(w: World, local: Workload, change: Change, attempts: nat): Try
    decreases attempts
  {
    if attempts == 0 then Try(w, local, Fail(Conflict))
    else
      var first := Attempt(w, local, change);
      if first.outcome == Fail(Conflict) then Retry(first.world, first.local, change, attempts - 1) else first
  }

  function SetReference(w: World, local: Workload, name: string): Try {
    if Has(local.annotations, REFERENCE) then Try(w, local, Pass)
    else Retry(w, local, Refer(name), Attempts())
  }

  function RemoveAnnotations(w: World, local: Workload): Try {
    if Has(local.annotations, REFERENCE) || Has(local.annotations, PREVIOUS)
    then Retry(w, local, Strip, Attempts())
    else Try(w, local, Pass)
  }

  predicate NeedIdle(kind: string, local: Workload, idle: bool) {
    idle && if kind == CRON_JOB then !local.suspend else local.replicas > 0
  }

  predicate NeedWakeup(kind: string, local: Workload, idle: bool) {
    !idle && if kind == CRON_JOB then local.suspend else local.replicas == 0
  }

  /** The count a wake-up restores: the saved one, or 1 when none was saved. */
  function SavedCount(annotations: Annotations): Result<int32, Error> {
    match Get(annotations, PREVIOUS)
    case None => Success(1)
    case Some(text) =>
      match Atoi(text)
      case None => Failure(BadNumber)
      case Some(n) => Success(Wrap32(n))
  }

  /**
    The replica idlers compare `Spec.Replicas` with a fresh pointer, which never matches, so
    nothing is skipped; the CronJob idler compares the flag itself.
   */
  function Idle(kind: string, w: World, local: Workload): Try {
    if kind == CRON_JOB then
      if !local.suspend then Retry(w, local, ToSuspend(true), Attempts()) else Try(w, local, Pass)
    else Retry(w, local, ToZero, Attempts())
  }

  /** The saved count is read from the local copy, before and outside the retried closure. */
  function Wakeup(kind: string, w: World, local: Workload): Try {
    if kind == CRON_JOB then
      if local.suspend then Retry(w, local, ToSuspend(false), Attempts()) else Try(w, local, Pass)
    else
      match SavedCount(local.annotations)
      case Failure(e) => Try(w, local, Fail(e))
      case Success(count) => Retry(w, local, ToCount(count), Attempts())
  }
}
