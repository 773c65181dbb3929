# Kidle in Dafny

Kidle is a Kubernetes operator. An `IdlingResource` carries a flag, `idle`, and refers to one
workload: a Deployment, a StatefulSet or a CronJob. Raising the flag puts the workload to sleep
(the replica count is saved in an annotation and set to zero, a CronJob is suspended); lowering
it wakes the workload; deleting the instance wakes it, strips the annotations and gives up a
finalizer. Schedules are carried out by two CronJobs that run `kidlectl`, which flips the flag.

This project models that protocol over a versioned store in which every call can be refused,
lose its answer, or lose a race, reads can be stale, and others edit at any moment. It proves
what the operator keeps over all runs, and where a promise has a condition, the exact condition.

## How it is built

- `Cluster.dfy` is the API server: objects with versions, updates that succeed only over the
  version they were read at, and a `World` with a script of disturbances (what others do before
  each call, and how the call is answered) and a log of every committed change. A property of the
  log is a property of every state, also in the middle of a pass. An empty script is an
  undisturbed pass; a script is `Steady` when it does not delete or create the workload, and
  `Alone` when calls only fail.
- `Idling.dfy`, `Owned.dfy`, `Reconciling.dfy` give each operation as a function of the world.
  `Clients.dfy`, `Idlers.dfy`, `Operator.dfy` hold the classes in the source's own form, with
  shared mutable local copies and bounded retry loops; each method is proved to end exactly where
  its function says. All other results are about the functions, hence about the classes.
- `Frames.dfy` reduces any call to "others act, then at most one atomic write". `Transitions.dfy`
  does the same for whole runs: a sequence of atomic transitions. `Conduct.dfy` says what those
  are when passes are served the current workload. `Decisions`, `Endings`, `Flags`, `Access`,
  `Bareness`, `FirstPass`, `StaleReads`, `Neighbours`, `Orphans`, `Restoring`, `Deletion`,
  `Settling`, `Progress`, `Positivity`, `Lifecycle`, `Filter`, `Schedules`, `Dependencies`,
  `Containers`, `DnsName` and `Decimal` hold the results.

`Run` takes a list of events: outside edits, passes with their own scripts, and `kidlectl`
commands with theirs. Others never write a kidle annotation or Kidle's finalizer.

## What turned out to need a condition

- No orphan (`Orphans.NoOrphan`) rests on two reads, and holds whenever scripts serve no old
  instance and report nothing missing that exists (`Orphans.NoOrphanByScript`). Going on with an
  instance copy is safe under every script exactly when the store still holds the finalizer
  (`Orphans.SafeToProceedIff`), which a cached copy of an instance that was deleted and created
  again does not guarantee (`StaleReads.RecreatedInstanceOrphans`); releasing on a "workload not
  found" is safe exactly when the workload carries nothing (`Orphans.SafeToReleaseIff`).
- Counts are restored (`Restoring.CountsRestored`) whenever passes are served no old workload and
  see no recreation (`Restoring.CountsRestoredByScript`). A wake-up reads the saved count outside
  its retried closure. It restores the right count exactly when its copy and the store agree on it
  (`Restoring.WakeupFaithfulIff`); a workload recreated inside the pass gets its predecessor's
  count (`Restoring.RecreatedGetsOldCount`), which is right exactly when that count is 1
  (`Restoring.WakeupFaithfulEvenRecreatedIff`).
- The user guide says deletion wakes an idle workload (docs/userguide.md:26). The code wakes any:
  replicas that were never put to sleep are set to one, so the life of an instance is the identity
  exactly when there was a cycle, or it had one replica, or it is a CronJob
  (`Lifecycle.LifecycleIdentity`).
- A released workload has none of Kidle's annotations whenever passes are served the current
  workload and see no recreation (`Bareness.ReleasedIsAlwaysBare`). The strip's guard looks at two
  of the three annotations, so a workload recreated inside the wake-up keeps `expected-state` for
  good (`Bareness.RecreatedPassKeepsExpected`); no script can do this exactly when the wake-up
  writes nothing (`Bareness.ReleasesBareIff`).
- A failure between the committed strip and the committed release of the finalizer makes the
  deletion end at one replica, and without one it ends at the saved count
  (`Deletion.DeletionUnderCrashes`).
- Three things keep a deleted instance for ever: a saved count that is not a number
  (`Deletion.NeverReleased`), a Role without rules (`Progress.BrokenRoleKeepsFinalizer`), and a
  kind outside the three (`Transitions.UnhandledKeepsFinalizer`). Without them deletion ends, with
  or without a workload (`Progress.DeletionEnds`).
- A workload scaled to zero inside a pass saves "0" (`Positivity.ScaledDownSavesZero`). From then
  on it cannot wake, and every pass writes it again: the one way the operator does not come to
  rest (`Settling.QuiescesIff`). Undisturbed passes never get there
  (`Positivity.CountStaysUsable`).
- The operator's filter lets none of its own workload writes through, except a reference set again
  over a drifted workload (`Filter.OwnWritePassesIff`), which takes an old copy
  (`Filter.OldCopyTriggers`).
- The filter stands before the watches of Kidle's own objects too, and drops every update of a
  CronJob without reference, so tampering with a schedule's CronJob does not bring the operator
  back to it (`Filter.OwnCronJobsAreNotSeen`).
- A drift that is corrected also replaces the saved count by the drifted one
  (`Filter.DriftIsCorrected`).
- A failed read is taken for absence when a CronJob has to go, so a pass can succeed with the
  CronJob still there (`Schedules.RemovedIff`). A Role without rules stops every pass
  (`Schedules.ChildrenSettleIff`).
- Every generated name that had to be cut is also the generated name of a shorter instance name
  (`DnsName.CutNameHasShortTwin`), and the two instances take the CronJob from each other with
  every pass (`Neighbours.CutNamesFight`).

## Where code and documentation differ

- The comment on `Base64` says that length 0 returns the whole encoding; the code returns the
  empty string there and the whole encoding for negative lengths (pkg/utils/k8s/name.go:30-38).
  The model follows the code.
- Guards that look like they skip needless writes compare a pointer with a fresh pointer and
  never skip (pkg/controllers/idler/deployment.go:41 and 74, pkg/controllers/cron_strategies.go:173).
  `cronJobNeedChanges` is therefore always true and has no counterpart of its own.
- The user guide says to set `spec.idle` to `false` to idle a workload (docs/userguide.md:137)
  and, before that, that `true` idles it (docs/userguide.md:15-16). The code does the latter.

## Model

| member | source | states |
|---|---|---|
| Orphans.NoOrphan | pkg/controllers/idlingresource_controller.go:82-203 | over every run whose passes satisfy `ReadsSafe` (the finalizer an instance copy shows is still in the store, and a workload reported missing to a deletion carries nothing): in every state ever committed, a workload with Kidle's reference or saved count has its instance in the store with the finalizer held, and the reference names it |
| Orphans.NoOrphanByScript | pkg/controllers/idlingresource_controller.go:82-203 | the same over every run in whose passes no old instance copy is served and nothing that exists is reported missing; failures, lost answers, lost races, stale workloads, edits, deletion and recreation at any call are allowed |
| Orphans.PassKeepsSafe | pkg/controllers/idlingresource_controller.go:65-133 | one pass that satisfies `ReadsSafe`, under any script, keeps the above at each of its writes |
| Orphans.SafeToProceedIff | pkg/controllers/idlingresource_controller.go:82-130 | no script can orphan the workload from here if and only if the store holds the finalizer now |
| Orphans.SafeToReleaseIff | pkg/controllers/idlingresource_controller.go:135-146 | releasing on "not found" is safe under every script if and only if the stored workload carries nothing |
| Orphans.UnheldOrphans | pkg/controllers/idlingresource_controller.go:148-156 | from any state without the finalizer, going on with a copy of a handled kind has a script that orphans the workload; that a read can return such a copy is shown by `StaleReads.RecreatedInstanceOrphans` |
| StaleReads.RecreatedInstanceOrphans | pkg/controllers/idlingresource_controller.go:71-130 | a whole run, for every instance that passes can work with and whose saved count, if any, is a number: deleted, released and created again, it is passed over once more with the copy from before served by the first read; every state up to that pass is safe, and the pass orphans the workload |
| StaleReads.StaleReadOrphans | pkg/controllers/idlingresource_controller.go:71-130 | a whole pass whose first read serves an old copy that shows the finalizer, while the store holds none, leaves a marked workload that nobody holds |
| Orphans.StripThenRelease | pkg/controllers/idler/idler.go:61-81 | under any script a passing strip leaves neither reference nor saved count, so the finalizer can go; from a copy that carries one of the two it leaves none of the three annotations, and it never skips by mistake from a marked copy |
| Bareness.ReleasedIsAlwaysBare | pkg/controllers/idlingresource_controller.go:159-208 | over every run whose passes are served the current workload and see no recreation inside, with failures, lost answers, lost races, edits and old instances at any call: whenever a finalizer is given up, the workload, if any, has none of the three annotations |
| Bareness.ReleasesBareIff | pkg/controllers/idler/idler.go:61-81 | the exact law with recreation allowed: from a marked copy, no script can make a release leave an annotation behind if and only if the wake-up writes nothing, being over a running CronJob or a saved count that is not a number |
| Bareness.RecreatedKeepsExpected | pkg/controllers/idler/idler.go:62-63 | the failing family: recreated at the wake-up's read, the workload gets `expected-state`, the strip's guard does not see it, and the finalizer goes with the annotation left behind |
| Bareness.RecreatedPassKeepsExpected | pkg/controllers/idlingresource_controller.go:65-208 | the same as a whole pass from the instance's read on |
| FirstPass.NineCalls | pkg/controllers/idlingresource_controller.go:71-104 | without owned objects and schedules a pass makes nine calls before it reads the workload, which is where scripts place a disturbance |
| Orphans.KidlectlKeepsSafe | cmd/kidlectl/pkg/kidleclient.go:152-176 | a flag flip under any script cannot lose the finalizer |
| Frames.RetryIsAtomic | pkg/controllers/idler/deployment.go:42-51 | no lost update: under any script a retried change lets others act and then either fails without writing or rewrites, once, the version current at that moment |
| Frames.UpdateIsAtomic | pkg/controllers/idler/idler.go:46-52 | an update from a stale copy never overwrites a newer version, and a conflict wrote nothing |
| Positivity.IdleRecordsReplaced | pkg/controllers/idler/deployment.go:42-51 | a successful idling saved exactly the count of the version it replaced and kept all else of it; the saved count is usable exactly when that version had positive replicas |
| Positivity.CountStaysUsable | pkg/controllers/idler/deployment.go:32-72 | over every run of undisturbed passes with any edits between them, the saved count stays absent or positive, so waking always converges |
| Positivity.ScaledDownSavesZero | pkg/controllers/idler/deployment.go:40-51 | a concrete race that saves "0" and leaves a workload that never wakes |
| Flags.FlagIsCompareAndSet | cmd/kidlectl/pkg/kidleclient.go:152-176 | `true` means one committed flip over the version then current and nothing else changed; otherwise nothing was written, a lost answer apart |
| Flags.AnswersAreHonest | cmd/kidlectl/pkg/kidleclient.go:152-176 | under every script: `false` exactly when the read shows the desired flag already, `true` exactly when the update landed and was answered, and everything else is a failure; after any success the version read or written carries the flag |
| Flags.LostRaceIsAFailure | cmd/kidlectl/pkg/kidleclient.go:152-176 | edited between read and update, the command fails and the flag stays as it was |
| Restoring.CountsRestored | pkg/controllers/idler/deployment.go:40-93 | over every run whose passes start from a workload copy that shows the current kidle annotations and see no recreation inside: the annotation prints the count overwritten by the last idling of this workload incarnation, and every wake-up ever committed wrote that count, or 1 if there was none |
| Restoring.CountsRestoredByScript | pkg/controllers/idler/deployment.go:40-93 | the same over every run in whose passes no old workload is served and the workload is not recreated; all else is allowed, recreation between passes included |
| Conduct.PassBehaves | pkg/controllers/idlingresource_controller.go:65-252 | a pass that starts from a current copy and sees no recreation, under any such script: every write fits the kind and replaces the version current then, a reference is set only where there is none, a wake-up writes the count that is saved at that moment, and, unless a workload is falsely reported missing, a finalizer is given up over a bare workload |
| Decisions.PassDecidesOnMarked | pkg/controllers/idlingresource_controller.go:152-250 | which copy a pass decides on, under every script: every write that puts to sleep or wakes was called for by the copy read first, if that one had a reference, and otherwise by the very version this pass wrote the reference over |
| Decisions.SettlesWhatMarkingReads | pkg/controllers/idler/idler.go:42-59 | whatever others do to an unmarked workload just before the marking reads it, the pass settles the workload it then finds, for all kinds and edits |
| Decisions.ScaledDownBeforeMarking | pkg/controllers/idler/idler.go:46-52 | an unmarked Deployment scaled to zero before the marking is found asleep, and no count is saved |
| Restoring.PassKeepsFaith | pkg/controllers/idlingresource_controller.go:148-252 | one pass from a current copy, without recreation inside it, keeps the above |
| Restoring.SavedIsRestored | pkg/controllers/idler/deployment.go:64-72 | decoding the saved text gives the saved int32; the 32-bit conversion never changes it |
| Restoring.HandWrittenCount | pkg/controllers/idler/deployment.go:64-72 | a count written by hand is accepted over the whole 64-bit range and read modulo 2^32 |
| Restoring.UnreadableCountIff | pkg/controllers/idler/deployment.go:64-72 | reading the count fails exactly on a text that is no number, and no annotation reads as 1 |
| Restoring.WakeupFaithfulIff | pkg/controllers/idler/deployment.go:63-84 | under every script without recreation a wake-up restores the count of the version it replaces, if and only if its copy and the store agree on that count |
| Restoring.WakeupFaithfulEvenRecreatedIff | pkg/controllers/idler/deployment.go:63-84 | the same under every script, recreation included, if and only if copy and store agree on the count 1 |
| Restoring.RecreatedGetsOldCount | pkg/controllers/idler/deployment.go:63-84 | recreated inside a wake-up, a workload never idled is given its predecessor's count, for every world and every readable copy; that is right exactly when the count is 1 |
| Deletion.DeletionUnderCrashes | pkg/controllers/idlingresource_controller.go:159-208 | rerun through failures at any calls, a released workload is bare and awake: the saved count if in no rerun a failure fell between the committed strip and the committed release, 1 otherwise; a CronJob is resumed either way |
| Deletion.PassCutAt | pkg/controllers/idlingresource_controller.go:159-208 | one pass over a held, deleted instance, by its failures: it strips exactly when it gets to the strip and that is not refused, and releases exactly when the strip is also answered and the release not refused |
| Deletion.RerunsStayBetween | pkg/controllers/idlingresource_controller.go:159-208 | the invariant of all reruns: still held with the count it would restore, or gone with the count it was left with |
| Progress.DeletionEnds | pkg/controllers/idlingresource_controller.go:100-208 | after any passes with failing calls, one undisturbed pass leaves the finalizer released if and only if, at the start, the kind was one of the three, the Role, if any, had a rule, and the saved count, if any, was a number; a missing workload releases |
| Transitions.UnhandledKeepsFinalizer | pkg/controllers/idlingresource_controller.go:82-132 | over every run and under every script, the finalizer taken for a kind outside the three is never given up, not even when old copies show another kind |
| Progress.BrokenRoleKeepsFinalizer | pkg/controllers/cron_strategies.go:261-266 | while the Role has no rule to overwrite, no rerun through failing calls releases the finalizer |
| Transitions.RunIsLawful | pkg/controllers/idlingresource_controller.go:65-272 | with no condition on events or scripts: every change in a run is an outside edit or one of the operator's atomic transitions of the version it replaced; the finalizer is given up only by a deleted instance of a handled kind |
| Progress.SurvivesRacesIff | pkg/controllers/idler/idler.go:46-52 | a retried change succeeds if and only if it loses fewer races than it has attempts, otherwise it ends in a conflict; a race is lost to any edits that leave a workload there in another version |
| Progress.IdleSurvivesFour | pkg/controllers/idler/deployment.go:42-51 | idling rides out four lost races and gives up after the fifth with nothing written |
| Progress.ConvergesAfterCrashesIff | pkg/controllers/idlingresource_controller.go:100-251 | after any passes with failing calls and lost answers, one undisturbed pass makes the workload follow the flag if and only if, at the start, it did already, or kind and Role let passes through and the counts allowed it |
| Deletion.NeverReleased | pkg/controllers/idler/deployment.go:65-69 | with a saved count that is not a number, no rerun ever releases the finalizer |
| Settling.QuietPass | pkg/controllers/idlingresource_controller.go:65-252 | what an undisturbed pass makes of the workload, how it ends, and that no other instance changes |
| Settling.QuietDeletion | pkg/controllers/idlingresource_controller.go:100-208 | an undisturbed deletion pass releases the finalizer exactly when the kind is one of the three, the Role, if any, has a rule, and the saved count, if any, is a number; the workload, if any, is then bare and awake |
| Settling.ReleasedIsBare | pkg/controllers/idler/idler.go:61-81 | what an undisturbed deletion pass makes of any workload: none of the three annotations and all of the others, with the saved count or a resumed CronJob; disturbed passes are in `Bareness` |
| Settling.OneMachine | pkg/controllers/idler/idler.go:15-24 | the three idlers as one machine, in plain terms: sleeping ends the need to sleep, waking ends the need to wake unless the saved count is zero or no number, and waking after sleeping restores the count |
| Settling.MachineUnderScripts | pkg/controllers/idler/idler.go:15-24 | the machine under every script: `Idle` and `Wakeup` replace the current version at most once, a passing `Idle` ends the need to sleep, and a passing `Wakeup` ends the need to wake exactly unless the count it read is zero |
| Settling.ConvergesIff | pkg/controllers/idlingresource_controller.go:100-251 | exactly when one undisturbed pass makes the workload follow the flag, for every kind and every state of the Role |
| Settling.QuiescesIff | pkg/controllers/idlingresource_controller.go:100-251 | the pass after an undisturbed one writes the workload if and only if the Role lets it through and the instance is awake over zero replicas with a saved count of zero |
| Settling.SettledWritesNothing | pkg/controllers/idlingresource_controller.go:211-251 | on a marked workload of a handled kind, with a Role that lets the pass through, a pass writes exactly when it is out of step with the flag and, to wake, the saved count is readable |
| Endings.RequeuedIff | pkg/controllers/idlingresource_controller.go:104-146 | under every script a pass asks to be run again exactly when it got to the workload of a handled kind, was told that there is none, and the instance is not being deleted |
| Endings.LateWorkloadIsAttached | pkg/controllers/idlingresource_controller.go:135-146 | an instance made before its workload: the pass ends requeued, the workload created later asks for no pass, and the requeued one marks and settles it |
| Endings.FirstReadEnds | pkg/controllers/idlingresource_controller.go:71-80 | under every script: told that the instance is gone, the pass finishes and does nothing; a first read that fails otherwise ends in its error |
| Endings.GoneIsFinished | pkg/controllers/idlingresource_controller.go:75-78 | undisturbed, a pass for a name nobody has leaves the world as it is |
| Endings.FinishedIsSettled | pkg/controllers/idlingresource_controller.go:65-252 | with failures at any calls, a pass that finishes left the workload as an undisturbed one would; a failed marking, sleep or wake-up ends in an error |
| Endings.FinishedIsReleased | pkg/controllers/idlingresource_controller.go:159-208 | likewise a deletion pass that finishes has released the finalizer, and the workload, if any, is awake and bare; a refused or unanswered release ends in an error, with a workload or without |
| Lifecycle.LifecycleIdentity | pkg/controllers/idlingresource_controller.go:148-252 | attach, any number of idle and wake cycles, delete: annotations (nil and empty alike) and spec are the original's, replicas exactly when there was a cycle, or one replica, or a CronJob |
| Lifecycle.SettleFollowsFlag | pkg/controllers/idlingresource_controller.go:211-251 | a pass takes a managed workload to where the flag says and keeps the original recoverable |
| Lifecycle.ScheduledRuns | pkg/controllers/cron_strategies.go:198-204 | for every sequence of fires, each followed by an undisturbed pass: asleep if and only if the last fire was the idle one, awake with the original count, no other instance changed |
| Lifecycle.PassSchedules | pkg/controllers/cron_strategies.go:43-94 | the first undisturbed pass sets up the CronJobs that the scheduled runs start from |
| Filter.OwnWritePassesIff | pkg/controllers/idlingresource_controller.go:333-379 | of the operator's own writes the filter lets through only a reference set again on a drifted workload |
| Filter.ExpectedSpellsState | pkg/controllers/idler/cronjob.go:46-69 | what each write leaves in `expected-state`, letter by letter |
| Filter.UpdatePassesIff | pkg/controllers/idlingresource_controller.go:333-379 | all pairs of types: an update between two Deployments, two StatefulSets or two CronJobs passes exactly when the old one had a reference and the new one departs from its expected state; every other update passes |
| Filter.FlipsAndDeletionsTrigger | pkg/controllers/idlingresource_controller.go:294-379 | every flip of a flag, and every deletion that does not remove its instance at once, gives the instance a new version, and the filter lets that update through |
| Filter.OwnCronJobsAreNotSeen | pkg/controllers/idlingresource_controller.go:294-379 | the updates of Kidle's own CronJobs, which are watched, are all filtered out, since they carry no reference |
| Filter.OldCopyTriggers | pkg/controllers/idlingresource_controller.go:333-379 | that one write, as a whole pass: served an old copy without the reference over a drifted workload, the operator triggers itself |
| Filter.NoSelfTriggering | pkg/controllers/idlingresource_controller.go:333-379 | no pass that starts from a current copy and sees no recreation commits a workload write that its filter passes, from any state, hand-edited and wrapping counts included |
| Filter.NoSelfTriggeringByScript | pkg/controllers/idlingresource_controller.go:333-379 | the same for every pass whose script serves no old workload and does not recreate it |
| Filter.DriftTriggers | pkg/controllers/idlingresource_controller.go:316-379 | an outside edit triggers exactly when it departs from the expected state, and the one request names the referring instance in the workload's namespace |
| Filter.RequestsIff | pkg/controllers/idlingresource_controller.go:316-327 | no request without a reference, and otherwise exactly the one for the referenced instance in the workload's namespace |
| Filter.DriftIsCorrected | pkg/controllers/idlingresource_controller.go:236-250 | the pass it triggers brings positive replicas back to zero, saving the drifted count |
| Schedules.ChildrenMatch | pkg/controllers/cron_strategies.go:36-135 | when a pass succeeds through failing calls, with removal reads answered: each CronJob exists exactly when its schedule is set, with schedule, account, image and arguments; role, account and binding exist; every other object is untouched |
| Schedules.PassedChildren | pkg/controllers/cron_strategies.go:36-135 | the call-by-call pass equals a plain description of the desired objects whenever it succeeds, and undisturbed it succeeds |
| Schedules.SettledTwice | pkg/controllers/cron_strategies.go:192-205 | settling twice is settling once, for tampered CronJobs too |
| Schedules.SecondPassKeepsChildren | pkg/controllers/cron_strategies.go:110-135 | a second undisturbed pass leaves the contents of every owned object unchanged |
| Schedules.ChildrenSettleIff | pkg/controllers/cron_strategies.go:243-266 | an undisturbed pass gets through its owned objects if and only if an existing Role has a rule to overwrite |
| Schedules.RemovedIff | pkg/controllers/cron_strategies.go:62-73 | after a removal that passed, the CronJob is gone if and only if it was never there or the read that looked for it was answered |
| Schedules.RemovalPassesIff | pkg/controllers/cron_strategies.go:62-73 | under every script a removal passes exactly when its read failed, or its delete was not refused and found nothing or was answered |
| Schedules.CommandsNeverMeet | pkg/utils/k8s/name.go:15-28 | the idle CronJob of one instance never has the name of the wake-up CronJob of any instance |
| Schedules.ShortNamesRead | pkg/utils/k8s/name.go:15-22 | a name that fits reads kidle, the instance's name and the suffix, joined by dashes |
| Neighbours.NeighboursMatchIff | pkg/controllers/cron_strategies.go:43-105 | after an undisturbed pass each, two instances both have the CronJobs they ask for if and only if no generated name is shared by a CronJob that either of them wants |
| Neighbours.TurnsKeepBoth | pkg/controllers/cron_strategies.go:43-105 | once both have them, passes of the two in any order keep both so |
| Neighbours.LastTurnWins | pkg/controllers/cron_strategies.go:43-105 | after passes of two instances in any order, the one that passed last has the CronJobs it asks for, and unless no wanted name is shared the other has not |
| Neighbours.CutNamesFight | pkg/utils/k8s/name.go:20-27 | every valid instance name whose idle CronJob has a cut name has a valid neighbour with which it fights over that CronJob: when either wants it, after any passes the one that passed last has its own and the other has not |
| Dependencies.DependencyOrder | pkg/controllers/cron_strategies.go:37-105 | over every run in which nobody else creates or deletes owned objects, in every state: a CronJob has its RoleBinding and a RoleBinding the ServiceAccount and Role it names |
| Dependencies.ChildrenKeepSupport | pkg/controllers/cron_strategies.go:211-301 | while nobody else creates or deletes owned objects, the creation order keeps that at every point where a pass may crash |
| Access.RoleAllowsExactly | pkg/controllers/cron_strategies.go:234-266 | after access has been set up through any failures, the first rule of the Role allows a request if and only if it is get, patch or update on the idlingresource of that very name |
| Access.AccountIsGrantedExactly | pkg/controllers/cron_strategies.go:211-301 | from names nobody used, the ServiceAccount is granted, through its binding, exactly that and nothing on another instance |
| Access.FiresAreAllowed | pkg/controllers/cron_strategies.go:36-105 | the generated CronJobs run under that account, with the read and the update of their own instance that `kidlectl` makes |
| Containers.SetIsMapUpdateIff | pkg/utils/k8s/types.go:8-26 | replacing a container in the list is the one-key update of its map view exactly when the name occurs once or its last occurrence is that container already |
| Containers.SetIsMapUpdate | pkg/utils/k8s/types.go:19-26 | with unique names it always is, and names stay unique |
| Containers.ReplacedAtFirst | pkg/utils/k8s/types.go:19-26 | only the first match changes; length and order stay |
| Containers.ToMapIsLast | pkg/utils/k8s/types.go:8-17 | a name is mapped to the last container that has it |
| Containers.SettingIsIdempotent | pkg/controllers/cron_strategies.go:192-205 | writing the desired values twice is writing them once, with no, one or several `kidlectl` containers |
| Containers.SettingShows | pkg/controllers/cron_strategies.go:198-204 | a single `kidlectl` container shows the desired image and arguments afterwards and keeps the rest of itself |
| Containers.ContainersToMap | pkg/utils/k8s/types.go:8-17 | the loop fills the map described by `ToMap` |
| Containers.SetContainer | pkg/utils/k8s/types.go:19-26 | the in-place loop leaves the list described by `Replaced` |
| DnsName.ToDNSName | pkg/utils/k8s/name.go:15-28 | at most 63 bytes, exactly 63 when cut, and a slice is out of range exactly when a name to be cut would keep a negative number of bytes |
| DnsName.NameIsLabel | pkg/utils/k8s/name.go:15-28 | from label-shaped parts with room for the tag the name is a valid label |
| DnsName.TagIsAlnum | pkg/utils/k8s/name.go:26-38 | the six tag characters are never '+', '/' or '=' |
| DnsName.TagChars | pkg/utils/k8s/name.go:32-38 | the tag is a function of the first five bytes |
| DnsName.DecodeEncode | pkg/utils/k8s/name.go:32-38 | decoding by the alphabet of RFC 4648 gives every encoded byte back, padding included |
| DnsName.CollisionLaw | pkg/utils/k8s/name.go:15-28 | when two names collide, for each combination of cut and uncut |
| DnsName.CutNameHasShortTwin | pkg/utils/k8s/name.go:20-27 | a cut name always collides with a shorter valid name |
| Decimal.AtoiItoa | pkg/controllers/idler/deployment.go:48-70 | parsing a printed number gives it back, over the 64-bit range |
| Decimal.ItoaIsCanonical | pkg/controllers/idler/deployment.go:48 | the printed form has a sign only below zero and no leading zero |
| Decimal.AtoiAccepts | pkg/controllers/idler/deployment.go:66 | a text that is not a numeral is rejected, a numeral of up to 18 characters is accepted, leading zeros and a plus sign do not matter, and no value outside 64 bits comes out |
| Decimal.Wrap32Congruent | pkg/controllers/idler/deployment.go:70 | the conversion to int32 keeps the value modulo 2^32 and is the identity on int32 |
| Finalizers.ContainsString | pkg/utils/array/string.go:3-10 | membership |
| Finalizers.RemoveString | pkg/utils/array/string.go:12-20 | every occurrence of the string goes, everything else stays |
| Finalizers.AddThenRemove | pkg/api/v1beta1/idlingresource_types.go:125-137 | a finalizer is added behind all others, once, and removing one that was missing gives the list back |
| Clients.LocalObject.AddAnnotation | pkg/utils/k8s/annotations.go:9-15 | one key is set, on a nil map too |
| Clients.LocalObject.RemoveAnnotation | pkg/utils/k8s/annotations.go:17-20 | one key goes, and a nil map stays nil |
| Clients.LocalObject.GetAnnotation | pkg/utils/k8s/annotations.go:22-29 | value and presence, with nothing found in a nil map |
| Clients.LocalJob.SetCronjobValues | pkg/controllers/cron_strategies.go:192-205 | the in-place edit of the CronJob and its containers is `SetValues` |
| Idlers.ObjectIdler.SetReference | pkg/controllers/idler/idler.go:42-59 | world, shared local copy and error after the retry loop |
| Idlers.ObjectIdler.RemoveAnnotations | pkg/controllers/idler/idler.go:61-81 | world, shared local copy and error after the guarded retry loop |
| Idlers.DeploymentIdler.NeedIdle | pkg/controllers/idler/deployment.go:32-34 | asks for sleep exactly as the one machine does |
| Idlers.DeploymentIdler.NeedWakeup | pkg/controllers/idler/deployment.go:36-38 | asks for waking exactly as the one machine does |
| Idlers.DeploymentIdler.Idle | pkg/controllers/idler/deployment.go:40-61 | world, local copy and error refine the one machine; the count is read inside the closure |
| Idlers.DeploymentIdler.Wakeup | pkg/controllers/idler/deployment.go:63-93 | world, local copy and error refine the one machine; the count is read outside the closure and returned |
| Idlers.StatefulSetIdler.Idle | pkg/controllers/idler/statefulset.go:40-61 | the same for StatefulSets |
| Idlers.StatefulSetIdler.Wakeup | pkg/controllers/idler/statefulset.go:63-93 | the same for StatefulSets |
| Idlers.CronJobIdler.Idle | pkg/controllers/idler/cronjob.go:39-59 | the same for CronJobs, skipped when the copy is suspended |
| Idlers.CronJobIdler.Wakeup | pkg/controllers/idler/cronjob.go:61-81 | the same for CronJobs, skipped when the copy is not suspended |
| Operator.Reconciler.ReconcileCronStrategies | pkg/controllers/cron_strategies.go:36-108 | world and error of the owned objects, call by call |
| Operator.Reconciler.CreateOrUpdateCronJob | pkg/controllers/cron_strategies.go:110-135 | world and error: created when missing, otherwise always written again |
| Operator.Reconciler.CreateRBAC | pkg/controllers/cron_strategies.go:211-301 | world and error: account, role and binding in that order, stopping at the first error |
| Operator.Reconciler.RemoveFinalizer | pkg/controllers/idlingresource_controller.go:263-272 | world and error: an update only when the copy holds the finalizer |
| Operator.Reconciler.ReconcileResourceNotFound | pkg/controllers/idlingresource_controller.go:135-146 | world and ending: release when deleting, otherwise requeue |
| Operator.Reconciler.ReconcileWithIdler | pkg/controllers/idlingresource_controller.go:148-252 | world and ending of the part that touches the workload |
| Operator.Reconciler.Reconcile | pkg/controllers/idlingresource_controller.go:65-133 | world and ending of a pass, for every script |
| Operator.KidleClient.ApplyDesiredIdleState | cmd/kidlectl/pkg/kidleclient.go:152-176 | world and answer of a flag flip, for every script |

## Left out

- The work queue, caches, leader election, retry back-off and the two-second requeue delay: a pass is started by an event of a run; only one runs at a time; a retried closure is tried at most five times.
- Logging, recorded events and error texts: no effect on the store. Errors are kept as kinds.
- `kidlectl`'s command line, client set-up, resource discovery and `CreateIdlingResource`: input and output, or shallow.
- Owner references, garbage collection and what RBAC permits: only the existence of the objects and the names they use.
- The meaning of cron expressions and time: a fire is an event that may come at any moment.
- Inactive and on-call strategies: declared in the API, not implemented.
- More than one workload: one instance per workload, with a reference that never changes, and a workload that is not one of Kidle's own CronJobs. Other instances live beside it in one namespace; the namespace itself appears only in the mapper. Where two instances take turns (`Neighbours`), their passes are the part that tends owned objects, with specs that do not change.
- Nil `replicas` and `suspend` pointers: the server fills in defaults; here both fields always have a value. Both are present in every workload, and the kind decides which is used.
- Writes that change nothing: here they get a new version too, as other writes do.
- Stale reads of owned objects: only as "not found" for an object that exists. Stale reads of instances and workloads are any older contents.
- Scaling through negative replica counts: the server's validation is not modelled, so negative counts are states like others and `Settling.ConvergesIff` names them.
- Names with bytes outside lower-case letters, digits and '-': `DnsName.ToDNSName` covers them byte by byte with ASCII lower-casing, the label and collision laws do not.
- Hand-written kidle annotations: allowed as starting states (`Deletion`, `Settling`, `Filter`), excluded as edits during the runs of `Orphans.NoOrphan` and `Restoring.CountsRestored`, whose promise is about the operator's own annotations.
- `controllerutil.AddFinalizer` and `RemoveFinalizer` are not part of this model beyond their effect on the list, which is that of `Added` and `Removed`.
