/**
  The saved count over whole runs: the previous-replicas annotation always prints the count
  that the last idling of this workload overwrote, and every wake-up writes that count back.
 */
module Restoring {
  import opened Wrappers
  import opened Decimal
  import opened Annotations
  import opened Cluster
  import opened Idling
  import opened Reconciling
  import opened Frames
  import opened Conduct

  /**
    Read off the log: the count overwritten by the last committed idling of the present
    workload, unless its annotations were stripped since.
   */
  ghost function Overwritten(log: seq<Entry>): Option<int32> {
    if log == [] then None
    else
      var last := log[|log| - 1];
      match last.op
      case Write(ToZero) => if last.before.workload.Some? then Some(last.before.workload.value.replicas) else None
      case Write(Strip) => None
      case Outside(DeleteWorkload) => None
      case _ => if last.before.workload.None? then None else Overwritten(log[..|log| - 1])
  }

  function Printed(count: Option<int32>): Option<string> {
    if count.None? then None else Some(Itoa(count.value))
  }

  function Restored(count: Option<int32>): int32 {
    if count.None? then 1 else count.value
  }

  /** The annotation and every wake-up so far agree with the log. */
  ghost predicate FaithfulAt(log: seq<Entry>, s: Store) {
    && (s.workload.Some? ==> Get(s.workload.value.annotations, PREVIOUS) == Printed(Overwritten(log)))
    && forall k :: 0 <= k < |log| && log[k].op.Write? && log[k].op.change.ToCount? ==>
         && log[k].after.workload.Some?
         && log[k].after.workload.value.replicas == Restored(Overwritten(log[..k]))
  }

  ghost predicate Faithful(w: World) {
    FaithfulAt(w.log, w.store)
  }

  /** Decoding what idling printed gives the count itself; the 32-bit wrap never bites. */
  lemma SavedIsRestored(annotations: Annotations, count: Option<int32>)
    requires Get(annotations, PREVIOUS) == Printed(count)
    ensures SavedCount(annotations) == Success(Restored(count))
  {
    if count.Some? {
      AtoiItoa(count.value);
      Wrap32Congruent(count.value);
    }
  }

  /**
    A count written by hand: any 64-bit number is taken, and read modulo 2^32; everything else
    fails the wake-up.
   */
  lemma HandWrittenCount(annotations: Annotations, n: int)
    requires MIN_INT <= n <= MAX_INT && Get(annotations, PREVIOUS) == Some(Itoa(n))
    ensures SavedCount(annotations).Success?
    ensures (SavedCount(annotations).value - n) % 0x1_0000_0000 == 0
  {
    hide Atoi, Itoa;
    AtoiItoa(n);
    Wrap32Congruent(n);
  }

  lemma UnreadableCountIff(annotations: Annotations)
    ensures SavedCount(annotations).Failure? <==>
            exists text :: Get(annotations, PREVIOUS) == Some(text) && Atoi(text) == None
    ensures Get(annotations, PREVIOUS) == None ==> SavedCount(annotations) == Success(1)
  {
    hide Atoi;
    if Has(annotations, PREVIOUS) {
      assert Get(annotations, PREVIOUS) == Some(View(annotations)[PREVIOUS]);
    }
  }

  // ----- What each entry keeps -----

  lemma Extend(log: seq<Entry>, e: Entry)
    requires FaithfulAt(log, e.before)
    requires e.after.workload.Some? ==>
               Get(e.after.workload.value.annotations, PREVIOUS) == Printed(Overwritten(log + [e]))
    requires e.op.Write? && e.op.change.ToCount? ==>
               e.after.workload.Some? && e.after.workload.value.replicas == Restored(Overwritten(log))
    ensures FaithfulAt(log + [e], e.after)
  {
    var next := log + [e];
    forall k | 0 <= k < |next| && next[k].op.Write? && next[k].op.change.ToCount?
      ensures next[k].after.workload.Some?
      ensures next[k].after.workload.value.replicas == Restored(Overwritten(next[..k]))
    {
      assert next[..k] == log[..k];
      if k == |log| { assert log[..k] == log; }
    }
  }

  lemma ProperKeepsFaith(log: seq<Entry>, e: Entry, kind: string)
    requires FaithfulAt(log, e.before) && Proper(e, kind, false)
    ensures FaithfulAt(log + [e], e.after)
  {
    hide Atoi, Itoa;
    KeysDiffer();
    assert (log + [e])[..|log|] == log;
    if e.op.Write? && e.op.change.ToCount? {
      SavedIsRestored(e.before.workload.value.annotations, Overwritten(log));
    }
    Extend(log, e);
  }

  lemma {:induction false} ChainKeepsFaith(log: seq<Entry>, s: Store, entries: seq<Entry>, t: Store, kind: string)
    requires FaithfulAt(log, s) && Linked(s, entries, t)
    requires forall e :: e in entries ==> Proper(e, kind, false)
    ensures FaithfulAt(log + entries, t)
    decreases |entries|
  {
    hide FaithfulAt, Proper;
    if entries == [] {
      assert log + entries == log;
    } else {
      var k := |entries| - 1;
      assert entries == entries[..k] + [entries[k]];
      assert log + entries == log + entries[..k] + [entries[k]];
      ChainKeepsFaith(log, s, entries[..k], entries[k].before, kind);
      ProperKeepsFaith(log + entries[..k], entries[k], kind);
    }
  }

  lemma BehavingKeepsFaith(w: World, v: World, kind: string)
    requires Faithful(w) && Behaves(w, v, kind, false)
    ensures Faithful(v)
  {
    hide FaithfulAt, Proper;
    ChainKeepsFaith(w.log, w.store, New(w, v), v.store, kind);
  }

  lemma PassKeepsFaith(w: World, name: string)
    requires Faithful(w) && Steady(w.env) && StartsCurrent(w, name)
    ensures Faithful(Reconcile(w, name).world)
  {
    hide Reconcile, Prologue, Faithful, Behaves, StartsCurrent;
    var p := Prologue(w, name);
    var kind := if p.Ready? then p.instance.kind else "";
    PassBehaves(w, name, kind, false);
    BehavingKeepsFaith(w, Reconcile(w, name).world, kind);
  }

  // ----- All runs -----

  ghost predicate RunStartsCurrent(w: World, name: string, events: seq<Event>)
    decreases |events|
  {
    events != [] ==>
      && (events[0].Reconciled? ==>
            Steady(events[0].env) && StartsCurrent(w.(env := events[0].env), name))
      && RunStartsCurrent(Step(w, name, events[0]), name, events[1..])
  }

  /**
    Over every run whose passes start from a current copy and see no recreation half-way:
    the saved count prints what the last idling overwrote, and every wake-up ever committed
    wrote exactly that count, or 1 when there was none. Edits, conflicts, crashes, lost
    answers and recreation between passes are all allowed.
   */
  lemma {:induction false} CountsRestored(w: World, name: string, events: seq<Event>)
    requires Faithful(w) && RunStartsCurrent(w, name, events)
    ensures Faithful(Run(w, name, events))
    decreases |events|
  {
    if events == [] {
    } else {
      match events[0] {
        case External(edit) =>
          ProperKeepsFaith(w.log, Entry(Outside(edit), w.store, ApplyEdit(w.store, edit)), "");
        case Reconciled(env) =>
          PassKeepsFaith(w.(env := env), name);
        case Kidlectl(target, idle, env) =>
          KidlectlBehaves(w.(env := env), target, idle, "", false);
          BehavingKeepsFaith(w.(env := env), ApplyDesiredIdleState(w.(env := env), target, idle).world, "");
      }
      CountsRestored(Step(w, name, events[0]), name, events[1..]);
    }
  }

  // ----- Conditions on scripts alone -----

  /**
    The counts are restored, with a condition one can check before the run: in no pass is an
    old workload served or the workload recreated. Failures, lost answers, lost races, edits,
    stale instances, and recreation between passes are allowed.
   */
  lemma CountsRestoredByScript(w: World, name: string, events: seq<Event>)
    requires Faithful(w)
    requires forall k :: 0 <= k < |events| && events[k].Reconciled? ==> CurrentWorkloads(events[k].env)
    ensures Faithful(Run(w, name, events))
  {
    CurrentRunsStart(w, name, events);
    CountsRestored(w, name, events);
  }

  lemma {:induction false} CurrentRunsStart(w: World, name: string, events: seq<Event>)
    requires forall k :: 0 <= k < |events| && events[k].Reconciled? ==> CurrentWorkloads(events[k].env)
    ensures RunStartsCurrent(w, name, events)
    decreases |events|
  {
    hide StartsCurrent, Step;
    if events == [] {
    } else {
      if events[0].Reconciled? {
        CurrentWorkloadsStart(w.(env := events[0].env), name);
      }
      CurrentRunsStart(Step(w, name, events[0]), name, events[1..]);
    }
  }

  // ----- The conditions are exact -----

  /** Every wake-up in the log after `from` restored the count saved on the version it replaced. */
  ghost predicate WakesFaithfully(from: nat, w: World) {
    forall k :: from <= k < |w.log| && w.log[k].op.Write? && w.log[k].op.change.ToCount? ==>
      && w.log[k].before.workload.Some? && w.log[k].after.workload.Some?
      && SavedCount(w.log[k].before.workload.value.annotations) == Success(w.log[k].after.workload.value.replicas)
  }

  lemma AgreeingCopyWakesFaithfully(w: World, local: Workload, count: int32)
    requires Steady(w.env) && w.store.workload.Some?
    requires SavedCount(w.store.workload.value.annotations) == Success(count)
    ensures WakesFaithfully(|w.log|, Retry(w, local, ToCount(count), Attempts()).world)
  {
    var a := RetryIsAtomic(w, local, ToCount(count), Attempts());
    OthersKeepKidle(w, a);
    assert forall k :: |w.log| <= k < |a.log| ==> a.log[k] in New(w, a);
  }

  lemma DisagreeingCopyDoesNot(w: World, local: Workload, count: int32)
    requires w.env == [] && w.store.workload.Some?
    requires SavedCount(w.store.workload.value.annotations) != Success(count)
    ensures !WakesFaithfully(|w.log|, Retry(w, local, ToCount(count), Attempts()).world)
  {
    assert Attempt(w, local, ToCount(count)).world == Rewritten(w, ToCount(count));
    assert Rewritten(w, ToCount(count)).log[|w.log|].op == Write(ToCount(count));
  }

  /**
    The saved count is read from the local copy outside the retried closure. A wake-up then
    restores the count of the version it replaces, under every script without recreation,
    if and only if that copy and the store agree on the count.
   */
  lemma WakeupFaithfulIff(kind: string, w: World, local: Workload)
    requires Scales(kind) && w.store.workload.Some? && SavedCount(local.annotations).Success?
    ensures (forall env :: Steady(env) ==> WakesFaithfully(|w.log|, Wakeup(kind, w.(env := env), local).world)) <==>
            SavedCount(local.annotations) == SavedCount(w.store.workload.value.annotations)
  {
    var count := SavedCount(local.annotations).value;
    if SavedCount(local.annotations) == SavedCount(w.store.workload.value.annotations) {
      forall env | Steady(env)
        ensures WakesFaithfully(|w.log|, Wakeup(kind, w.(env := env), local).world)
      {
        AgreeingCopyWakesFaithfully(w.(env := env), local, count);
      }
    } else {
      DisagreeingCopyDoesNot(w.(env := []), local, count);
      assert Steady([]);
    }
  }

  // ----- Recreation inside a pass -----

  /** Somebody deletes the workload and creates it again just before the next call. */
  function RecreationScript(): seq<Disturbance> {
    [Disturbance([DeleteWorkload, CreateWorkload(map[], 7, false, "")], Served)]
  }

  /** The world as a call under that script finds it, the script used up. */
  function Recreated(w: World): World {
    var gone := Commit(w.(env := []), Outside(DeleteWorkload), ApplyEdit(w.store, DeleteWorkload));
    var create := CreateWorkload(map[], 7, false, "");
    Commit(gone, Outside(create), ApplyEdit(gone.store, create))
  }

  lemma TwoEdits(w: World, a: Edit, b: Edit)
    ensures var v := Commit(w, Outside(a), ApplyEdit(w.store, a));
            EditAll(w, [a, b]) == Commit(v, Outside(b), ApplyEdit(v.store, b))
  {
    hide ApplyEdit;
    assert [a, b][1..] == [b] && [b][1..] == [];
    var v := Commit(w, Outside(a), ApplyEdit(w.store, a));
    assert EditAll(w, [a, b]) == EditAll(v, [b]);
    assert EditAll(v, [b]) == EditAll(Commit(v, Outside(b), ApplyEdit(v.store, b)), []);
  }

  /** A retried change under that script rewrites the new workload, whatever the old one was. */
  lemma RecreatedRetry(w: World, local: Workload, change: Change)
    ensures var a := Recreated(w);
            && a.store.workload.Some? && a.store.workload.value.annotations == Some(map[])
            && a.store.instances == w.store.instances && a.env == []
            && |a.log| == |w.log| + 2 && a.log[..|w.log|] == w.log
            && (forall k :: |w.log| <= k < |a.log| ==> a.log[k].op.Outside?)
            && Retry(w.(env := RecreationScript()), local, change, Attempts()) ==
                 Try(Rewritten(a, change), Rewritten(a, change).store.workload.value, Pass)
  {
    hide EditAll;
    var u, a := w.(env := RecreationScript()), Recreated(w);
    var edits := RecreationScript()[0].edits;
    assert u.env[1..] == [];
    TwoEdits(w.(env := []), edits[0], edits[1]);
    assert Arrive(u) == a;
    assert Foreign(map[]) == map[];
    assert Attempt(u, local, change) == Try(Rewritten(a, change), Rewritten(a, change).store.workload.value, Pass);
  }

  /**
    Recreated inside a wake-up, a workload that was never idled gets its predecessor's count,
    whatever that is; this is right by luck alone, when the count is 1.
   */
  lemma RecreatedGetsOldCount(kind: string, w: World, local: Workload)
    requires Scales(kind) && SavedCount(local.annotations).Success?
    ensures var v := Wakeup(kind, w.(env := RecreationScript()), local).world;
            && |v.log| == |w.log| + 3
            && var e := v.log[|w.log| + 2];
            && e.before.workload.Some? && e.after.workload.Some?
            && !Has(e.before.workload.value.annotations, PREVIOUS)
            && Success(e.after.workload.value.replicas) == SavedCount(local.annotations)
            && (WakesFaithfully(|w.log|, v) <==> SavedCount(local.annotations) == Success(1))
  {
    hide Recreated;
    var count := SavedCount(local.annotations).value;
    RecreatedRetry(w, local, ToCount(count));
    var v := Rewritten(Recreated(w), ToCount(count));
    assert v.log[|w.log| + 2].op == Write(ToCount(count));
  }

  /** Any saved count in the store reads as 1. */
  predicate OnlyOnes(s: Store) {
    s.workload.Some? ==> SavedCount(s.workload.value.annotations) == Success(1)
  }

  lemma MildKeepsOnes(e: Entry)
    requires Mild(e) && OnlyOnes(e.before)
    ensures OnlyOnes(e.after)
  {
    hide Atoi;
    KeysDiffer();
  }

  lemma {:induction false} ChainKeepsOnes(s: Store, entries: seq<Entry>, t: Store)
    requires Linked(s, entries, t) && OnlyOnes(s) && forall e :: e in entries ==> Mild(e)
    ensures OnlyOnes(t)
    decreases |entries|
  {
    hide Mild, OnlyOnes;
    if entries == [] {
    } else {
      var k := |entries| - 1;
      assert entries[k] in entries && forall e :: e in entries[..k] ==> e in entries;
      ChainKeepsOnes(s, entries[..k], entries[k].before);
      MildKeepsOnes(entries[k]);
    }
  }

  lemma OnesWakeFaithfully(w: World, local: Workload)
    requires OnlyOnes(w.store)
    ensures WakesFaithfully(|w.log|, Retry(w, local, ToCount(1), Attempts()).world)
  {
    hide Retry, Linked, Mild, SavedCount;
    var a := RetryIsAtomic(w, local, ToCount(1), Attempts());
    ChainKeepsOnes(w.store, New(w, a), a.store);
    assert forall k :: |w.log| <= k < |a.log| ==> a.log[k] in New(w, a);
  }

  /**
    With recreation allowed too, no script can make a wake-up restore a wrong count if and
    only if copy and store agree on the count a workload without annotation has: 1.
   */
  lemma WakeupFaithfulEvenRecreatedIff(kind: string, w: World, local: Workload)
    requires Scales(kind) && w.store.workload.Some? && SavedCount(local.annotations).Success?
    ensures (forall env :: WakesFaithfully(|w.log|, Wakeup(kind, w.(env := env), local).world)) <==>
            SavedCount(local.annotations) == SavedCount(w.store.workload.value.annotations) == Success(1)
  {
    hide Retry, WakesFaithfully, SavedCount, RecreationScript;
    var count := SavedCount(local.annotations).value;
    if SavedCount(local.annotations) != SavedCount(w.store.workload.value.annotations) {
      DisagreeingCopyDoesNot(w.(env := []), local, count);
      assert Wakeup(kind, w.(env := []), local).world == Retry(w.(env := []), local, ToCount(count), Attempts()).world;
    } else if count != 1 {
      RecreatedGetsOldCount(kind, w, local);
    } else {
      forall env
        ensures WakesFaithfully(|w.log|, Wakeup(kind, w.(env := env), local).world)
      {
        OnesWakeFaithfully(w.(env := env), local);
      }
    }
  }
}
