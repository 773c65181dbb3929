/**
  `kidlectl idle` and `kidlectl wakeup`: what is written, and what the answer means. The answer
  decides whether a job that runs the command is tried again.
 */
module Flags {
  import opened Wrappers
  import opened Cluster
  import opened Reconciling
  import opened Frames
  import Orphans

  /**
    The flag is changed by compare-and-set: whatever the script does, the answer is `true`
    exactly for one committed write, over the version then current, that raises or lowers the
    flag and keeps the rest of that instance; `false` and every error but a lost answer mean
    nothing was written.
   */
  lemma FlagIsCompareAndSet(w: World, target: string, idle: bool) returns (a: World)
    ensures ByOthers(w, a)
    ensures var r := ApplyDesiredIdleState(w, target, idle);
            || (r.world == a && r.value != Success(true))
            || (&& target in a.store.instances && a.store.instances[target].idle != idle
                && (r.value == Success(true) || r.value == Failure(Unavailable))
                && r.world == Commit(a, SetIdle(idle),
                                     PutInstance(a.store, target, a.store.instances[target].(idle := idle))))
  {
    var got := GetInstance(w, target);
    Orphans.GetInstanceFacts(w, target);
    a := got.world;
    if got.value.Success? && got.value.value.idle != idle {
      a := Arrive(got.world);
      ArriveIsOthers(got.world);
      OthersJoin(w, got.world, a);
      OthersKeepInstanceSnapshot(got.world, a, got.value.value, target);
    }
  }

  /** The update reaches the server unrefused, beats everybody else, and is answered. */
  predicate Lands(w: World, target: string, copy: Instance) {
    var s := Arrive(w).store;
    && VerdictOf(w) != Refused && VerdictOf(w) != Lost
    && target in s.instances && s.instances[target].version == copy.version
  }

  /**
    What each answer means, under every script: "nothing to do" exactly when the read shows
    the desired flag already, "done" exactly when the update landed, and everything else, a
    failed read as much as an update refused, lost or beaten, is a failure. Any success means
    that the version read or written carries the flag.
   */
  lemma AnswersAreHonest(w: World, target: string, idle: bool)
    ensures var got, r := GetInstance(w, target), ApplyDesiredIdleState(w, target, idle);
            && (got.value.Failure? ==> r.value == Failure(got.value.error) && r.world == got.world)
            && (r.value == Success(false) <==> got.value.Success? && got.value.value.idle == idle)
            && (r.value == Success(true) <==>
                  && got.value.Success? && got.value.value.idle != idle
                  && Lands(got.world, target, got.value.value))
            && (r.value == Success(true) && target in r.world.store.instances ==>
                  r.world.store.instances[target].idle == idle)
  {
    hide ByOthers, OnlyEdits, EditAll;
    var got := GetInstance(w, target);
    Orphans.GetInstanceFacts(w, target);
    if got.value.Success? {
      var copy, a := got.value.value, Arrive(got.world);
      ArriveIsOthers(got.world);
      OthersKeepInstanceSnapshot(got.world, a, copy, target);
    }
  }

  /**
    A lost race is told: the flag is down, somebody edits the instance between the read and the
    update, and the command fails with the flag still as it was.
   */
  lemma LostRaceIsAFailure(w: World, target: string, idle: bool, edit: Edit)
    requires target in w.store.instances && w.store.instances[target].idle != idle
    requires edit.EditInstance? && edit.name == target && edit.idle == w.store.instances[target].idle
    requires w.env == [Disturbance([], Served), Disturbance([edit], Served)]
    ensures var r := ApplyDesiredIdleState(w, target, idle);
            && (target in ApplyEdit(w.store, edit).instances ==> r.value == Failure(Conflict))
            && (target !in ApplyEdit(w.store, edit).instances ==> r.value == Failure(NotFound))
            && r.world.store == ApplyEdit(w.store, edit)
  {
    var rest := [Disturbance([edit], Served)];
    assert w.env[1..] == rest && rest[1..] == [] && [edit][1..] == [];
    var u, v := w.(env := rest), w.(env := []);
    assert EditAll(u, []) == u;
    assert GetInstance(w, target) == Reply(u, Success(w.store.instances[target]));
    var edited := Commit(v, Outside(edit), ApplyEdit(v.store, edit));
    assert EditAll(v, [edit]) == EditAll(edited, []) == edited;
    assert Arrive(u) == edited;
  }
}
