/**
  Two instances side by side: whose CronJobs survive whose passes. Their generated names
  decide, and since names are cut, two instances can share one.
 */
module Neighbours {
  import opened Wrappers
  import opened Cluster
  import opened Owned
  import opened Schedules
  import DnsName

  /** Passes of the two instances never want different things of one CronJob. */
  predicate Separate(a: string, b: string, command: string, forA: Option<string>, forB: Option<string>)
    requires |command| <= 6
  {
    ChildName(a, command) != ChildName(b, command) || (forA.None? && forB.None?)
  }

  predicate Apart(a: string, instA: Instance, b: string, instB: Instance) {
    Separate(a, b, IDLE, instA.idling, instB.idling) && Separate(a, b, WAKEUP, instA.waking, instB.waking)
  }

  predicate Matches(jobs: map<string, Job>, image: string, name: string, inst: Instance) {
    JobMatches(jobs, image, name, IDLE, inst.idling) && JobMatches(jobs, image, name, WAKEUP, inst.waking)
  }

  /** No state can suit both unless their wishes are separate. */
  lemma BothMatchOnlyApart(
    jobs: map<string, Job>, image: string, a: string, instA: Instance, b: string, instB: Instance)
    requires a != b && Matches(jobs, image, a, instA) && Matches(jobs, image, b, instB)
    ensures Apart(a, instA, b, instB)
  {
    assert forall c: string :: [c, a][1] != [c, b][1];
  }

  /** What a pass of `b` makes of the CronJobs that `a` wants. */
  lemma NeighbourPass(jobs: map<string, Job>, image: string, a: string, instA: Instance, b: string, instB: Instance)
    requires a != b && Matches(jobs, image, a, instA) && Single(jobs, a) && Single(jobs, b)
    ensures var first := SettledJobs(jobs, image, b, IDLE, instB.idling);
            var next := SettledJobs(first, image, b, WAKEUP, instB.waking);
            && Matches(next, image, b, instB) && Single(next, a) && Single(next, b)
            && (Matches(next, image, a, instA) <==> Apart(a, instA, b, instB))
  {
    hide SettledJobs;
    var first := SettledJobs(jobs, image, b, IDLE, instB.idling);
    var next := SettledJobs(first, image, b, WAKEUP, instB.waking);
    SettledJobsMatch(jobs, image, b, instB);
    SettledJobsIntact(jobs, image, b, instB);
    SingleSurvives(jobs, image, a, b, instB);
    CommandsNeverMeet(a, b);
    CommandsNeverMeet(b, a);
    if Matches(next, image, a, instA) {
      BothMatchOnlyApart(next, image, a, instA, b, instB);
    } else if Apart(a, instA, b, instB) {
      ApartUntouched(jobs, next, image, a, instA, b, instB);
    }
  }

  lemma SingleSurvives(jobs: map<string, Job>, image: string, a: string, b: string, instB: Instance)
    requires Single(jobs, a) && Single(jobs, b)
    ensures Single(SettledJobs(SettledJobs(jobs, image, b, IDLE, instB.idling), image, b, WAKEUP, instB.waking), a)
  {
    hide SettledJobs, JobIntact;
    var first := SettledJobs(jobs, image, b, IDLE, instB.idling);
    SettledJobIntact(jobs, image, b, IDLE, instB.idling, ChildName(a, IDLE));
    SettledJobIntact(jobs, image, b, IDLE, instB.idling, ChildName(a, WAKEUP));
    SettledJobIntact(first, image, b, WAKEUP, instB.waking, ChildName(a, IDLE));
    SettledJobIntact(first, image, b, WAKEUP, instB.waking, ChildName(a, WAKEUP));
  }

  lemma ApartUntouched(
    jobs: map<string, Job>, next: map<string, Job>, image: string, a: string, instA: Instance, b: string,
      instB: Instance)
    requires Apart(a, instA, b, instB) && Matches(jobs, image, a, instA) && JobsMatch(jobs, next, image, b, instB)
    ensures Matches(next, image, a, instA)
  {
    hide ChildName;
    CommandsNeverMeet(a, b);
    CommandsNeverMeet(b, a);
  }

  // ----- Undisturbed passes in any order -----

  /** A store over which both instances pass, and whose CronJobs were not tampered with. */
  ghost predicate Shared(w: World, a: string, b: string) {
    && w.env == [] && RoleIntact(w.store.children, a) && RoleIntact(w.store.children, b)
    && Single(Content(w.store.children).jobs, a) && Single(Content(w.store.children).jobs, b)
  }

  function Pass(w: World, name: string, inst: Instance): World {
    ReconcileCronStrategies(w, name, inst).world
  }

  lemma OtherRoleIntact(c: Children, image: string, a: string, b: string, instB: Instance)
    requires RoleIntact(c, a) && RoleIntact(c, b)
    ensures RoleIntact(Settled(c, image, b, instB), a)
  {
  }

  lemma SharedPass(w: World, a: string, b: string, instB: Instance)
    requires Shared(w, a, b)
    ensures var v, jobs := Pass(w, b, instB), Content(w.store.children).jobs;
            && Shared(v, a, b) && v.image == w.image
            && Content(v.store.children).jobs ==
                 SettledJobs(SettledJobs(jobs, w.image, b, IDLE, instB.idling), w.image, b, WAKEUP, instB.waking)
            && Matches(Content(v.store.children).jobs, w.image, b, instB)
  {
    hide ReconcileCronStrategies, Content, SettledJobs, SettledRBAC, JobIntact, RoleIntact, JobMatches;
    var v, c := Pass(w, b, instB), Content(w.store.children);
    QuietChildren(w, b, instB);
    IntactContent(w.store.children, a);
    IntactContent(w.store.children, b);
    OtherRoleIntact(c, w.image, a, b, instB);
    OtherRoleIntact(c, w.image, b, b, instB);
    IntactContent(v.store.children, a);
    IntactContent(v.store.children, b);
    SettledKeepsJobs(c, w.image, b, instB);
    SettledJobsMatch(c.jobs, w.image, b, instB);
    SettledJobsIntact(c.jobs, w.image, b, instB);
    SingleSurvives(c.jobs, w.image, a, b, instB);
  }

  lemma SettledKeepsJobs(c: Children, image: string, name: string, inst: Instance)
    requires RoleIntact(c, name)
    ensures Settled(c, image, name, inst).jobs ==
            SettledJobs(SettledJobs(c.jobs, image, name, IDLE, inst.idling), image, name, WAKEUP, inst.waking)
  {
  }

  predicate BothMatch(w: World, a: string, instA: Instance, b: string, instB: Instance) {
    var jobs := Content(w.store.children).jobs;
    Matches(jobs, w.image, a, instA) && Matches(jobs, w.image, b, instB)
  }

  /**
    One pass each, undisturbed: both instances have the CronJobs they ask for if and only if
    no generated name is shared by a CronJob that either of them wants.
   */
  lemma NeighboursMatchIff(w: World, a: string, instA: Instance, b: string, instB: Instance)
    requires a != b && Shared(w, a, b)
    ensures BothMatch(Pass(Pass(w, a, instA), b, instB), a, instA, b, instB) <==> Apart(a, instA, b, instB)
  {
    hide Pass, Content, SettledJobs, Matches, Apart, Single;
    var u := Pass(w, a, instA);
    SharedSwaps(w, a, b);
    SharedPass(w, b, a, instA);
    SharedSwaps(u, b, a);
    SharedPass(u, a, b, instB);
    NeighbourPass(Content(u.store.children).jobs, w.image, a, instA, b, instB);
  }

  lemma SharedSwaps(w: World, a: string, b: string)
    requires Shared(w, a, b)
    ensures Shared(w, b, a)
  {
  }

  /** Passes in turn, in any order: `true` is a pass of `a`. */
  function Turns(w: World, a: string, instA: Instance, b: string, instB: Instance, turns: seq<bool>): World
    decreases |turns|
  {
    if turns == [] then w
    else Turns(if turns[0] then Pass(w, a, instA) else Pass(w, b, instB), a, instA, b, instB, turns[1..])
  }

  /** Once both have what they ask for, no order of passes takes it from either. */
  lemma {:induction false} TurnsKeepBoth(
    w: World, a: string, instA: Instance, b: string, instB: Instance, turns: seq<bool>)
    requires a != b && Shared(w, a, b) && BothMatch(w, a, instA, b, instB)
    ensures BothMatch(Turns(w, a, instA, b, instB, turns), a, instA, b, instB)
    decreases |turns|
  {
    hide Pass, Content, SettledJobs, Matches, Apart, Single;
    if turns == [] {
    } else {
      var jobs := Content(w.store.children).jobs;
      BothMatchOnlyApart(jobs, w.image, a, instA, b, instB);
      BothMatchOnlyApart(jobs, w.image, b, instB, a, instA);
      SharedSwaps(w, a, b);
      if turns[0] {
        SharedPass(w, b, a, instA);
        SharedSwaps(Pass(w, a, instA), b, a);
        SharedParts(w, a, b);
        NeighbourPass(jobs, w.image, b, instB, a, instA);
        TurnsKeepBoth(Pass(w, a, instA), a, instA, b, instB, turns[1..]);
      } else {
        SharedPass(w, a, b, instB);
        SharedParts(w, a, b);
        NeighbourPass(jobs, w.image, a, instA, b, instB);
        TurnsKeepBoth(Pass(w, b, instB), a, instA, b, instB, turns[1..]);
      }
    }
  }

  lemma SharedParts(w: World, a: string, b: string)
    requires Shared(w, a, b)
    ensures Single(Content(w.store.children).jobs, a) && Single(Content(w.store.children).jobs, b)
  {
  }

  /** The instance that passed last has what it asks for; unless they are apart, the other has not. */
  lemma {:induction false} LastTurnWins(
    w: World, a: string, instA: Instance, b: string, instB: Instance, turns: seq<bool>)
    requires a != b && Shared(w, a, b) && turns != []
    ensures var v, last := Turns(w, a, instA, b, instB, turns), turns[|turns| - 1];
            var jobs := Content(v.store.children).jobs;
            && Matches(jobs, v.image, if last then a else b, if last then instA else instB)
            && (!Apart(a, instA, b, instB) ==>
                  !Matches(jobs, v.image, if last then b else a, if last then instB else instA))
    decreases |turns|
  {
    hide Pass, Content, SettledJobs, Matches, Apart, Single;
    var v := if turns[0] then Pass(w, a, instA) else Pass(w, b, instB);
    SharedSwaps(w, a, b);
    if turns[0] {
      SharedPass(w, b, a, instA);
      SharedSwaps(v, b, a);
    } else {
      SharedPass(w, a, b, instB);
    }
    if |turns| == 1 {
      var jobs := Content(v.store.children).jobs;
      assert turns[1..] == [];
      if Matches(jobs, v.image, a, instA) && Matches(jobs, v.image, b, instB) {
        BothMatchOnlyApart(jobs, v.image, a, instA, b, instB);
      }
    } else {
      assert turns[1..][|turns[1..]| - 1] == turns[|turns| - 1];
      LastTurnWins(v, a, instA, b, instB, turns[1..]);
    }
  }

  /**
    Every instance whose idle CronJob has a cut name has a neighbour, of another valid name,
    with which it fights over that CronJob for ever: whatever turns their passes take, the one
    that passed last has its CronJobs as it asks, and the other has not.
   */
  lemma CutNamesFight(b: string, instA: Instance, instB: Instance) returns (a: string)
    requires DnsName.LabelShaped(b) && !DnsName.Fits("kidle", b, IDLE)
    requires instA.idling.Some? || instB.idling.Some?
    ensures DnsName.LabelShaped(a) && a != b && !Apart(a, instA, b, instB)
    ensures forall w, turns :: Shared(w, a, b) && turns != [] ==>
              var v, last := Turns(w, a, instA, b, instB, turns), turns[|turns| - 1];
              var jobs := Content(v.store.children).jobs;
              Matches(jobs, v.image, a, instA) == last && Matches(jobs, v.image, b, instB) == !last
  {
    hide Turns, Content, Matches, Shared;
    a := DnsName.CutNameHasShortTwin("kidle", b, IDLE);
    forall w, turns | Shared(w, a, b) && turns != []
      ensures var v, last := Turns(w, a, instA, b, instB, turns), turns[|turns| - 1];
              var jobs := Content(v.store.children).jobs;
              Matches(jobs, v.image, a, instA) == last && Matches(jobs, v.image, b, instB) == !last
    {
      LastTurnWins(w, a, instA, b, instB, turns);
    }
  }
}
