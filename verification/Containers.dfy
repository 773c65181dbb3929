/**
  Container lists: the loops of `ContainersToMap` and `SetContainer` over an array, and the
  map view of the in-place replacement.
 */
module Containers {
  import opened Cluster
  import opened Owned

  /** The index of the first container of that name, or the length. */
  function First(containers: seq<Container>, name: string): (k: nat)
    ensures k <= |containers|
    ensures forall i :: 0 <= i < k ==> containers[i].name != name
    ensures k < |containers| ==> containers[k].name == name
  {
    if containers == [] || containers[0].name == name then 0
    else 1 + First(containers[1..], name)
  }

  predicate Unique(containers: seq<Container>) {
    forall i, j :: 0 <= i < j < |containers| ==> containers[i].name != containers[j].name
  }

  /** Replacement touches the first match and nothing else: same length, same order. */
  lemma {:induction false} ReplacedAtFirst(containers: seq<Container>, c: Container)
    ensures var k := First(containers, c.name);
            Replaced(containers, c) == if k < |containers| then containers[k := c] else containers
  {
    if containers == [] || containers[0].name == c.name {
    } else {
      ReplacedAtFirst(containers[1..], c);
    }
  }

  /** The index of the last container of that name, or -1. */
  function Last(containers: seq<Container>, name: string): (k: int)
    ensures -1 <= k < |containers|
    ensures k >= 0 ==> containers[k].name == name
    ensures forall i :: k < i < |containers| ==> containers[i].name != name
  {
    var n := |containers| - 1;
    if containers == [] then -1
    else if containers[n].name == name then n
    else Last(containers[..n], name)
  }

  /** A name is mapped to the last container that has it. */
  lemma {:induction false} ToMapIsLast(containers: seq<Container>, name: string)
    ensures name in ToMap(containers) <==> Last(containers, name) >= 0
    ensures Last(containers, name) >= 0 ==> ToMap(containers)[name] == containers[Last(containers, name)]
  {
    if containers == [] {
    } else {
      ToMapIsLast(containers[..|containers| - 1], name);
    }
  }

  lemma SameNamesSameLast(a: seq<Container>, b: seq<Container>, name: string)
    requires |a| == |b| && forall i :: 0 <= i < |a| ==> a[i].name == b[i].name
    ensures Last(a, name) == Last(b, name)
  {
  }

  /** What the map view of a replaced list holds under a name. */
  lemma ReplacedLookup(containers: seq<Container>, c: Container, name: string)
    ensures var next := Replaced(containers, c);
            var k := Last(containers, name);
            && (name in ToMap(next) <==> name in ToMap(containers))
            && (k >= 0 ==> k < |next| && name in ToMap(next) && name in ToMap(containers)
                           && ToMap(next)[name] == next[k] && ToMap(containers)[name] == containers[k])
  {
    ReplacedAtFirst(containers, c);
    SameNamesSameLast(containers, Replaced(containers, c), name);
    ToMapIsLast(containers, name);
    ToMapIsLast(Replaced(containers, c), name);
  }

  /**
    The array view refines the map view exactly when the name occurs once, or when its last
    occurrence already is the container being set.
   */
  lemma SetIsMapUpdateIff(containers: seq<Container>, c: Container)
    requires c.name in ToMap(containers)
    ensures ToMap(Replaced(containers, c)) == ToMap(containers)[c.name := c] <==>
            First(containers, c.name) == Last(containers, c.name) || ToMap(containers)[c.name] == c
  {
    var next := Replaced(containers, c);
    ReplacedAtFirst(containers, c);
    ReplacedLookup(containers, c, c.name);
    ToMapIsLast(containers, c.name);
    forall name | name != c.name
      ensures name in ToMap(next) <==> name in ToMap(containers)
      ensures name in ToMap(containers) ==> ToMap(next)[name] == ToMap(containers)[name]
    {
      ReplacedLookup(containers, c, name);
      ToMapIsLast(containers, name);
    }
    assert ToMap(next) == ToMap(containers)[c.name := c] <==> ToMap(next)[c.name] == c;
  }

  /** With unique names, setting an existing container is the one-key map update. */
  lemma SetIsMapUpdate(containers: seq<Container>, c: Container)
    requires Unique(containers) && c.name in ToMap(containers)
    ensures ToMap(Replaced(containers, c)) == ToMap(containers)[c.name := c]
    ensures Unique(Replaced(containers, c))
  {
    ToMapIsLast(containers, c.name);
    SetIsMapUpdateIff(containers, c);
    ReplacedAtFirst(containers, c);
  }

  lemma ReplacedTwice(containers: seq<Container>, c: Container)
    ensures Replaced(Replaced(containers, c), c) == Replaced(containers, c)
  {
    var next := Replaced(containers, c);
    ReplacedAtFirst(containers, c);
    ReplacedAtFirst(next, c);
    var k := First(containers, c.name);
    if k < |containers| {
      assert next[k] == c;
    }
  }

  lemma DesiredIsStable(containers: seq<Container>, image: string, v: JobValues)
    ensures var d := Desired(Lookup(containers, CONTAINER), image, v);
            Desired(Lookup(Replaced(containers, d), CONTAINER), image, v) == d
  {
    var d := Desired(Lookup(containers, CONTAINER), image, v);
    ReplacedAtFirst(containers, d);
    ReplacedLookup(containers, d, CONTAINER);
    ToMapIsLast(containers, CONTAINER);
  }

  /**
    Writing the desired values twice is writing them once, for any container list: also when
    there is no such container, or more than one.
   */
  lemma SettingIsIdempotent(containers: seq<Container>, image: string, v: JobValues)
    ensures var next := Replaced(containers, Desired(Lookup(containers, CONTAINER), image, v));
            Replaced(next, Desired(Lookup(next, CONTAINER), image, v)) == next
  {
    DesiredIsStable(containers, image, v);
    ReplacedTwice(containers, Desired(Lookup(containers, CONTAINER), image, v));
  }

  /** After a write, the `kidlectl` container shows the desired values if there is exactly one. */
  lemma SettingShows(containers: seq<Container>, image: string, v: JobValues)
    requires First(containers, CONTAINER) == Last(containers, CONTAINER)
    ensures var was := Lookup(containers, CONTAINER);
            var now := Lookup(Replaced(containers, Desired(was, image, v)), CONTAINER);
            && now == Desired(was, image, v)
            && now.image == image && now.args == [v.command, v.name] && now.name == was.name && now.rest == was.rest
  {
    var d := Desired(Lookup(containers, CONTAINER), image, v);
    ReplacedAtFirst(containers, d);
    ReplacedLookup(containers, d, CONTAINER);
    ToMapIsLast(containers, CONTAINER);
  }

  lemma SettingKeepsNames(containers: seq<Container>, c: Container, name: string)
    ensures var next := Replaced(containers, c);
            && |next| == |containers|
            && Last(next, name) == Last(containers, name) && First(next, name) == First(containers, name)
  {
    var next := Replaced(containers, c);
    ReplacedAtFirst(containers, c);
    SameNamesSameLast(containers, next, name);
    assert forall i :: 0 <= i < |next| ==> next[i].name == containers[i].name;
    var i, j := First(containers, name), First(next, name);
    assert i <= j && j <= i;
  }

  // ----- The loops -----

  method ContainersToMap(containers: array<Container>) returns (result: map<string, Container>)
    ensures result == ToMap(containers[..])
  {
    result := map[];
    if containers.Length > 0 {
      for k := 0 to containers.Length
        invariant result == ToMap(containers[..k])
      {
        var c := containers[k];
        result := result[c.name := c];
        assert containers[..k + 1][..k] == containers[..k];
      }
    }
    assert containers[..containers.Length] == containers[..];
  }

  method SetContainer(containers: array<Container>, container: Container)
    modifies containers
    ensures containers[..] == Replaced(old(containers[..]), container)
  {
    ghost var before := containers[..];
    ReplacedAtFirst(before, container);
    for k := 0 to containers.Length
      invariant containers[..] == before
      invariant k <= First(before, container.name)
    {
      if containers[k].name == container.name {
        containers[k] := container;
        return;
      }
    }
  }
}
