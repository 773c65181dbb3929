/** Finalizer lists: the loops of `ContainsString` and `RemoveString`. */
module Finalizers {

  const KIDLE := "idlingresource.finalizers.kidle.kidle.dev"

  function Removed(slice: seq<string>, s: string): seq<string> {
    if slice == [] then []
    else if slice[0] == s then Removed(slice[1..], s)
    else [slice[0]] + Removed(slice[1..], s)
  }

  /** controllerutil.AddFinalizer appends only what is missing. */
  function Added(slice: seq<string>, s: string): seq<string> {
    if s in slice then slice else slice + [s]
  }

  lemma {:induction false} RemovedMembers(slice: seq<string>, s: string, x: string)
    ensures x in Removed(slice, s) <==> x in slice && x != s
  {
    if slice == [] {
    } else {
      RemovedMembers(slice[1..], s, x);
    }
  }

  lemma {:induction false} RemovedAppend(slice: seq<string>, s: string, x: string)
    ensures Removed(slice + [x], s) == Removed(slice, s) + if x == s then [] else [x]
  {
    if slice == [] {
      assert Removed([x][1..], s) == [];
    } else {
      assert (slice + [x])[1..] == slice[1..] + [x];
      RemovedAppend(slice[1..], s, x);
    }
  }

  lemma {:induction false} RemovedIdle(slice: seq<string>, s: string)
    requires s !in slice
    ensures Removed(slice, s) == slice
  {
    if slice == [] {
    } else {
      RemovedIdle(slice[1..], s);
    }
  }

  /**
    Adding a finalizer puts it behind all others, once; adding a missing one and removing it
    again leaves the list as it was.
   */
  lemma AddThenRemove(slice: seq<string>, s: string)
    ensures slice <= Added(slice, s) && s in Added(slice, s) && |Added(slice, s)| <= |slice| + 1
    ensures s in slice ==> Added(slice, s) == slice
    ensures s !in slice ==> Removed(Added(slice, s), s) == slice
  {
    if s !in slice {
      RemovedAppend(slice, s, s);
      RemovedIdle(slice, s);
    }
  }

  method ContainsString(slice: seq<string>, s: string) returns (found: bool)
    ensures found <==> s in slice
  {
    for k := 0 to |slice|
      invariant s !in slice[..k]
    {
      if slice[k] == s {
        return true;
      }
    }
    return false;
  }

  method RemoveString(slice: seq<string>, s: string) returns (result: seq<string>)
    ensures result == Removed(slice, s)
    ensures forall x :: x in result <==> x in slice && x != s
  {
    result := [];
    for k := 0 to |slice|
      invariant result == Removed(slice[..k], s)
    {
      assert slice[..k + 1] == slice[..k] + [slice[k]];
      RemovedAppend(slice[..k], s, slice[k]);
      if slice[k] == s {
        continue;
      }
      result := result + [slice[k]];
    }
    assert slice[..|slice|] == slice;
    forall x {
      RemovedMembers(slice, s, x);
    }
  }
}
