/**
  Annotation maps as the code sees them: possibly nil, and written only through
  `AddAnnotation` and `RemoveAnnotation`.
 */
module Annotations {
  import opened Wrappers

  /** `None` is Go's nil map. */
  type Annotations = Option<map<string, string>>

  const REFERENCE := "kidle.kidle.dev/idling-resource-reference"
  const PREVIOUS := "kidle.kidle.dev/previous-replicas"
  const EXPECTED := "kidle.kidle.dev/expected-state"

  predicate IsKidleKey(key: string) {
    key == REFERENCE || key == PREVIOUS || key == EXPECTED
  }

  lemma KeysDiffer()
    ensures REFERENCE != PREVIOUS && REFERENCE != EXPECTED && PREVIOUS != EXPECTED
  {
    assert REFERENCE[16] != PREVIOUS[16] && REFERENCE[16] != EXPECTED[16] && PREVIOUS[16] != EXPECTED[16];
  }

  /** The contents, with nil read as empty. */
  function View(a: Annotations): map<string, string> {
    if a.None? then map[] else a.value
  }

  predicate Has(a: Annotations, key: string) {
    key in View(a)
  }

  function Get(a: Annotations, key: string): Option<string> {
    if key in View(a) then Some(View(a)[key]) else None
  }

  function With(a: Annotations, key: string, value: string): Annotations {
    Some(View(a)[key := value])
  }

  /** Deleting from a nil map does nothing. */
  function Without(a: Annotations, key: string): Annotations {
    if a.None? then None else Some(a.value - {key})
  }

  /** The entries that belong to everybody else. */
  function Foreign(m: map<string, string>): map<string, string> {
    map k | k in m && !IsKidleKey(k) :: m[k]
  }

  /** The entries that belong to Kidle. */
  function Kidle(m: map<string, string>): map<string, string> {
    map k | k in m && IsKidleKey(k) :: m[k]
  }
}
