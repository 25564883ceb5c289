/** What several modules share. */
module Basics {

  datatype Option<+T> = None | Some(value: T)

  /** The NULL link of index-based lists. */
  const NIL: int := -1

  ghost predicate Distinct(s: seq<nat>) {
    forall i, j :: 0 <= i < j < |s| ==> s[i] != s[j]
  }

  function Pow2(k: nat): (r: nat)
    ensures r > 0
  {
    if k == 0 then 1 else 2 * Pow2(k - 1)
  }
}
