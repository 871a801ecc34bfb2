/** What several modules share. */
module Prelude {
  datatype Option<T> = None | Some(value: T)

  predicate NoDup(xs: seq<nat>) { forall i, j :: 0 <= i < j < |xs| ==> xs[i] != xs[j] }

  function One(yes: bool): nat { if yes then 1 else 0 }
}
