/** Small vocabulary shared by every module of the project. */
module Prelude {

  datatype Option<+T> = None | Some(value: T)

  predicate Distinct<T(==)>(xs: seq<T>) {
    forall i, j :: 0 <= i < j < |xs| ==> xs[i] != xs[j]
  }

  /** Whole samples in `ms` milliseconds. */
  function MsToSamples(ms: nat, rate: nat): nat {
    ms * rate / 1000
  }
}
