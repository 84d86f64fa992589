/** Small things used everywhere. */
module Wrappers {

  datatype Option<+T> = None | Some(value: T)

  predicate NoRepeats<T(==)>(list: seq<T>) {
    forall i, j :: 0 <= i < j < |list| ==> list[i] != list[j]
  }
}
