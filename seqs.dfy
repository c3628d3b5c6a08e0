/** Facts about sequences shared by the other modules. */
module Seqs {

  /** No element occurs twice: the sequence is the iteration order of a set. */
  predicate NoDuplicates<T(==)>(xs: seq<T>) {
    forall i, j :: 0 <= i < j < |xs| ==> xs[i] != xs[j]
  }
}
