/** Small facts about sequences shared by the form and JSON models. */
module Seqs {

  /** No element occurs twice. */
  predicate Distinct<T(==)>(s: seq<T>) {
    forall i, j :: 0 <= i < j < |s| ==> s[i] != s[j]
  }

  /** Every element of `s` is one of `allowed`. */
  predicate AllIn<T(==)>(s: seq<T>, allowed: seq<T>) {
    forall i :: 0 <= i < |s| ==> s[i] in allowed
  }
}
