/** Small helper types shared by the lifecycle modules. */
module Wrappers {

  /** An optional value: the model of a TypeScript field declared with `?`. */
  datatype Option<+T> = None | Some(value: T)

  /** No two positions of `s` hold the same value (the ids of a collection are unique). */
  predicate Distinct<T(==)>(s: seq<T>)
  {
    forall i, j :: 0 <= i < j < |s| ==> s[i] != s[j]
  }

  /** Prepending a value that does not occur keeps a sequence free of repeats. */
  lemma DistinctCons<T>(x: T, s: seq<T>)
    requires Distinct(s) && x !in s
    ensures Distinct([x] + s)
  {
  }

  /** Dropping the first element keeps a sequence free of repeats, and the first element does not occur again. */
  lemma DistinctTail<T>(s: seq<T>)
    requires Distinct(s) && s != []
    ensures Distinct(s[1..]) && s[0] !in s[1..]
  {
  }
}
