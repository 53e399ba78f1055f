/** Order-preserving subsequences, the relation `Array.prototype.filter`
    keeps between its result and its input. */
module Subsequences {

  /** Every element of `a` occurs in `b`, in the same relative order. */
  predicate IsSubsequence<T(==)>(a: seq<T>, b: seq<T>)
    decreases |b|
  {
    a == [] || (b != [] && if a[0] == b[0] then IsSubsequence(a[1..], b[1..]) else IsSubsequence(a, b[1..]))
  }
}
