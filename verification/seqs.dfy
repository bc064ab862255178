/**
 * Duplicate-freedom of sequences: a recursive form that evaluates cheaply on
 * literal sequences, and the pairwise-distinct meaning it stands for.
 */
module Seqs {

  /** `x` occurs nowhere at or after position `k` of `xs`. */
  predicate AbsentFrom<T(==)>(x: T, xs: seq<T>, k: nat)
    decreases |xs| - k
  {
    k >= |xs| || (x != xs[k] && AbsentFrom(x, xs, k + 1))
  }

  /** No value occurs twice at or after position `k` of `xs`. */
  predicate DistinctFrom<T(==)>(xs: seq<T>, k: nat)
    decreases |xs| - k
  {
    k >= |xs| || (AbsentFrom(xs[k], xs, k + 1) && DistinctFrom(xs, k + 1))
  }

  /** No value occurs twice in `xs`. */
  predicate NoDuplicates<T(==)>(xs: seq<T>)
  {
    DistinctFrom(xs, 0)
  }

  lemma {:induction false} AbsentFromIffNoneEqual<T>(x: T, xs: seq<T>, k: nat)
    ensures AbsentFrom(x, xs, k) <==> forall j :: k <= j < |xs| ==> xs[j] != x
    decreases |xs| - k
  {
    if k < |xs| {
      AbsentFromIffNoneEqual(x, xs, k + 1);
    }
  }

  lemma {:induction false} DistinctFromIffPairwiseDistinct<T>(xs: seq<T>, k: nat)
    ensures DistinctFrom(xs, k) <==> forall i, j :: k <= i < j < |xs| ==> xs[i] != xs[j]
    decreases |xs| - k
  {
    if k < |xs| {
      AbsentFromIffNoneEqual(xs[k], xs, k + 1);
      DistinctFromIffPairwiseDistinct(xs, k + 1);
    }
  }

  /** The recursive check holds exactly when all positions hold different values. */
  lemma NoDuplicatesIffPairwiseDistinct<T>(xs: seq<T>)
    ensures NoDuplicates(xs) <==> forall i, j :: 0 <= i < j < |xs| ==> xs[i] != xs[j]
  {
    DistinctFromIffPairwiseDistinct(xs, 0);
  }
}
