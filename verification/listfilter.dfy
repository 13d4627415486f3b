/**
 * `Array.prototype.filter`: the elements a predicate keeps, in their original
 * order, and the subsequence relation that describes its result.
 */
module ListFilter {

  /** `xs.filter(keep)` */
  function Filter<T>(xs: seq<T>, keep: T -> bool): (r: seq<T>)
    ensures |r| <= |xs|
    ensures forall i :: 0 <= i < |r| ==> keep(r[i])
  {
    if xs == [] then []
    else (if keep(xs[0]) then [xs[0]] else []) + Filter(xs[1..], keep)
  }

  /** `sub` is obtained from `xs` by deleting elements, keeping the order of the rest. */
  predicate IsSubsequence<T(==)>(sub: seq<T>, xs: seq<T>)
  {
    if sub == [] then true
    else if xs == [] then false
    else (sub[0] == xs[0] && IsSubsequence(sub[1..], xs[1..])) || IsSubsequence(sub, xs[1..])
  }

  /** An element is kept exactly when it is in the list and the predicate holds of it. */
  lemma {:induction false} FilterMembership<T>(xs: seq<T>, keep: T -> bool, x: T)
    ensures x in Filter(xs, keep) <==> x in xs && keep(x)
  {
    if xs != [] {
      FilterMembership(xs[1..], keep, x);
      assert xs == [xs[0]] + xs[1..];
    }
  }

  /** A kept element appears as often as in the list, a dropped one not at all: no copy is merged or lost. */
  lemma {:induction false} FilterCount<T>(xs: seq<T>, keep: T -> bool, x: T)
    ensures multiset(Filter(xs, keep))[x] == if keep(x) then multiset(xs)[x] else 0
  {
    if xs != [] {
      FilterCount(xs[1..], keep, x);
      assert xs == [xs[0]] + xs[1..];
    }
  }

  /** The result of a filter is an order-preserving subsequence of the list. */
  lemma {:induction false} FilterIsSubsequence<T>(xs: seq<T>, keep: T -> bool)
    ensures IsSubsequence(Filter(xs, keep), xs)
  {
    if xs != [] {
      FilterIsSubsequence(xs[1..], keep);
      var rest := Filter(xs[1..], keep);
      if keep(xs[0]) {
        assert Filter(xs, keep) == [xs[0]] + rest;
        assert ([xs[0]] + rest)[1..] == rest;
      } else {
        assert Filter(xs, keep) == rest;
      }
    }
  }

  /** A weaker predicate keeps more: filtering by `p` gives a subsequence of filtering by `q`. */
  lemma {:induction false} FilterMonotone<T>(xs: seq<T>, p: T -> bool, q: T -> bool)
    requires forall x :: x in xs && p(x) ==> q(x)
    ensures IsSubsequence(Filter(xs, p), Filter(xs, q))
  {
    if xs != [] {
      FilterMonotone(xs[1..], p, q);
      var rp, rq := Filter(xs[1..], p), Filter(xs[1..], q);
      if p(xs[0]) {
        assert Filter(xs, p) == [xs[0]] + rp && Filter(xs, q) == [xs[0]] + rq;
        assert ([xs[0]] + rp)[1..] == rp && ([xs[0]] + rq)[1..] == rq;
      } else if q(xs[0]) {
        assert Filter(xs, p) == rp && Filter(xs, q) == [xs[0]] + rq;
        SubsequenceOfTail(rp, xs[0], rq);
      } else {
        assert Filter(xs, p) == rp && Filter(xs, q) == rq;
      }
    }
  }

  /** Skipping a first element keeps a subsequence a subsequence. */
  lemma SubsequenceOfTail<T>(sub: seq<T>, x: T, xs: seq<T>)
    requires IsSubsequence(sub, xs)
    ensures IsSubsequence(sub, [x] + xs)
  {
    assert ([x] + xs)[1..] == xs;
  }

  /** A predicate that holds of every element keeps the whole list. */
  lemma {:induction false} FilterKeepsAll<T>(xs: seq<T>, keep: T -> bool)
    requires forall x :: x in xs ==> keep(x)
    ensures Filter(xs, keep) == xs
  {
    if xs != [] {
      FilterKeepsAll(xs[1..], keep);
      assert xs == [xs[0]] + xs[1..];
    }
  }

  /** Filtering twice by the same predicate is filtering once. */
  lemma FilterIdempotent<T>(xs: seq<T>, keep: T -> bool)
    ensures Filter(Filter(xs, keep), keep) == Filter(xs, keep)
  {
    var r := Filter(xs, keep);
    forall x | x in r ensures keep(x) {
      FilterMembership(xs, keep, x);
    }
    FilterKeepsAll(r, keep);
  }

  /** Predicates that agree on every element of the list filter it the same way. */
  lemma {:induction false} FilterCongruent<T>(xs: seq<T>, p: T -> bool, q: T -> bool)
    requires forall x :: x in xs ==> p(x) == q(x)
    ensures Filter(xs, p) == Filter(xs, q)
  {
    if xs != [] {
      FilterCongruent(xs[1..], p, q);
    }
  }
}
