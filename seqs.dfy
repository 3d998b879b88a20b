/** Sequence helpers shared by the list operations of the back-office pages:
    JavaScript's `Array.prototype.filter`, order-preserving subsequences, and the
    first-occurrence order in which a `Set` (or an object's keys) remembers values. */
module Seqs {

  /** `a` can be obtained from `b` by deleting elements, keeping the order of the rest. */
  ghost predicate SubsequenceOf<T>(a: seq<T>, b: seq<T>)
    decreases |b|
  {
    if |b| == 0 then |a| == 0
    else (|a| > 0 && a[0] == b[0] && SubsequenceOf(a[1..], b[1..])) || SubsequenceOf(a, b[1..])
  }

  ghost predicate Distinct<T>(xs: seq<T>) {
    forall i, j :: 0 <= i < j < |xs| ==> xs[i] != xs[j]
  }

  /** `xs.filter(keep)`: the elements that satisfy `keep`, in their original order. */
  function Filter<T(!new)>(keep: T -> bool, xs: seq<T>): (r: seq<T>)
    ensures |r| <= |xs|
    ensures forall x :: x in r <==> x in xs && keep(x)
  {
    if |xs| == 0 then []
    else if keep(xs[0]) then [xs[0]] + Filter(keep, xs[1..])
    else Filter(keep, xs[1..])
  }

  lemma {:induction false} FilterIsSubsequence<T(!new)>(keep: T -> bool, xs: seq<T>)
    ensures SubsequenceOf(Filter(keep, xs), xs)
  {
    if |xs| > 0 {
      FilterIsSubsequence(keep, xs[1..]);
      var rest := Filter(keep, xs[1..]);
      if keep(xs[0]) {
        assert ([xs[0]] + rest)[1..] == rest;
      }
    }
  }

  /** Filtering keeps every kept value as often as it occurs and drops the others entirely. */
  lemma {:induction false} FilterCounts<T(!new)>(keep: T -> bool, xs: seq<T>)
    ensures forall x :: multiset(Filter(keep, xs))[x] == if keep(x) then multiset(xs)[x] else 0
  {
    if |xs| > 0 {
      assert xs == [xs[0]] + xs[1..];
      FilterCounts(keep, xs[1..]);
    }
  }

  /** `xs.filter(y => y !== x)`: every occurrence of `x` dropped, every other value kept as often
      as it occurs and in its original order, so the list shrinks by the number of occurrences. */
  function Remove<T(==,!new)>(xs: seq<T>, x: T): (r: seq<T>)
    ensures forall y :: y in r <==> y in xs && y != x
    ensures forall y :: multiset(r)[y] == if y != x then multiset(xs)[y] else 0
    ensures |r| == |xs| - multiset(xs)[x]
    ensures SubsequenceOf(r, xs)
  {
    FilterCounts(NotEqualTo(x), xs);
    FilterIsSubsequence(NotEqualTo(x), xs);
    FilterWithoutLength(NotEqualTo(x), xs, x);
    Filter(NotEqualTo(x), xs)
  }

  /** The test `y => y !== x`. */
  function NotEqualTo<T(==)>(x: T): T -> bool {
    y => y != x
  }

  lemma {:induction false} FilterWithoutLength<T(!new)>(keep: T -> bool, xs: seq<T>, x: T)
    requires forall y :: keep(y) <==> y != x
    ensures |Filter(keep, xs)| == |xs| - multiset(xs)[x]
  {
    if |xs| > 0 {
      assert xs == [xs[0]] + xs[1..];
      FilterWithoutLength(keep, xs[1..], x);
    }
  }

  /** Filtering is the identity when every element is kept. */
  lemma {:induction false} FilterKeepsAll<T(!new)>(keep: T -> bool, xs: seq<T>)
    requires forall x :: x in xs ==> keep(x)
    ensures Filter(keep, xs) == xs
  {
    if |xs| > 0 {
      assert xs[0] in xs;
      forall x | x in xs[1..] ensures keep(x) { assert x in xs; }
      FilterKeepsAll(keep, xs[1..]);
      assert [xs[0]] + xs[1..] == xs;
    }
  }

  /** Filtering twice with the same predicate is filtering once. */
  lemma FilterIdempotent<T(!new)>(keep: T -> bool, xs: seq<T>)
    ensures Filter(keep, Filter(keep, xs)) == Filter(keep, xs)
  {
    FilterKeepsAll(keep, Filter(keep, xs));
  }

  lemma {:induction false} FilterAppend<T(!new)>(keep: T -> bool, xs: seq<T>, ys: seq<T>)
    ensures Filter(keep, xs + ys) == Filter(keep, xs) + Filter(keep, ys)
  {
    if |xs| == 0 {
      assert xs + ys == ys;
    } else {
      assert (xs + ys)[0] == xs[0];
      assert (xs + ys)[1..] == xs[1..] + ys;
      FilterAppend(keep, xs[1..], ys);
    }
  }

  /** `xs.includes(x)`, scanning from the left. */
  function Includes<T(==)>(xs: seq<T>, x: T): (r: bool)
    ensures r <==> x in xs
  {
    if |xs| == 0 then false else xs[0] == x || Includes(xs[1..], x)
  }

  /** `xs.some(test)`, scanning from the left. */
  function Any<T(!new)>(test: T -> bool, xs: seq<T>): (r: bool)
    ensures r <==> exists x :: x in xs && test(x)
  {
    if |xs| == 0 then false
    else test(xs[0]) || (assert forall x :: x in xs[1..] ==> x in xs; Any(test, xs[1..]))
  }

  /** `xs.every(test)`, scanning from the left. */
  function All<T(!new)>(test: T -> bool, xs: seq<T>): (r: bool)
    ensures r <==> forall x :: x in xs ==> test(x)
  {
    if |xs| == 0 then true
    else test(xs[0]) && (assert forall x :: x in xs[1..] ==> x in xs; All(test, xs[1..]))
  }

  /** The distinct elements of `xs` in the order of their first occurrence, which is the
      order in which a JavaScript `Set` or a plain object's string keys enumerate them. */
  function FirstOccurrences<T(==,!new)>(xs: seq<T>): (r: seq<T>)
    ensures Distinct(r)
    ensures forall x :: x in r <==> x in xs
  {
    if |xs| == 0 then []
    else
      var init := FirstOccurrences(xs[..|xs| - 1]);
      assert forall x :: x in xs <==> x in xs[..|xs| - 1] || x == xs[|xs| - 1] by {
        assert xs == xs[..|xs| - 1] + [xs[|xs| - 1]];
      }
      if xs[|xs| - 1] in init then init else init + [xs[|xs| - 1]]
  }

  /** Appending one element adds it at the end of the first occurrences unless it was seen before. */
  lemma FirstOccurrencesSnoc<T(!new)>(xs: seq<T>, x: T)
    ensures FirstOccurrences(xs + [x]) == if x in FirstOccurrences(xs) then FirstOccurrences(xs) else FirstOccurrences(xs) + [x]
  {
    assert (xs + [x])[..|xs|] == xs;
  }
}
