/**
 * The two list operations the pages are built from: `reduce` summing a
 * number per element (`list.reduce((sum, x) => sum + f(x), 0)`) and
 * `filter`. Both recurse on the last element, the order in which
 * `reduce` and `forEach` visit a list, so that a loop over a prefix can
 * keep the sum of that prefix as its invariant.
 */
module Folds {

  /** `s.reduce((sum, x) => sum + f(x), 0)`. */
  function SumOf<T>(s: seq<T>, f: T -> real): real
    decreases |s|
  {
    if |s| == 0 then 0.0 else SumOf(s[..|s| - 1], f) + f(s[|s| - 1])
  }

  /** `s.filter(p)`: the elements satisfying `p`, in order. */
  function Filter<T(!new)>(s: seq<T>, p: T -> bool): (r: seq<T>)
    ensures |r| <= |s|
    ensures forall x :: x in r <==> x in s && p(x)
    decreases |s|
  {
    if |s| == 0 then [] else Filter(s[..|s| - 1], p) + (if p(s[|s| - 1]) then [s[|s| - 1]] else [])
  }

  /** One more element adds its own term: the step a summing loop takes. */
  lemma SumOfSnoc<T>(s: seq<T>, x: T, f: T -> real)
    ensures SumOf(s + [x], f) == SumOf(s, f) + f(x)
  {
    assert (s + [x])[..|s|] == s;
  }

  /** One more element is kept exactly when it satisfies the predicate: the step a filtering loop takes. */
  lemma FilterSnoc<T(!new)>(s: seq<T>, x: T, p: T -> bool)
    ensures Filter(s + [x], p) == Filter(s, p) + (if p(x) then [x] else [])
  {
    assert (s + [x])[..|s|] == s;
  }

  /** Nothing passes the predicate: the filter is empty. */
  lemma {:induction false} FilterNone<T(!new)>(s: seq<T>, p: T -> bool)
    requires forall x :: x in s ==> !p(x)
    ensures Filter(s, p) == []
    decreases |s|
  {
    if |s| > 0 {
      FilterNone(s[..|s| - 1], p);
    }
  }

  /** Summing is additive over concatenation. */
  lemma {:induction false} SumOfAppend<T>(a: seq<T>, b: seq<T>, f: T -> real)
    ensures SumOf(a + b, f) == SumOf(a, f) + SumOf(b, f)
    decreases |b|
  {
    if |b| == 0 {
      assert a + b == a;
    } else {
      var b' := b[..|b| - 1];
      assert a + b == (a + b') + [b[|b| - 1]];
      SumOfSnoc(a + b', b[|b| - 1], f);
      SumOfAppend(a, b', f);
      assert b == b' + [b[|b| - 1]];
      SumOfSnoc(b', b[|b| - 1], f);
    }
  }

  /** Sums of two functions that agree on every element are equal. */
  lemma {:induction false} SumOfCongruent<T>(s: seq<T>, f: T -> real, g: T -> real)
    requires forall x :: x in s ==> f(x) == g(x)
    ensures SumOf(s, f) == SumOf(s, g)
    decreases |s|
  {
    if |s| > 0 {
      SumOfCongruent(s[..|s| - 1], f, g);
    }
  }

  /** A per-element split of the summand splits the sum. */
  lemma {:induction false} SumOfSplit<T>(s: seq<T>, f: T -> real, g: T -> real, h: T -> real)
    requires forall x :: x in s ==> f(x) == g(x) + h(x)
    ensures SumOf(s, f) == SumOf(s, g) + SumOf(s, h)
    decreases |s|
  {
    if |s| > 0 {
      SumOfSplit(s[..|s| - 1], f, g, h);
    }
  }

  /** Elements that contribute nothing leave the sum at 0. */
  lemma {:induction false} SumOfZero<T>(s: seq<T>, f: T -> real)
    requires forall x :: x in s ==> f(x) == 0.0
    ensures SumOf(s, f) == 0.0
    decreases |s|
  {
    if |s| > 0 {
      SumOfZero(s[..|s| - 1], f);
    }
  }

  /** A sum of non-negative terms is non-negative. */
  lemma {:induction false} SumOfNonNegative<T>(s: seq<T>, f: T -> real)
    requires forall x :: x in s ==> f(x) >= 0.0
    ensures SumOf(s, f) >= 0.0
    decreases |s|
  {
    if |s| > 0 {
      SumOfNonNegative(s[..|s| - 1], f);
    }
  }

  /** Replacing one element changes the sum by the difference of its terms. */
  lemma {:induction false} SumOfUpdate<T>(s: seq<T>, k: int, x: T, f: T -> real)
    requires 0 <= k < |s|
    ensures SumOf(s[k := x], f) == SumOf(s, f) - f(s[k]) + f(x)
    decreases |s|
  {
    var n := |s| - 1;
    if k == n {
      assert s[k := x][..n] == s[..n];
    } else {
      assert s[k := x][..n] == s[..n][k := x];
      SumOfUpdate(s[..n], k, x, f);
    }
  }

  /** `f(x) * pct(x) / 100`: the `pct(x)` percent of `f(x)`. */
  function Percent<T>(f: T -> real, pct: T -> real): T -> real {
    (x: T) => f(x) * pct(x) / 100.0
  }

  /** When every element has the same percentage `p`, the sum of the percents is `p` percent of the sum. */
  lemma {:induction false} SumOfCommonPercent<T>(s: seq<T>, f: T -> real, pct: T -> real, p: real)
    requires forall x :: x in s ==> pct(x) == p
    ensures SumOf(s, Percent(f, pct)) == SumOf(s, f) * p / 100.0
    decreases |s|
  {
    if |s| > 0 {
      var s', x := s[..|s| - 1], s[|s| - 1];
      assert forall y :: y in s' ==> y in s;
      SumOfCommonPercent(s', f, pct, p);
      assert Percent(f, pct)(x) == f(x) * p / 100.0;
      PercentDistributes(SumOf(s', f), f(x), p);
    }
  }

  lemma PercentDistributes(a: real, b: real, p: real)
    ensures (a + b) * p / 100.0 == a * p / 100.0 + b * p / 100.0
  {
  }

  /** Summing a filtered list is summing the whole list with the rejected elements counted as 0. */
  lemma {:induction false} SumOfFilter<T(!new)>(s: seq<T>, p: T -> bool, f: T -> real, g: T -> real)
    requires forall x :: x in s ==> g(x) == (if p(x) then f(x) else 0.0)
    ensures SumOf(Filter(s, p), f) == SumOf(s, g)
    decreases |s|
  {
    if |s| > 0 {
      var s', x := s[..|s| - 1], s[|s| - 1];
      SumOfFilter(s', p, f, g);
      if p(x) {
        SumOfSnoc(Filter(s', p), x, f);
      } else {
        assert Filter(s, p) == Filter(s', p);
      }
    }
  }

  /** What `q` keeps and `p` drops. */
  function Without<T>(q: T -> bool, p: T -> bool): T -> bool {
    (x: T) => q(x) && !p(x)
  }

  /**
   * A narrower filter inside a wider one: the wider sum is the narrower
   * sum plus the sum over the elements only the wider filter keeps.
   */
  lemma SumOfNestedFilter<T(!new)>(s: seq<T>, p: T -> bool, q: T -> bool, f: T -> real)
    requires forall x :: x in s ==> p(x) ==> q(x)
    ensures SumOf(Filter(s, q), f) == SumOf(Filter(s, p), f) + SumOf(Filter(s, Without(q, p)), f)
  {
    var d := Without(q, p);
    var gq := (x: T) => if q(x) then f(x) else 0.0;
    var gp := (x: T) => if p(x) then f(x) else 0.0;
    var gd := (x: T) => if d(x) then f(x) else 0.0;
    SumOfFilter(s, q, f, gq);
    SumOfFilter(s, p, f, gp);
    SumOfFilter(s, d, f, gd);
    SumOfSplit(s, gq, gp, gd);
  }
}
