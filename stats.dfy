/** The parts of Python's `statistics` module and of `sorted`, `min` and `max`
    that the latency summary uses, over exact reals. */
module Stats {

  function Sum(s: seq<real>): real
    decreases |s|
  {
    if s == [] then 0.0 else Sum(s[..|s| - 1]) + s[|s| - 1]
  }

  /** `statistics.mean`. */
  function Mean(s: seq<real>): real
    requires |s| > 0
  {
    Sum(s) / |s| as real
  }

  /** `min(s)`: an element of `s` no larger than any other. */
  function Min(s: seq<real>): (m: real)
    requires |s| > 0
    ensures m in s
    ensures forall x :: x in s ==> m <= x
    decreases |s|
  {
    if |s| == 1 then s[0]
    else
      var rest := Min(s[1..]);
      assert forall x :: x in s ==> x == s[0] || x in s[1..];
      if s[0] <= rest then s[0] else rest
  }

  /** `max(s)`: an element of `s` no smaller than any other. */
  function Max(s: seq<real>): (m: real)
    requires |s| > 0
    ensures m in s
    ensures forall x :: x in s ==> x <= m
    decreases |s|
  {
    if |s| == 1 then s[0]
    else
      var rest := Max(s[1..]);
      assert forall x :: x in s ==> x == s[0] || x in s[1..];
      if rest <= s[0] then s[0] else rest
  }

  predicate Sorted(s: seq<real>) {
    forall i, j :: 0 <= i < j < |s| ==> s[i] <= s[j]
  }

  function Insert(x: real, s: seq<real>): (r: seq<real>)
    requires Sorted(s)
    ensures Sorted(r)
    ensures multiset(r) == multiset(s) + multiset{x}
    decreases |s|
  {
    if s == [] || x <= s[0] then [x] + s
    else
      assert s == [s[0]] + s[1..];
      var t := Insert(x, s[1..]);
      LowerBound(s[0], s[1..]);
      BoundBelowAll(s[0], x, s[1..], t);
      SortedCons(s[0], t);
      [s[0]] + t
  }

  /** A bound below `x` and below all of `s` is below every element of a
      sequence holding `s` and `x`. */
  lemma BoundBelowAll(lo: real, x: real, s: seq<real>, r: seq<real>)
    requires multiset(r) == multiset(s) + multiset{x}
    requires lo <= x && forall y :: y in s ==> lo <= y
    ensures forall y :: y in r ==> lo <= y
  {
    forall y | y in r
      ensures lo <= y
    {
      assert y in multiset(r);
      if y != x {
        assert y in multiset(s);
        assert y in s;
      }
    }
  }

  /** A value no larger than the head of a sorted sequence bounds all of it. */
  lemma LowerBound(lo: real, s: seq<real>)
    requires Sorted([lo] + s)
    ensures forall y :: y in s ==> lo <= y
  {
    forall y | y in s
      ensures lo <= y
    {
      var j :| 0 <= j < |s| && s[j] == y;
      var full := [lo] + s;
      assert full[0] == lo && full[j + 1] == y;
    }
  }

  /** A value no larger than any element of a sorted sequence may head it. */
  lemma SortedCons(lo: real, s: seq<real>)
    requires Sorted(s)
    requires forall y :: y in s ==> lo <= y
    ensures Sorted([lo] + s)
  {
    var full := [lo] + s;
    forall i, j | 0 <= i < j < |full|
      ensures full[i] <= full[j]
    {
      assert full[j] == s[j - 1] && s[j - 1] in s;
      if i > 0 {
        assert full[i] == s[i - 1];
      }
    }
  }

  /** `sorted(s)`: the ascending permutation of `s`. */
  function SortAsc(s: seq<real>): (r: seq<real>)
    ensures Sorted(r)
    ensures multiset(r) == multiset(s)
    decreases |s|
  {
    if s == [] then []
    else
      assert s == [s[0]] + s[1..];
      Insert(s[0], SortAsc(s[1..]))
  }

  lemma SortedElementIn(s: seq<real>, k: nat)
    requires k < |s|
    ensures |SortAsc(s)| == |s|
    ensures SortAsc(s)[k] in s
  {
    var t := SortAsc(s);
    assert |t| == |multiset(t)| == |multiset(s)| == |s|;
    assert t[k] in multiset(t);
    assert t[k] in multiset(s);
  }

  /** `statistics.median`: the middle of the sorted values, or the average of
      the two middle ones when their number is even. */
  function Median(s: seq<real>): real
    requires |s| > 0
  {
    var t := SortAsc(s);
    assert |t| == |multiset(t)| == |s|;
    Middle(t)
  }

  /** The middle element of `t`, or the average of its two middle elements. */
  function Middle(t: seq<real>): real
    requires |t| > 0
  {
    var n := |t|;
    if n % 2 == 1 then t[n / 2] else (t[n / 2 - 1] + t[n / 2]) / 2.0
  }

  lemma MiddleWithin(t: seq<real>, lo: real, hi: real)
    requires |t| > 0
    requires forall i :: 0 <= i < |t| ==> lo <= t[i] <= hi
    ensures lo <= Middle(t) <= hi
  {
    var n := |t|;
    assert lo <= t[n / 2] <= hi;
    if n % 2 == 0 {
      assert lo <= t[n / 2 - 1] <= hi;
    }
  }

  /** The median of values that lie within bounds lies within them too. */
  lemma MedianWithin(s: seq<real>, lo: real, hi: real)
    requires |s| > 0
    requires forall x :: x in s ==> lo <= x <= hi
    ensures lo <= Median(s) <= hi
  {
    var t := SortAsc(s);
    assert |t| == |multiset(t)| == |s|;
    forall i | 0 <= i < |t| ensures lo <= t[i] <= hi {
      assert t[i] in multiset(t);
      assert t[i] in s;
    }
    MiddleWithin(t, lo, hi);
  }

  lemma MedianBounds(s: seq<real>)
    requires |s| > 0
    ensures Min(s) <= Median(s) <= Max(s)
  {
    MedianWithin(s, Min(s), Max(s));
  }

  lemma {:induction false} SumBounds(s: seq<real>, lo: real, hi: real)
    requires forall x :: x in s ==> lo <= x <= hi
    ensures |s| as real * lo <= Sum(s) <= |s| as real * hi
    decreases |s|
  {
    if s != [] {
      var init := s[..|s| - 1];
      assert forall x :: x in init ==> x in s;
      SumBounds(init, lo, hi);
      assert s[|s| - 1] in s;
    }
  }

  lemma QuotientBounds(total: real, n: real, lo: real, hi: real)
    requires n > 0.0
    requires n * lo <= total <= n * hi
    ensures lo <= total / n <= hi
  {
    assert (total / n) * n == total;
  }

  /** The mean of values that lie within bounds lies within them too. */
  lemma MeanWithin(s: seq<real>, lo: real, hi: real)
    requires |s| > 0
    requires forall x :: x in s ==> lo <= x <= hi
    ensures lo <= Mean(s) <= hi
  {
    SumBounds(s, lo, hi);
    QuotientBounds(Sum(s), |s| as real, lo, hi);
  }

  /** The mean of a sample lies between its minimum and its maximum. */
  lemma MeanBounds(s: seq<real>)
    requires |s| > 0
    ensures Min(s) <= Mean(s) <= Max(s)
  {
    MeanWithin(s, Min(s), Max(s));
  }

  lemma {:induction false} SumConstant(s: seq<real>, c: real)
    requires forall i :: 0 <= i < |s| ==> s[i] == c
    ensures Sum(s) == |s| as real * c
    decreases |s|
  {
    if s != [] {
      SumConstant(s[..|s| - 1], c);
    }
  }

  /** The mean of a constant sample is that constant. */
  lemma MeanConstant(s: seq<real>, c: real)
    requires |s| > 0
    requires forall i :: 0 <= i < |s| ==> s[i] == c
    ensures Mean(s) == c
  {
    SumConstant(s, c);
  }

  lemma {:induction false} SumAppend(a: seq<real>, b: seq<real>)
    ensures Sum(a + b) == Sum(a) + Sum(b)
    decreases |b|
  {
    if b != [] {
      assert a + b == (a + b[..|b| - 1]) + [b[|b| - 1]];
      assert (a + b)[..|a + b| - 1] == a + b[..|b| - 1];
      SumAppend(a, b[..|b| - 1]);
    } else {
      assert a + b == a;
    }
  }

  function SquaredDeviations(s: seq<real>, m: real): real
    decreases |s|
  {
    if s == [] then 0.0 else SquaredDeviations(s[..|s| - 1], m) + (s[|s| - 1] - m) * (s[|s| - 1] - m)
  }

  /** The sample variance (denominator n - 1) that `statistics.stdev` takes the
      square root of. */
  function SampleVariance(s: seq<real>): real
    requires |s| > 1
  {
    SquaredDeviations(s, Mean(s)) / (|s| - 1) as real
  }

  /** The index `int(len(s) * 0.95)` of the 95th percentile, in exact arithmetic. */
  function P95Index(n: nat): (k: nat)
    requires n > 0
    ensures k < n
  {
    (95 * n) / 100
  }
}
