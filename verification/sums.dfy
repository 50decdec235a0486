/** Exact sums of reals: over a sequence (`np.sum`), and over an integer range
    of a function (the index sums that define convolution). */
module Sums {

  /** The sum of a sequence, taken from the front. */
  function Sum(s: seq<real>): real
    decreases |s|
  {
    if |s| == 0 then 0.0 else s[0] + Sum(s[1..])
  }

  lemma {:induction false} SumAppend(a: seq<real>, b: seq<real>)
    ensures Sum(a + b) == Sum(a) + Sum(b)
    decreases |a|
  {
    if |a| == 0 {
      assert a + b == b;
    } else {
      assert (a + b)[1..] == a[1..] + b;
      SumAppend(a[1..], b);
    }
  }

  /** Peels the last element instead of the first. */
  lemma SumLast(s: seq<real>)
    requires |s| > 0
    ensures Sum(s) == Sum(s[..|s| - 1]) + s[|s| - 1]
  {
    assert s == s[..|s| - 1] + [s[|s| - 1]];
    SumAppend(s[..|s| - 1], [s[|s| - 1]]);
  }

  /** Multiplying every element by `c` multiplies the sum by `c`. */
  lemma {:induction false} SumScaled(s: seq<real>, t: seq<real>, c: real)
    requires |t| == |s|
    requires forall i :: 0 <= i < |s| ==> t[i] == s[i] * c
    ensures Sum(t) == Sum(s) * c
    decreases |s|
  {
    if |s| > 0 {
      SumScaled(s[1..], t[1..], c);
    }
  }

  /** A reversed sequence has the same sum. */
  lemma {:induction false} SumReversed(s: seq<real>, t: seq<real>)
    requires |t| == |s|
    requires forall i :: 0 <= i < |s| ==> t[i] == s[|s| - 1 - i]
    ensures Sum(t) == Sum(s)
    decreases |s|
  {
    if |s| > 0 {
      var n := |s|;
      SumLast(t);
      SumReversed(s[1..], t[..n - 1]);
    }
  }

  lemma {:induction false} SumNonNegative(s: seq<real>)
    requires forall i :: 0 <= i < |s| ==> s[i] >= 0.0
    ensures Sum(s) >= 0.0
    decreases |s|
  {
    if |s| > 0 {
      SumNonNegative(s[1..]);
    }
  }

  /** The sum of `f(lo), ..., f(hi - 1)`; zero for an empty range. */
  function RangeSum(f: int -> real, lo: int, hi: int): real
    decreases hi - lo
  {
    if lo >= hi then 0.0 else f(lo) + RangeSum(f, lo + 1, hi)
  }

  lemma {:induction false} RangeSumSplit(f: int -> real, lo: int, mid: int, hi: int)
    requires lo <= mid <= hi
    ensures RangeSum(f, lo, hi) == RangeSum(f, lo, mid) + RangeSum(f, mid, hi)
    decreases mid - lo
  {
    if lo < mid {
      RangeSumSplit(f, lo + 1, mid, hi);
    }
  }

  lemma {:induction false} RangeSumZero(f: int -> real, lo: int, hi: int)
    requires forall i :: lo <= i < hi ==> f(i) == 0.0
    ensures RangeSum(f, lo, hi) == 0.0
    decreases hi - lo
  {
    if lo < hi {
      RangeSumZero(f, lo + 1, hi);
    }
  }

  /** Widening the range by indices where `f` is zero leaves the sum alone. */
  lemma RangeSumWiden(f: int -> real, lo': int, lo: int, hi: int, hi': int)
    requires lo' <= lo <= hi <= hi'
    requires forall i :: lo' <= i < lo ==> f(i) == 0.0
    requires forall i :: hi <= i < hi' ==> f(i) == 0.0
    ensures RangeSum(f, lo', hi') == RangeSum(f, lo, hi)
  {
    RangeSumSplit(f, lo', lo, hi');
    RangeSumSplit(f, lo, hi, hi');
    RangeSumZero(f, lo', lo);
    RangeSumZero(f, hi, hi');
  }

  /** Summing `f` over `[lo, hi)` equals summing `g(j) == f(n - j)` over the
      mirrored range `[n - hi + 1, n - lo + 1)`. */
  lemma {:induction false} RangeSumReflect(f: int -> real, g: int -> real, lo: int, hi: int, n: int)
    requires forall j :: n - hi + 1 <= j <= n - lo ==> g(j) == f(n - j)
    ensures RangeSum(f, lo, hi) == RangeSum(g, n - hi + 1, n - lo + 1)
    decreases hi - lo
  {
    if lo < hi {
      RangeSumReflect(f, g, lo + 1, hi, n);
      RangeSumSplit(g, n - hi + 1, n - lo, n - lo + 1);
      assert RangeSum(g, n - lo, n - lo + 1) == g(n - lo);
    }
  }

  lemma {:induction false} RangeSumNonNegative(f: int -> real, lo: int, hi: int)
    requires forall i :: lo <= i < hi ==> f(i) >= 0.0
    ensures RangeSum(f, lo, hi) >= 0.0
    decreases hi - lo
  {
    if lo < hi {
      RangeSumNonNegative(f, lo + 1, hi);
    }
  }
}
