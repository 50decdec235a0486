/** The ways a simulation can fail. Each stands for the exception Python raises
    at that point, except `NonFiniteKernel`, which stands for the NaN/Inf
    intensities NumPy returns when it normalises by a zero sum. */
module SimErrors {

  datatype SimError =
    | EmptyOperand       // the convolution rejects an empty operand
    | NonFiniteKernel    // the photoemission intensities sum to zero
    | InvalidRate        // a Poisson rate is negative or not finite
    | MissingAxisPoint   // an axis is too short for the points it is indexed at
    | ZeroStep           // the kinetic-energy axis would have step zero
}

/** Discrete linear convolution in "valid" mode, as `scipy.signal.convolve`
    computes it on the direct path: the operands are swapped so the first is
    the longer, and the result is the sliding dot product of the longer operand
    with the reversed shorter one, kept only where the two overlap fully. */
module Convolution {
  import opened Sums
  import opened Results
  import opened SimErrors

  function Max(a: int, b: int): int { if a >= b then a else b }

  function Min(a: int, b: int): int { if a <= b then a else b }

  /** One term `a[i] * b[n - i]` of the full convolution, zero where either index
      falls into the zero padding. */
  function FullTerm(a: seq<real>, b: seq<real>, n: int, i: int): real
  {
    if 0 <= i < |a| && 0 <= n - i < |b| then a[i] * b[n - i] else 0.0
  }

  function FullTerms(a: seq<real>, b: seq<real>, n: int): int -> real
  {
    i => FullTerm(a, b, n, i)
  }

  /** Entry `n` of the full (zero-padded) convolution: the sum over `i` of
      `a[i] * b[n - i]`. This is the reference definition. */
  function FullConvolutionAt(a: seq<real>, b: seq<real>, n: int): real
  {
    RangeSum(FullTerms(a, b, n), 0, |a|)
  }

  /** The full convolution does not depend on the order of its operands. */
  lemma FullConvolutionCommutes(a: seq<real>, b: seq<real>, n: int)
    ensures FullConvolutionAt(a, b, n) == FullConvolutionAt(b, a, n)
  {
    var f := FullTerms(a, b, n);
    var g := FullTerms(b, a, n);
    var lo := Min(0, n - |b| + 1);
    var hi := Max(|a|, n + 1);
    RangeSumWiden(f, lo, 0, |a|, hi);
    RangeSumReflect(f, g, lo, hi, n);
    RangeSumWiden(g, n - hi + 1, 0, |b|, n - lo + 1);
  }

  function Reverse(s: seq<real>): (r: seq<real>)
    ensures |r| == |s|
    ensures forall i :: 0 <= i < |s| ==> r[i] == s[|s| - 1 - i]
  {
    seq(|s|, i requires 0 <= i < |s| => s[|s| - 1 - i])
  }

  function CorrelationTerms(long: seq<real>, v: seq<real>, k: int): int -> real
  {
    j => if 0 <= j < |v| && 0 <= k + j < |long| then long[k + j] * v[j] else 0.0
  }

  /** The dot product of `v` with the window of `long` that starts at `k`. */
  function CorrelateAt(long: seq<real>, v: seq<real>, k: int): real
  {
    RangeSum(CorrelationTerms(long, v, k), 0, |v|)
  }

  /** `ValidConvolve(a, b)`: the valid-mode convolution; an empty operand is
      rejected, as NumPy's convolution rejects it. */
  function ValidConvolve(a: seq<real>, b: seq<real>): (r: Result<seq<real>, SimError>)
    ensures r.Failure? <==> |a| == 0 || |b| == 0
    ensures r.Failure? ==> r.error == EmptyOperand
    ensures r.Success? ==> |r.value| == Max(|a|, |b|) - Min(|a|, |b|) + 1
  {
    if |a| == 0 || |b| == 0 then Failure(EmptyOperand)
    else
      var (long, short) := if |a| >= |b| then (a, b) else (b, a);
      var kernel := Reverse(short);
      Success(seq(|long| - |short| + 1, k => CorrelateAt(long, kernel, k)))
  }

  /** Correlating with the reversed short operand is the full convolution at the
      matching index. */
  lemma CorrelateReversedIsFull(long: seq<real>, short: seq<real>, k: int)
    requires 0 < |short| <= |long|
    requires 0 <= k <= |long| - |short|
    ensures CorrelateAt(long, Reverse(short), k) == FullConvolutionAt(short, long, k + |short| - 1)
  {
    var m := |short|;
    var f := FullTerms(short, long, k + m - 1);
    var g := CorrelationTerms(long, Reverse(short), k);
    forall j | 0 <= j <= m - 1
      ensures g(j) == f(m - 1 - j)
    {
      assert g(j) == long[k + j] * short[m - 1 - j];
      assert f(m - 1 - j) == short[m - 1 - j] * long[k + j];
    }
    RangeSumReflect(f, g, 0, m, m - 1);
  }

  /** Entry `k` of the valid convolution is entry `k + min(|a|, |b|) - 1` of the
      full convolution: the valid part is the full one with the partially
      overlapping ends cut off. */
  lemma ValidIsFullOverlap(a: seq<real>, b: seq<real>, k: int)
    requires |a| > 0 && |b| > 0
    requires 0 <= k <= Max(|a|, |b|) - Min(|a|, |b|)
    ensures ValidConvolve(a, b).value[k] == FullConvolutionAt(a, b, k + Min(|a|, |b|) - 1)
  {
    if |a| >= |b| {
      CorrelateReversedIsFull(a, b, k);
      FullConvolutionCommutes(b, a, k + |b| - 1);
    } else {
      CorrelateReversedIsFull(b, a, k);
    }
  }

  /** Swapping the operands gives the same valid convolution. */
  lemma ValidConvolveCommutes(a: seq<real>, b: seq<real>)
    ensures ValidConvolve(a, b) == ValidConvolve(b, a)
  {
    if |a| > 0 && |b| > 0 {
      var r := ValidConvolve(a, b).value;
      var s := ValidConvolve(b, a).value;
      forall k | 0 <= k < |r|
        ensures r[k] == s[k]
      {
        ValidIsFullOverlap(a, b, k);
        ValidIsFullOverlap(b, a, k);
        FullConvolutionCommutes(a, b, k + Min(|a|, |b|) - 1);
      }
      assert r == s;
    }
  }

  /** Non-negative operands give a non-negative convolution. */
  lemma ValidConvolveNonNegative(a: seq<real>, b: seq<real>)
    requires forall i :: 0 <= i < |a| ==> a[i] >= 0.0
    requires forall i :: 0 <= i < |b| ==> b[i] >= 0.0
    ensures ValidConvolve(a, b).Success? ==>
              forall k :: 0 <= k < |ValidConvolve(a, b).value| ==> ValidConvolve(a, b).value[k] >= 0.0
  {
    if |a| > 0 && |b| > 0 {
      var (long, short) := if |a| >= |b| then (a, b) else (b, a);
      forall k | 0 <= k <= |long| - |short|
        ensures CorrelateAt(long, Reverse(short), k) >= 0.0
      {
        RangeSumNonNegative(CorrelationTerms(long, Reverse(short), k), 0, |short|);
      }
    }
  }
}
