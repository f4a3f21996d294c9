/**
 * Polynomial (coefficient) convolution: the coefficients of the product of
 * two polynomials, as used to cascade two filter stages.
 */
module Convolution {
  import opened FilterSpec

  /** First index of f that contributes to output i: max(0, i - (|g| - 1)). */
  function Lo(i: int, ng: int): (lo: int) {
    if i >= ng - 1 then i - (ng - 1) else 0
  }

  /** Last index of f that contributes to output i: min(i, |f| - 1). */
  function Hi(i: int, nf: int): (hi: int) {
    if i < nf - 1 then i else nf - 1
  }

  /** sum_{j < k} f[j] * g[i - j], with g taken as zero outside its indices. */
  function Sum(f: seq<real>, g: seq<real>, i: int, k: nat): (s: real)
    requires k <= |f|
  {
    if k == 0 then 0.0 else Sum(f, g, i, k - 1) + f[k - 1] * At(g, i - (k - 1))
  }

  /** The product polynomial's coefficients: output i is the full sum over f. */
  function Convolve(f: seq<real>, g: seq<real>): (out: seq<real>)
    requires |f| + |g| >= 1
    ensures |out| == |f| + |g| - 1
    ensures forall i :: 0 <= i < |out| ==> out[i] == Sum(f, g, i, |f|)
  {
    seq(|f| + |g| - 1, i => Sum(f, g, i, |f|))
  }

  /**
   * sum_{lo <= j < hi} f[j] * g[i - j], accumulated upwards from lo as the
   * source's inner loop does.
   */
  function Range(f: seq<real>, g: seq<real>, i: int, lo: int, hi: int): (s: real)
    requires 0 <= lo <= hi <= |f|
    requires lo >= i - |g| + 1 && hi <= i + 1
    decreases hi - lo
  {
    if lo == hi then 0.0 else Range(f, g, i, lo, hi - 1) + f[hi - 1] * g[i - (hi - 1)]
  }

  /** The window [Lo, Hi] of output i stays inside both f and g. */
  lemma WindowInBounds(nf: nat, ng: nat, i: int)
    requires 0 <= i < nf + ng - 1
    ensures 0 <= Lo(i, ng) && Hi(i, nf) < nf
    ensures Lo(i, ng) <= Hi(i, nf) + 1
    ensures Lo(i, ng) >= i - ng + 1 && Hi(i, nf) <= i
  {
  }

  /** Below the window every term of the full sum is zero: g has no entry there. */
  lemma {:induction false} SumBelowWindow(f: seq<real>, g: seq<real>, i: int, k: nat)
    requires k <= |f| && (k == 0 || k <= i - |g| + 1)
    ensures Sum(f, g, i, k) == 0.0
  {
    if k > 0 {
      SumBelowWindow(f, g, i, k - 1);
    }
  }

  /** Inside the window the full sum is the windowed sum. */
  lemma {:induction false} SumInWindow(f: seq<real>, g: seq<real>, i: int, lo: nat, k: nat)
    requires lo <= k <= |f| && lo >= i - |g| + 1 && k <= i + 1
    requires Sum(f, g, i, lo) == 0.0
    ensures Sum(f, g, i, k) == Range(f, g, i, lo, k)
    decreases k - lo
  {
    if k > lo {
      SumInWindow(f, g, i, lo, k - 1);
    }
  }

  /** Above the window every term is zero again: g has no entry at a negative index. */
  lemma {:induction false} SumAboveWindow(f: seq<real>, g: seq<real>, i: int, hi: nat, k: nat)
    requires hi <= k <= |f| && (k == hi || hi >= i + 1)
    ensures Sum(f, g, i, k) == Sum(f, g, i, hi)
    decreases k - hi
  {
    if k > hi {
      SumAboveWindow(f, g, i, hi, k - 1);
    }
  }

  /**
   * The source's bounds jmn..jmx select exactly the terms that can be
   * non-zero: the windowed sum equals output i of the convolution.
   */
  lemma WindowedSumIsConvolution(f: seq<real>, g: seq<real>, i: int)
    requires 0 <= i < |f| + |g| - 1
    ensures Range(f, g, i, Lo(i, |g|), Hi(i, |f|) + 1) == Convolve(f, g)[i]
  {
    var lo, hi := Lo(i, |g|), Hi(i, |f|) + 1;
    WindowInBounds(|f|, |g|, i);
    SumBelowWindow(f, g, i, lo);
    SumInWindow(f, g, i, lo, hi);
    SumAboveWindow(f, g, i, hi, |f|);
    assert Convolve(f, g)[i] == Sum(f, g, i, |f|);
  }

  /** The one-coefficient polynomial 1 is a right identity. */
  lemma ConvolveRightIdentity(f: seq<real>)
    requires |f| >= 1
    ensures Convolve(f, [1.0]) == f
  {
    forall i | 0 <= i < |f|
      ensures Convolve(f, [1.0])[i] == f[i]
    {
      SumBelowWindow(f, [1.0], i, i);
      SumAboveWindow(f, [1.0], i, i + 1, |f|);
    }
  }

  /** The one-coefficient polynomial 1 is a left identity. */
  lemma ConvolveLeftIdentity(g: seq<real>)
    requires |g| >= 1
    ensures Convolve([1.0], g) == g
  {
    forall i | 0 <= i < |g|
      ensures Convolve([1.0], g)[i] == g[i]
    {
      assert Sum([1.0], g, i, 1) == Sum([1.0], g, i, 0) + 1.0 * At(g, i);
    }
  }

  /** Convolving a coefficient set with itself gives 2n - 1 coefficients: 3 taps become 5. */
  lemma SelfConvolutionLength(f: seq<real>)
    requires |f| == 3
    ensures |Convolve(f, f)| == 5
  {
  }

  /**
   * The source's nested loops: for each output index, accumulate
   * f[j] * g[i - j] over j in [jmn, jmx] into a zero-initialised vector.
   */
  method ConvolveCoefficients(f: seq<real>, g: seq<real>) returns (out: seq<real>)
    requires |f| + |g| >= 1
    ensures out == Convolve(f, g)
  {
    var nf := |f|;
    var ng := |g|;
    var n := nf + ng - 1;
    var acc := new real[n](_ => 0.0);
    var i := 0;
    while i < n
      invariant 0 <= i <= n
      invariant forall k :: 0 <= k < i ==> acc[k] == Convolve(f, g)[k]
      invariant forall k :: i <= k < n ==> acc[k] == 0.0
    {
      var jmn := if i >= ng - 1 then i - (ng - 1) else 0;
      var jmx := if i < nf - 1 then i else nf - 1;
      WindowInBounds(nf, ng, i);
      var j := jmn;
      while j <= jmx
        invariant jmn <= j <= jmx + 1
        invariant acc[i] == Range(f, g, i, jmn, j)
        invariant forall k :: 0 <= k < i ==> acc[k] == Convolve(f, g)[k]
        invariant forall k :: i < k < n ==> acc[k] == 0.0
      {
        acc[i] := acc[i] + f[j] * g[i - j];
        j := j + 1;
      }
      WindowedSumIsConvolution(f, g, i);
      i := i + 1;
    }
    out := acc[..];
  }
}
