/**
 * The direct-form-I difference equation that a crossover stage computes,
 * stated over the whole input history from a zero initial state.
 *
 *   y[n] = ( sum_{j < |b|} b[j] * x[n - j]  -  sum_{1 <= j < |a|} a[j] * y[n - j] ) / a[0]
 *
 * with x[m] = y[m] = 0 for m < 0 (the delay lines start zero-filled).
 */
module FilterSpec {

  /** The entry written `j` writes before the newest one of history `h`; zero before the first write. */
  function Past(h: seq<real>, j: nat): (v: real) {
    if j < |h| then h[|h| - 1 - j] else 0.0
  }

  /** The entry of `s` at index `m`, zero outside `s` (the signal before time 0 is silent). */
  function At(s: seq<real>, m: int): (v: real) {
    if 0 <= m < |s| then s[m] else 0.0
  }

  /** sum_{j < k} b[j] * x[n - j], accumulated in the order of the source's first inner loop. */
  function FeedForward(b: seq<real>, xs: seq<real>, k: nat): (acc: real)
    requires k <= |b|
  {
    if k == 0 then 0.0 else FeedForward(b, xs, k - 1) + b[k - 1] * Past(xs, k - 1)
  }

  /**
   * sum_{1 <= j < k} a[j] * y[n - j], where `ys` holds the outputs before the
   * one being computed, so y[n - j] is Past(ys, j - 1).
   */
  function FeedBack(a: seq<real>, ys: seq<real>, k: nat): (acc: real)
    requires 1 <= k <= |a|
  {
    if k == 1 then 0.0 else FeedBack(a, ys, k - 1) + a[k - 1] * Past(ys, k - 2)
  }

  /** A denominator that the final division can use. */
  predicate Normalisable(a: seq<real>) {
    |a| >= 1 && a[0] != 0.0
  }

  /** The output for the newest input of `xs`, given the earlier outputs `ys`. */
  function Output(b: seq<real>, a: seq<real>, xs: seq<real>, ys: seq<real>): (y: real)
    requires Normalisable(a)
  {
    (FeedForward(b, xs, |b|) - FeedBack(a, ys, |a|)) / a[0]
  }

  /** The outputs of the filter (b, a) for the inputs `xs`, starting from silence. */
  function Filter(b: seq<real>, a: seq<real>, xs: seq<real>): (ys: seq<real>)
    requires Normalisable(a)
    ensures |ys| == |xs|
    decreases |xs|
  {
    if xs == [] then []
    else
      var earlier := Filter(b, a, xs[..|xs| - 1]);
      earlier + [Output(b, a, xs, earlier)]
  }

  /** The filter is causal: the first k outputs depend only on the first k inputs. */
  lemma {:induction false} FilterPrefix(b: seq<real>, a: seq<real>, xs: seq<real>, k: nat)
    requires Normalisable(a)
    requires k <= |xs|
    ensures Filter(b, a, xs)[..k] == Filter(b, a, xs[..k])
    decreases |xs|
  {
    if k < |xs| {
      var init := xs[..|xs| - 1];
      FilterPrefix(b, a, init, k);
      assert init[..k] == xs[..k];
      assert Filter(b, a, xs)[..k] == Filter(b, a, init)[..k];
    } else {
      assert xs[..k] == xs;
    }
  }

  /** Output n is the difference equation applied to inputs 0..n and outputs 0..n-1. */
  lemma FilterAt(b: seq<real>, a: seq<real>, xs: seq<real>, n: nat)
    requires Normalisable(a)
    requires n < |xs|
    ensures Filter(b, a, xs)[n] == Output(b, a, xs[..n + 1], Filter(b, a, xs)[..n])
  {
    FilterPrefix(b, a, xs, n + 1);
    FilterPrefix(b, a, xs, n);
    var p := xs[..n + 1];
    assert p[..|p| - 1] == xs[..n];
    assert Filter(b, a, xs)[n] == Filter(b, a, xs)[..n + 1][n];
  }

  /** Reading a prefix of length m backwards is reading the whole signal before index m. */
  lemma PastOfPrefix(s: seq<real>, m: nat, j: nat)
    requires m <= |s|
    ensures Past(s[..m], j) == At(s, m - 1 - j)
  {
  }

  /** The biquad difference equation for one output, in terms of the two previous inputs and outputs. */
  function Biquad(b: seq<real>, a: seq<real>, x0: real, x1: real, x2: real, y1: real, y2: real): (y: real)
    requires |b| == 3 && |a| == 3 && Normalisable(a)
  {
    (b[0] * x0 + b[1] * x1 + b[2] * x2 - a[1] * y1 - a[2] * y2) / a[0]
  }

  /** The output of a three-tap filter is the biquad equation on the newest history entries. */
  lemma BiquadOutput(b: seq<real>, a: seq<real>, hx: seq<real>, hy: seq<real>)
    requires |b| == 3 && |a| == 3 && Normalisable(a)
    ensures Output(b, a, hx, hy) == Biquad(b, a, Past(hx, 0), Past(hx, 1), Past(hx, 2), Past(hy, 0), Past(hy, 1))
  {
    var x0, x1, x2, y1, y2 := Past(hx, 0), Past(hx, 1), Past(hx, 2), Past(hy, 0), Past(hy, 1);
    assert FeedForward(b, hx, 1) == b[0] * x0;
    assert FeedForward(b, hx, 2) == b[0] * x0 + b[1] * x1;
    assert FeedForward(b, hx, |b|) == b[0] * x0 + b[1] * x1 + b[2] * x2;
    assert FeedBack(a, hy, 2) == a[1] * y1;
    assert FeedBack(a, hy, |a|) == a[1] * y1 + a[2] * y2;
  }

  /**
   * For three numerator and three denominator coefficients the filter is the
   * biquad difference equation y[n] = (b0 x[n] + b1 x[n-1] + b2 x[n-2] - a1 y[n-1] - a2 y[n-2]) / a0,
   * with the signal taken as zero before time 0.
   */
  lemma BiquadDifferenceEquation(b: seq<real>, a: seq<real>, xs: seq<real>, n: nat)
    requires |b| == 3 && |a| == 3 && Normalisable(a)
    requires n < |xs|
    ensures
      var ys := Filter(b, a, xs);
      ys[n] == Biquad(b, a, At(xs, n), At(xs, n - 1), At(xs, n - 2), At(ys, n - 1), At(ys, n - 2))
  {
    var ys := Filter(b, a, xs);
    FilterAt(b, a, xs, n);
    BiquadOutput(b, a, xs[..n + 1], ys[..n]);
    PastOfPrefix(xs, n + 1, 0);
    PastOfPrefix(xs, n + 1, 1);
    PastOfPrefix(xs, n + 1, 2);
    PastOfPrefix(ys, n, 0);
    PastOfPrefix(ys, n, 1);
  }

  /**
   * Filtering a block in two consecutive pieces gives the same outputs as
   * filtering it in one piece, when the history `h` before it is the same.
   */
  lemma FilterSplit(b: seq<real>, a: seq<real>, h: seq<real>, u: seq<real>, v: seq<real>)
    requires Normalisable(a)
    ensures Filter(b, a, h + u + v)[|h|..] == Filter(b, a, h + u)[|h|..] + Filter(b, a, h + u + v)[|h| + |u|..]
  {
    var whole := Filter(b, a, h + u + v);
    FilterPrefix(b, a, h + u + v, |h| + |u|);
    assert (h + u + v)[..|h| + |u|] == h + u;
    assert whole[|h|..] == whole[..|h| + |u|][|h|..] + whole[|h| + |u|..];
  }
}
