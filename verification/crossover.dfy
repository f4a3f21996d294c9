/**
 * A second-order crossover stage: Butterworth low-pass coefficients derived
 * from a warped cutoff, and a direct-form-I recursion that keeps its input
 * and output history in two three-slot ring buffers.
 */
module Crossover {
  import opened FilterSpec
  import opened Blocks

  /** Number of numerator coefficients, denominator coefficients and ring slots. */
  const Taps: nat := 3

  /** The binary64 value that sqrt(2.0) returns, used as the filter's Q. */
  const Q: real := 1.4142135623730951454746218587388284504413604736328125

  /** A coefficient set: numerator b0..b2 and denominator a0..a2. */
  datatype Coefficients = Coefficients(num: seq<real>, den: seq<real>)

  /** The denominator 1 + q*w + w^2 of b0 never vanishes: it is at least 1 - q^2/4 > 0. */
  lemma WarpDenominatorPositive(wd1: real)
    ensures 1.0 + Q * wd1 + wd1 * wd1 > 0.0
  {
    assert (wd1 + Q / 2.0) * (wd1 + Q / 2.0) >= 0.0;
  }

  /** The coefficients the stage derives from the warped frequency wd1. */
  function Butterworth(wd1: real): (c: Coefficients)
    ensures |c.num| == Taps && |c.den| == Taps
    ensures c.num[0] > 0.0 && c.num[1] == 2.0 * c.num[0] && c.num[2] == c.num[0]
    ensures c.den[0] == 1.0
    ensures c.num[0] * (1.0 + Q * wd1 + wd1 * wd1) == 1.0
  {
    WarpDenominatorPositive(wd1);
    var d := 1.0 + Q * wd1 + wd1 * wd1;
    var b0 := 1.0 / d;
    assert b0 > 0.0 by { assert b0 * d == 1.0; }
    Coefficients([b0, 2.0 * b0, b0], [1.0, 2.0 * (wd1 * wd1 - 1.0) * b0, -(1.0 - Q * wd1 + wd1 * wd1) * b0])
  }

  /**
   * A constant input x and a constant output y are a steady state of a biquad
   * exactly when (a0 + a1 + a2) * y == (b0 + b1 + b2) * x.
   */
  lemma SteadyState(b: seq<real>, a: seq<real>, x: real, y: real)
    requires |b| == 3 && |a| == 3 && Normalisable(a)
    ensures Biquad(b, a, x, x, x, y, y) == y <==> (a[0] + a[1] + a[2]) * y == (b[0] + b[1] + b[2]) * x
  {
    var num := b[0] * x + b[1] * x + b[2] * x - a[1] * y - a[2] * y;
    assert Biquad(b, a, x, x, x, y, y) == num / a[0];
    assert num / a[0] == y <==> num == a[0] * y;
  }

  /**
   * With the coefficients as assigned, a constant input x settles at y exactly
   * when (wd1^2 + q*wd1 - 1) * y == 2 * x, so the gain at zero frequency is
   * 2 / (wd1^2 + q*wd1 - 1).
   */
  lemma ButterworthSteadyState(wd1: real, x: real, y: real)
    ensures var c := Butterworth(wd1);
      Biquad(c.num, c.den, x, x, x, y, y) == y <==> (wd1 * wd1 + Q * wd1 - 1.0) * y == 2.0 * x
  {
    var c := Butterworth(wd1);
    var b0 := c.num[0];
    var d := 1.0 + Q * wd1 + wd1 * wd1;
    SteadyState(c.num, c.den, x, y);
    assert c.num[0] + c.num[1] + c.num[2] == 4.0 * b0;
    assert c.den[0] + c.den[1] + c.den[2] == 1.0 + (wd1 * wd1 + Q * wd1 - 3.0) * b0;
    assert 1.0 == d * b0;
    assert c.den[0] + c.den[1] + c.den[2] == 2.0 * (wd1 * wd1 + Q * wd1 - 1.0) * b0;
    var k := wd1 * wd1 + Q * wd1 - 1.0;
    var u, v := 2.0 * (k * y), 4.0 * x;
    assert (c.den[0] + c.den[1] + c.den[2]) * y == b0 * u;
    assert (c.num[0] + c.num[1] + c.num[2]) * x == b0 * v;
    CancelPositive(b0, u, v);
  }

  /** A positive common factor cancels from both sides of an equation. */
  lemma CancelPositive(f: real, u: real, v: real)
    requires f > 0.0
    ensures f * u == f * v <==> u == v
  {
    if f * u == f * v {
      assert f * (u - v) == 0.0;
    }
  }

  // ---------------------------------------------------------------------------
  // Ring-buffer delay lines

  /** Write cursor after one step: pre-increment, then wrap by adding the size and reducing. */
  function Advance(p: int, n: int): (r: int)
    requires n > 0
    ensures 0 <= r < n
    ensures 0 <= p < n ==> r == if p + 1 == n then 0 else p + 1
  {
    (p + 1 + n) % n
  }

  /** The slot read for the entry j writes back from the cursor p. */
  function Slot(p: int, j: int, n: int): (r: int)
    requires n > 0
    ensures 0 <= r < n
    ensures 0 <= p < n && 0 <= j < n ==> r == if j <= p then p - j else p - j + n
  {
    (p - j + n) % n
  }

  /**
   * The ring `buf` with cursor `p` holds the last |buf| entries of history `h`:
   * slot Slot(p, j) holds the entry written j writes ago, zero before any write.
   */
  ghost predicate Mirrors(buf: seq<real>, p: int, h: seq<real>) {
    0 <= p < |buf| && forall j {:trigger Slot(p, j, |buf|)} :: 0 <= j < |buf| ==> buf[Slot(p, j, |buf|)] == Past(h, j)
  }

  /** A zero-filled delay line of length n. */
  function ZeroLine(n: nat): (z: seq<real>)
    ensures |z| == n && forall k :: 0 <= k < n ==> z[k] == 0.0
  {
    seq(n, _ => 0.0)
  }

  /** A zero-filled ring of any positive size mirrors the empty history. */
  lemma ZeroLineMirrorsEmpty(n: nat, p: int)
    requires 0 <= p < n
    ensures Mirrors(ZeroLine(n), p, [])
  {
  }

  /**
   * After the cursor has advanced and before the new entry is written, slot
   * Slot(cursor, j) for j >= 1 still holds the entry written j - 1 writes ago.
   */
  lemma {:induction false} RingRead(buf: seq<real>, p: int, h: seq<real>, j: int)
    requires Mirrors(buf, p, h)
    requires 1 <= j < |buf|
    ensures buf[Slot(Advance(p, |buf|), j, |buf|)] == Past(h, j - 1)
  {
    var n := |buf|;
    assert Slot(Advance(p, n), j, n) == Slot(p, j - 1, n);
  }

  /** RingRead for every slot but the one about to be written. */
  lemma RingReadAll(buf: seq<real>, p: int, h: seq<real>)
    requires Mirrors(buf, p, h)
    ensures forall j :: 1 <= j < |buf| ==> buf[Slot(Advance(p, |buf|), j, |buf|)] == Past(h, j - 1)
  {
    forall j | 1 <= j < |buf|
      ensures buf[Slot(Advance(p, |buf|), j, |buf|)] == Past(h, j - 1)
    {
      RingRead(buf, p, h, j);
    }
  }

  /** Advancing the cursor and writing v there makes the ring mirror the history extended by v. */
  lemma {:induction false} RingWrite(buf: seq<real>, p: int, h: seq<real>, v: real)
    requires Mirrors(buf, p, h)
    ensures Mirrors(buf[Advance(p, |buf|) := v], Advance(p, |buf|), h + [v])
  {
    var n := |buf|;
    var q := Advance(p, n);
    var buf' := buf[q := v];
    forall j | 0 <= j < n
      ensures buf'[Slot(q, j, n)] == Past(h + [v], j)
    {
      if j == 0 {
        assert Slot(q, 0, n) == q;
      } else {
        assert Slot(q, j, n) == Slot(p, j - 1, n) != q;
        RingRead(buf, p, h, j);
      }
    }
  }

  /** The one-element vector that `= {0}` leaves behind. */
  function ResetAsWritten(): (z: seq<real>)
    ensures |z| == 1
  {
    [0.0]
  }

  /**
   * After the reset as written the cursor is 0, so the first sample the
   * filter processes is written to slot Advance(0, 3) = 1, which the
   * one-element vector does not have; the vector is shorter than the
   * stored delay size 3 that every later cursor step wraps at.
   */
  lemma ResetAsWrittenOverruns()
    ensures Advance(0, Taps) == 1 && Advance(0, Taps) >= |ResetAsWritten()|
    ensures |ResetAsWritten()| < Taps
  {
  }

  /**
   * One more sample: if `hy` is the response to `hx` and y is the difference
   * equation's output for the next input x, the histories grow in step.
   */
  lemma FilterExtends(b: seq<real>, a: seq<real>, hx: seq<real>, hy: seq<real>, x: real, y: real)
    requires Normalisable(a)
    requires hx == [] ==> hy == []
    requires hx != [] ==> hy == Filter(b, a, hx)
    requires y == Output(b, a, hx + [x], hy)
    ensures hy + [y] == Filter(b, a, hx + [x])
    ensures y == Filter(b, a, hx + [x])[|hx|]
  {
    assert (hx + [x])[..|hx|] == hx;
  }

  /**
   * The first inner loop: y = sum_j b[j] * buf[slot j writes back from q],
   * which is the feed-forward sum over history h when the ring mirrors h.
   */
  method FeedForwardSum(b: seq<real>, buf: seq<real>, q: int, ghost h: seq<real>) returns (y: real)
    requires |b| == |buf| && Mirrors(buf, q, h)
    ensures y == FeedForward(b, h, |b|)
  {
    var n := |buf|;
    y := 0.0;
    var j := 0;
    while j < n
      invariant 0 <= j <= n
      invariant y == FeedForward(b, h, j)
    {
      assert buf[Slot(q, j, n)] == Past(h, j);
      y := y + buf[(q - j + n) % n] * b[j];
      j := j + 1;
    }
  }

  /**
   * The second inner loop: subtracts a[j] * buf[slot j writes back from q]
   * for 1 <= j < |a| from y0. With the cursor advanced but the new output not
   * yet stored, slot j holds the output j - 1 writes before the newest of h.
   */
  method FeedBackSum(a: seq<real>, buf: seq<real>, q: int, ghost h: seq<real>, y0: real) returns (y: real)
    requires 1 <= |a| == |buf| && 0 <= q < |buf|
    requires forall k :: 1 <= k < |buf| ==> buf[Slot(q, k, |buf|)] == Past(h, k - 1)
    ensures y == y0 - FeedBack(a, h, |a|)
  {
    var n := |buf|;
    y := y0;
    var j := 1;
    while j < n
      invariant 1 <= j <= n
      invariant y == y0 - FeedBack(a, h, j)
    {
      assert buf[Slot(q, j, n)] == Past(h, j - 1);
      y := y - buf[(q - j + n) % n] * a[j];
      j := j + 1;
    }
  }

  class CrossoverFilter {
    var numerator: seq<real>
    var denominator: seq<real>
    var inputDelayBuf: seq<real>
    var outputDelayBuf: seq<real>
    var inputDelaySize: int
    var outputDelaySize: int
    var inputDelayBufWritePtr: int
    var outputDelayBufWritePtr: int

    /** Every input filtered since the delay lines were last reset, oldest first. */
    ghost var inputs: seq<real>
    /** Every output produced since that reset. */
    ghost var outputs: seq<real>

    /** Vector and size fields as the constructor lays them out. */
    ghost predicate Shaped()
      reads this
    {
      && |numerator| == Taps && |denominator| == Taps
      && inputDelaySize == Taps && outputDelaySize == Taps
    }

    /**
     * The stage's invariant: both rings mirror their histories with equal
     * cursors, and the output history is the filter's response to the input
     * history from silence.
     */
    ghost predicate Valid()
      reads this
    {
      && Shaped()
      && |inputDelayBuf| == inputDelaySize && |outputDelayBuf| == outputDelaySize
      && inputDelayBufWritePtr == outputDelayBufWritePtr
      && Mirrors(inputDelayBuf, inputDelayBufWritePtr, inputs)
      && Mirrors(outputDelayBuf, outputDelayBufWritePtr, outputs)
      && (inputs == [] ==> outputs == [])
      && (inputs != [] ==> Normalisable(denominator) && outputs == Filter(numerator, denominator, inputs))
    }

    /**
     * Three zero coefficients of each kind and two zero-filled delay lines of
     * length 3; the write cursors are not initialised here.
     */
    constructor (highpass: bool, linkwitzRiley: bool)
      ensures Shaped()
      ensures numerator == ZeroLine(Taps) && denominator == ZeroLine(Taps)
      ensures inputDelayBuf == ZeroLine(Taps) && outputDelayBuf == ZeroLine(Taps)
      ensures inputDelaySize == |inputDelayBuf| && outputDelaySize == |outputDelayBuf|
    {
      numerator := ZeroLine(Taps);
      denominator := ZeroLine(Taps);
      new;
      inputDelayBuf := ZeroLine(|numerator|);
      outputDelayBuf := ZeroLine(|denominator|);
      inputDelaySize := |inputDelayBuf|;
      outputDelaySize := |outputDelayBuf|;
    }

    /**
     * The coefficient part of makeCrossover: b0 = 1 / (1 + Q wd1 + wd1^2),
     * b1 = 2 b0, b2 = b0, a0 = 1, a1 = 2 (wd1^2 - 1) b0, a2 = -(1 - Q wd1 + wd1^2) b0,
     * each entry assigned in turn.
     */
    method SetCoefficients(wd1: real)
      requires Shaped()
      modifies this`numerator, this`denominator
      ensures Shaped()
      ensures numerator == Butterworth(wd1).num && denominator == Butterworth(wd1).den
    {
      WarpDenominatorPositive(wd1);
      numerator := numerator[0 := 1.0 / (1.0 + Q * wd1 + wd1 * wd1)];
      numerator := numerator[1 := 2.0 * numerator[0]];
      numerator := numerator[2 := numerator[0]];
      denominator := denominator[0 := 1.0];
      denominator := denominator[1 := 2.0 * (wd1 * wd1 - 1.0) * numerator[0]];
      denominator := denominator[2 := -(1.0 - Q * wd1 + wd1 * wd1) * numerator[0]];
      ghost var c := Butterworth(wd1);
      assert numerator[0] == c.num[0] && numerator[1] == c.num[1] && numerator[2] == c.num[2];
      assert denominator[0] == c.den[0] && denominator[1] == c.den[1] && denominator[2] == c.den[2];
    }

    /**
     * Derives the low-pass coefficients from the warped frequency
     * wd1 = warp(crossoverFrequency), standing for 1 / tan(pi * crossoverFrequency),
     * and resets both delay lines to silence with their cursors at 0.
     * The highpass and linkwitzRiley flags do not take part.
     */
    method MakeCrossover(crossoverFrequency: real, linkwitzRiley: bool, highpass: bool, warp: real -> real)
      requires Shaped()
      requires crossoverFrequency > 0.0
      modifies this
      ensures Valid() && inputs == [] && outputs == []
      ensures numerator == Butterworth(warp(crossoverFrequency)).num
      ensures denominator == Butterworth(warp(crossoverFrequency)).den
      ensures inputDelayBuf == ZeroLine(Taps) && outputDelayBuf == ZeroLine(Taps)
      ensures inputDelayBufWritePtr == 0 && outputDelayBufWritePtr == 0
      ensures inputDelaySize == old(inputDelaySize) && outputDelaySize == old(outputDelaySize)
    {
      SetCoefficients(warp(crossoverFrequency));

      inputDelayBuf := ZeroLine(inputDelaySize);
      outputDelayBuf := ZeroLine(outputDelaySize);
      inputDelayBufWritePtr := 0;
      outputDelayBufWritePtr := 0;
      inputs, outputs := [], [];
      ZeroLineMirrorsEmpty(Taps, 0);
    }

    /**
     * The same derivation, with the delay lines reset the way the source
     * writes it: each vector becomes the one-element list {0} while the
     * stored delay sizes stay 3, so the stage is left invalid.
     */
    method MakeCrossoverAsWritten(crossoverFrequency: real, linkwitzRiley: bool, highpass: bool, warp: real -> real)
      requires Shaped()
      requires crossoverFrequency > 0.0
      modifies this
      ensures !Valid()
      ensures numerator == Butterworth(warp(crossoverFrequency)).num
      ensures denominator == Butterworth(warp(crossoverFrequency)).den
      ensures inputDelayBuf == ResetAsWritten() && outputDelayBuf == ResetAsWritten()
      ensures inputDelaySize == Taps && outputDelaySize == Taps
      ensures inputDelayBufWritePtr == 0 && outputDelayBufWritePtr == 0
    {
      SetCoefficients(warp(crossoverFrequency));

      inputDelayBuf := ResetAsWritten();
      outputDelayBuf := ResetAsWritten();
      inputDelayBufWritePtr := 0;
      outputDelayBufWritePtr := 0;
    }

    /** Both write cursors move on by one and wrap at their delay sizes. */
    method AdvanceCursors()
      requires Shaped() && 0 <= inputDelayBufWritePtr < Taps && outputDelayBufWritePtr == inputDelayBufWritePtr
      modifies this`inputDelayBufWritePtr, this`outputDelayBufWritePtr
      ensures inputDelayBufWritePtr == outputDelayBufWritePtr == Advance(old(inputDelayBufWritePtr), Taps)
    {
      inputDelayBufWritePtr := inputDelayBufWritePtr + 1;
      inputDelayBufWritePtr := (inputDelayBufWritePtr + inputDelaySize) % inputDelaySize;
      outputDelayBufWritePtr := outputDelayBufWritePtr + 1;
      outputDelayBufWritePtr := (outputDelayBufWritePtr + outputDelaySize) % outputDelaySize;
    }

    /**
     * One pass of the sample loop: advance both cursors, store x, accumulate
     * the feed-forward and feedback sums from the rings, normalise by a0 and
     * store the output.
     */
    method FilterSample(x: real) returns (y: real)
      requires Valid() && denominator[0] != 0.0
      modifies this`inputDelayBufWritePtr, this`outputDelayBufWritePtr, this`inputDelayBuf, this`outputDelayBuf
      modifies this`inputs, this`outputs
      ensures Valid()
      ensures inputDelayBufWritePtr == Advance(old(inputDelayBufWritePtr), Taps)
      ensures numerator == old(numerator) && denominator == old(denominator)
      ensures inputs == old(inputs) + [x] && outputs == old(outputs) + [y]
      ensures y == Filter(numerator, denominator, inputs)[|inputs| - 1]
    {
      ghost var p, hx, hy := inputDelayBufWritePtr, inputs, outputs;
      ghost var ob := outputDelayBuf;

      AdvanceCursors();

      ghost var ib := inputDelayBuf;
      RingWrite(ib, p, hx, x);
      inputDelayBuf := inputDelayBuf[Slot(inputDelayBufWritePtr, 0, inputDelaySize) := x];
      assert inputDelayBuf == ib[Advance(p, |ib|) := x];

      y := FeedForwardSum(numerator, inputDelayBuf, inputDelayBufWritePtr, hx + [x]);
      RingReadAll(ob, p, hy);
      y := FeedBackSum(denominator, outputDelayBuf, outputDelayBufWritePtr, hy, y);
      y := y / denominator[0];

      FilterExtends(numerator, denominator, hx, hy, x, y);
      RingWrite(ob, p, hy, y);
      outputDelayBuf := outputDelayBuf[Slot(outputDelayBufWritePtr, 0, outputDelaySize) := y];
      assert outputDelayBuf == ob[Advance(p, |ob|) := y];
      inputs, outputs := hx + [x], hy + [y];
      assert Mirrors(inputDelayBuf, inputDelayBufWritePtr, inputs);
      assert Mirrors(outputDelayBuf, outputDelayBufWritePtr, outputs);
    }

    /**
     * Filters samples[0..numSamples) in place. The delay lines carry the
     * history over from earlier calls, so the block's outputs are the tail of
     * the filter's response to everything filtered since the last reset.
     */
    method ApplyFilter(samples: array<real>, numSamples: int)
      requires Valid() && denominator[0] != 0.0
      requires numSamples <= samples.Length
      modifies this, samples
      ensures Valid()
      ensures numerator == old(numerator) && denominator == old(denominator)
      ensures inputs == old(inputs) + old(samples[..BlockLength(numSamples)])
      ensures samples[..BlockLength(numSamples)] == Filter(numerator, denominator, inputs)[|old(inputs)|..]
      ensures samples[BlockLength(numSamples)..] == old(samples[BlockLength(numSamples)..])
    {
      ghost var n := BlockLength(numSamples);
      ghost var h0, s0 := inputs, samples[..];
      var i := 0;
      while i < numSamples
        invariant 0 <= i <= n
        invariant Filtered(samples, i, h0, s0, old(numerator), old(denominator))
      {
        FilterStep(samples, i, h0, s0, old(numerator), old(denominator));
        i := i + 1;
      }
      assert s0[..n] == old(samples[..n]);
      assert samples[n..] == s0[n..];
    }

    /**
     * The stage after filtering samples[0..i) of a block whose original
     * contents were s0, starting from the history h0 with coefficients b and
     * a: the stage is valid with those coefficients, its input history has
     * grown by s0[..i], samples[0..i) hold the matching outputs and the rest
     * of the array is as it was.
     */
    ghost predicate Filtered(samples: array<real>, i: int, h0: seq<real>, s0: seq<real>, b: seq<real>, a: seq<real>)
      reads this, samples
    {
      && 0 <= i <= samples.Length == |s0|
      && Valid() && denominator[0] != 0.0
      && numerator == b && denominator == a
      && inputs == h0 + s0[..i]
      && samples[..i] == Filter(numerator, denominator, inputs)[|h0|..]
      && forall k :: i <= k < samples.Length ==> samples[k] == s0[k]
    }

    /** One pass of the sample loop: sample i is replaced by the stage's output for it. */
    method FilterStep(samples: array<real>, i: int, ghost h0: seq<real>, ghost s0: seq<real>, ghost b: seq<real>, ghost a: seq<real>)
      requires Filtered(samples, i, h0, s0, b, a) && i < samples.Length
      modifies this, samples
      ensures Filtered(samples, i + 1, h0, s0, b, a)
    {
      ghost var before := Filter(numerator, denominator, inputs);
      var x := samples[i];
      var y := FilterSample(x);
      samples[i] := y;
      assert s0[..i + 1] == s0[..i] + [x];
      assert Filter(numerator, denominator, inputs) == before + [y];
      assert (before + [y])[|h0|..] == before[|h0|..] + [y];
      assert samples[..i + 1] == samples[..i] + [y];
    }
  }
}
