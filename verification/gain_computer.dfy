/**
 * The per-sample arithmetic of a feed-forward compressor: level detection in
 * decibels, the static gain curve, the one-pole attack/release ballistics
 * and the control gain. log10, 10^x and the exponential of the smoothing
 * coefficient are parameters of the functions that need them.
 */
module GainComputer {

  /** Inputs whose magnitude is below this are treated as silence. */
  const SilenceMagnitude: real := 0.000001

  /** The level, in decibels, that silence is given. */
  const SilenceLevel: real := -120.0

  function Abs(s: real): (r: real)
    ensures r >= 0.0 && (r == s || r == -s)
  {
    if s < 0.0 then -s else s
  }

  /** Peak level detection: 20 log10 |s|, floored at -120 dB for near-silent input. */
  function Level(s: real, log10: real -> real): (xg: real)
    ensures Abs(s) < SilenceMagnitude ==> xg == SilenceLevel
    ensures Abs(s) >= SilenceMagnitude ==> xg == 20.0 * log10(Abs(s))
  {
    if Abs(s) < SilenceMagnitude then SilenceLevel else 20.0 * log10(Abs(s))
  }

  /** The detected level depends only on the magnitude of the sample. */
  lemma LevelSymmetric(s: real, log10: real -> real)
    ensures Level(-s, log10) == Level(s, log10)
  {
  }

  /**
   * Silence is the floor of the detector: when 20 log10 v is at least -120 dB
   * for every magnitude v of 1e-6 or more, no sample is detected below -120 dB.
   */
  lemma LevelFloor(s: real, log10: real -> real)
    requires forall v :: v >= SilenceMagnitude ==> 20.0 * log10(v) >= SilenceLevel
    ensures Level(s, log10) >= SilenceLevel
  {
  }

  /**
   * The static input/output curve: below the threshold the level passes
   * unchanged; above it, the output's overshoot times the ratio is the
   * input's overshoot.
   */
  function StaticCurve(xg: real, threshold: real, ratio: real): (yg: real)
    requires ratio != 0.0
    ensures xg < threshold ==> yg == xg
    ensures xg >= threshold ==> (yg - threshold) * ratio == xg - threshold
  {
    if xg >= threshold then threshold + (xg - threshold) / ratio else xg
  }

  /**
   * The gain reduction the curve asks for, input level minus output level:
   * none below the threshold, and (ratio - 1) / ratio of the overshoot above it.
   */
  function Reduction(xg: real, threshold: real, ratio: real): (xl: real)
    requires ratio != 0.0
    ensures xg < threshold ==> xl == 0.0
    ensures xg >= threshold ==> xl * ratio == (xg - threshold) * (ratio - 1.0)
  {
    xg - StaticCurve(xg, threshold, ratio)
  }

  /**
   * Below the threshold nothing is reduced; above it, with a ratio of at
   * least 1, the reduction is between 0 and the overshoot xg - threshold.
   */
  lemma ReductionBounds(xg: real, threshold: real, ratio: real)
    requires ratio != 0.0
    ensures xg < threshold ==> Reduction(xg, threshold, ratio) == 0.0
    ensures xg >= threshold && ratio >= 1.0 ==>
      0.0 <= Reduction(xg, threshold, ratio) <= xg - threshold
    ensures ratio == 1.0 ==> Reduction(xg, threshold, ratio) == 0.0
  {
    if xg >= threshold && ratio >= 1.0 {
      var over := xg - threshold;
      assert over / ratio <= over by {
        assert over / ratio * ratio == over;
      }
      assert over / ratio >= 0.0;
    }
  }

  /** One-pole smoothing step: alpha of the previous value and 1 - alpha of the new one. */
  function Smooth(alpha: real, prev: real, x: real): (y: real) {
    alpha * prev + (1.0 - alpha) * x
  }

  /** For alpha in [0, 1] the smoothed value lies between the previous value and the input. */
  lemma SmoothBetween(alpha: real, prev: real, x: real)
    requires 0.0 <= alpha <= 1.0
    ensures prev <= x ==> prev <= Smooth(alpha, prev, x) <= x
    ensures x <= prev ==> x <= Smooth(alpha, prev, x) <= prev
  {
    var d := prev - x;
    calc {
      Smooth(alpha, prev, x);
      alpha * prev + (1.0 - alpha) * x;
      alpha * (x + d) + x - alpha * x;
      { assert alpha * (x + d) == alpha * x + alpha * d; }
      x + alpha * d;
    }
    var beta := 1.0 - alpha;
    assert beta * d == d - alpha * d;
    if d >= 0.0 {
      assert 0.0 <= alpha * d && beta * d >= 0.0;
    } else {
      assert alpha * d <= 0.0 && beta * d <= 0.0;
    }
  }

  /**
   * The coefficient for one step: attack when the block's first gain
   * reduction exceeds the previous smoothed value, release otherwise.
   */
  function Alpha(first: real, prev: real, alphaAttack: real, alphaRelease: real): (alpha: real)
    ensures first > prev ==> alpha == alphaAttack
    ensures first <= prev ==> alpha == alphaRelease
  {
    if first > prev then alphaAttack else alphaRelease
  }

  /** The last value of `ys`, or `prev` when `ys` is empty. */
  function LastOr(ys: seq<real>, prev: real): (r: real)
    ensures ys != [] ==> r == ys[|ys| - 1]
    ensures ys == [] ==> r == prev
  {
    if ys == [] then prev else ys[|ys| - 1]
  }

  /**
   * The smoothed gain reductions of a block. Step i smooths xl[i] against
   * the value of step i - 1 (`prev` for the first step), choosing its
   * coefficient by comparing the block's FIRST reduction xl[0] with that value.
   */
  function Envelope(xl: seq<real>, prev: real, alphaAttack: real, alphaRelease: real): (yl: seq<real>)
    ensures |yl| == |xl|
    decreases |xl|
  {
    if xl == [] then []
    else
      var earlier := Envelope(xl[..|xl| - 1], prev, alphaAttack, alphaRelease);
      var p := LastOr(earlier, prev);
      earlier + [Smooth(Alpha(xl[0], p, alphaAttack, alphaRelease), p, xl[|xl| - 1])]
  }

  /** The envelope of a prefix is the prefix of the envelope. */
  lemma {:induction false} EnvelopePrefix(xl: seq<real>, prev: real, aA: real, aR: real, k: nat)
    requires k <= |xl|
    ensures Envelope(xl, prev, aA, aR)[..k] == Envelope(xl[..k], prev, aA, aR)
    decreases |xl|
  {
    if k < |xl| {
      var init := xl[..|xl| - 1];
      EnvelopePrefix(init, prev, aA, aR, k);
      assert init[..k] == xl[..k];
    } else {
      assert xl[..k] == xl;
    }
  }

  /**
   * Step i of the envelope: the smoothing of xl[i] against the previous
   * step (or `prev`), with the coefficient chosen by xl[0].
   */
  lemma EnvelopeStep(xl: seq<real>, prev: real, aA: real, aR: real, i: nat)
    requires i < |xl|
    ensures var yl := Envelope(xl, prev, aA, aR);
      var p := if i == 0 then prev else yl[i - 1];
      yl[i] == Smooth(Alpha(xl[0], p, aA, aR), p, xl[i])
  {
    var yl := Envelope(xl, prev, aA, aR);
    EnvelopePrefix(xl, prev, aA, aR, i + 1);
    EnvelopePrefix(xl, prev, aA, aR, i);
    var pre := xl[..i + 1];
    assert pre[..|pre| - 1] == xl[..i];
    assert pre[0] == xl[0];
    assert yl[i] == yl[..i + 1][i];
    if i > 0 {
      assert yl[i - 1] == yl[..i][i - 1];
    }
  }

  /** The value step i of a block smooths against: the previous step, or `prev` for the first. */
  function Before(yl: seq<real>, i: nat, prev: real): (p: real)
    requires i <= |yl|
  {
    if i == 0 then prev else yl[i - 1]
  }

  /**
   * Step i of `yl` follows the ballistics: it smooths xl[i] against the step
   * before, with the coefficient the block's first reduction selects.
   */
  predicate StepFollows(xl: seq<real>, yl: seq<real>, prev: real, aA: real, aR: real, i: nat)
    requires i < |xl| && i < |yl|
  {
    var p := Before(yl, i, prev);
    yl[i] == Smooth(Alpha(xl[0], p, aA, aR), p, xl[i])
  }

  /**
   * The envelope is the only sequence whose every step follows the
   * ballistics: a block computed step by step is the envelope, and the
   * envelope's steps all follow them.
   */
  lemma {:induction false} EnvelopeUnique(xl: seq<real>, yl: seq<real>, prev: real, aA: real, aR: real)
    requires |yl| == |xl|
    ensures (forall i :: 0 <= i < |xl| ==> StepFollows(xl, yl, prev, aA, aR, i))
      <==> yl == Envelope(xl, prev, aA, aR)
    decreases |xl|
  {
    var env := Envelope(xl, prev, aA, aR);
    forall i | 0 <= i < |xl|
      ensures StepFollows(xl, env, prev, aA, aR, i)
    {
      EnvelopeStep(xl, prev, aA, aR, i);
    }
    if xl != [] && forall i :: 0 <= i < |xl| ==> StepFollows(xl, yl, prev, aA, aR, i) {
      var n := |xl| - 1;
      var xi, yi := xl[..n], yl[..n];
      forall i | 0 <= i < n
        ensures StepFollows(xi, yi, prev, aA, aR, i)
      {
        assert StepFollows(xl, yl, prev, aA, aR, i);
        assert Before(yi, i, prev) == Before(yl, i, prev);
      }
      EnvelopeUnique(xi, yi, prev, aA, aR);
      assert StepFollows(xl, yl, prev, aA, aR, n);
      assert Before(yl, n, prev) == LastOr(yi, prev);
      assert yl == yi + [yl[n]];
    }
  }

  /**
   * With both coefficients in [0, 1], every smoothed value stays inside any
   * interval that holds the previous value and all of the block's reductions.
   */
  lemma {:induction false} EnvelopeWithin(xl: seq<real>, prev: real, aA: real, aR: real, lo: real, hi: real)
    requires 0.0 <= aA <= 1.0 && 0.0 <= aR <= 1.0
    requires lo <= prev <= hi
    requires forall i :: 0 <= i < |xl| ==> lo <= xl[i] <= hi
    ensures forall i :: 0 <= i < |xl| ==> lo <= Envelope(xl, prev, aA, aR)[i] <= hi
    decreases |xl|
  {
    if xl != [] {
      var init := xl[..|xl| - 1];
      EnvelopeWithin(init, prev, aA, aR, lo, hi);
      var earlier := Envelope(init, prev, aA, aR);
      var p := LastOr(earlier, prev);
      assert lo <= p <= hi;
      SmoothBetween(Alpha(xl[0], p, aA, aR), p, xl[|xl| - 1]);
    }
  }

  /** The control gain: 10^((makeUpGain - yl) / 20), the linear gain for yl dB of reduction. */
  function ControlGain(makeUpGain: real, yl: real, pow10: real -> real): (gain: real) {
    pow10((makeUpGain - yl) / 20.0)
  }

  /**
   * With 10^x increasing, a larger smoothed reduction gives a smaller gain,
   * and a reduction equal to the make-up gain gives unit gain.
   */
  lemma ControlGainOrder(makeUpGain: real, yl1: real, yl2: real, pow10: real -> real)
    requires forall u, v :: u <= v ==> pow10(u) <= pow10(v)
    requires pow10(0.0) == 1.0
    ensures yl1 <= yl2 ==> ControlGain(makeUpGain, yl2, pow10) <= ControlGain(makeUpGain, yl1, pow10)
    ensures ControlGain(makeUpGain, makeUpGain, pow10) == 1.0
  {
  }

  /** A float-to-int conversion: the fraction is dropped, rounding toward zero. */
  function Truncate(x: real): (n: int)
    ensures x >= 0.0 ==> 0 <= n && n as real <= x < n as real + 1.0
    ensures x < 0.0 ==> n <= 0 && n as real - 1.0 < x <= n as real
  {
    if x >= 0.0 then x.Floor else -((-x).Floor)
  }
}
