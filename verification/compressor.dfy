/**
 * The compressor object: its parameters, its five work arrays of one block
 * each, the smoothed reduction carried between blocks, and the operations
 * that compute the control gains and apply them to a block in place.
 */
module CompressorModel {
  import opened GainComputer
  import opened Blocks

  /** The parameter fields that the setters and resetAll assign. */
  datatype Settings = Settings(
    ratio: real, threshold: real, makeUpGain: real,
    tauAttack: real, tauRelease: real,
    alphaAttack: real, alphaRelease: real,
    yL_prev: real, sampleRate: int,
    compressorONOFF: bool, autoTime: bool)

  /**
   * The smoothing coefficient exp(-1 / (0.001 * sampleRate * tau)), with the
   * exponential of the reciprocal left to the parameter `smoothing`, applied
   * to the time constant in samples.
   */
  function SmoothingCoefficient(sampleRate: int, tau: real, smoothing: real -> real): (alpha: real) {
    smoothing(0.001 * sampleRate as real * tau)
  }

  /** Level detection of every sample of a block. */
  function Levels(s: seq<real>, log10: real -> real): (xg: seq<real>)
    ensures |xg| == |s| && forall i :: 0 <= i < |s| ==> xg[i] == Level(s[i], log10)
  {
    seq(|s|, i requires 0 <= i < |s| => Level(s[i], log10))
  }

  /** The static curve applied to every level of a block. */
  function Curve(xg: seq<real>, threshold: real, ratio: real): (yg: seq<real>)
    requires ratio != 0.0
    ensures |yg| == |xg| && forall i :: 0 <= i < |xg| ==> yg[i] == StaticCurve(xg[i], threshold, ratio)
  {
    seq(|xg|, i requires 0 <= i < |xg| => StaticCurve(xg[i], threshold, ratio))
  }

  /** The gain reduction of every level of a block. */
  function Reductions(xg: seq<real>, threshold: real, ratio: real): (xl: seq<real>)
    requires ratio != 0.0
    ensures |xl| == |xg| && forall i :: 0 <= i < |xg| ==> xl[i] == Reduction(xg[i], threshold, ratio)
  {
    seq(|xg|, i requires 0 <= i < |xg| => Reduction(xg[i], threshold, ratio))
  }

  /** The control gain for every smoothed reduction of a block. */
  function Controls(makeUpGain: real, yl: seq<real>, pow10: real -> real): (c: seq<real>)
    ensures |c| == |yl| && forall i :: 0 <= i < |yl| ==> c[i] == ControlGain(makeUpGain, yl[i], pow10)
  {
    seq(|yl|, i requires 0 <= i < |yl| => ControlGain(makeUpGain, yl[i], pow10))
  }

  /** A sample scaled by its control gain. */
  function Amplify(s: real, gain: real): (out: real) {
    s * gain
  }

  class Compressor {
    var compressorONOFF: bool
    var autoTime: bool
    /** Samples per block; the work arrays are allocated once with this length. */
    const bufferSize: int

    /** One-channel copy of the block being compressed. */
    const inputBuffer: array<real>
    /** Input level, output level, gain reduction, smoothed reduction, control gain. */
    const x_g: array<real>
    const x_l: array<real>
    const y_g: array<real>
    const y_l: array<real>
    const c: array<real>

    var ratio: real
    var threshold: real
    var makeUpGain: real
    var tauAttack: real
    var tauRelease: real
    var alphaAttack: real
    var alphaRelease: real
    var yL_prev: real
    var sampleRate: int

    /** Every array the object owns. */
    ghost function Repr(): set<object> {
      {inputBuffer, x_g, x_l, y_g, y_l, c}
    }

    /** All arrays hold one block, and no two of them are the same array. */
    ghost predicate Valid() {
      && bufferSize >= 0
      && inputBuffer.Length == bufferSize
      && x_g.Length == bufferSize && x_l.Length == bufferSize && y_g.Length == bufferSize
      && y_l.Length == bufferSize && c.Length == bufferSize
      && inputBuffer != x_g && inputBuffer != x_l && inputBuffer != y_g && inputBuffer != y_l && inputBuffer != c
      && x_g != x_l && x_g != y_g && x_g != y_l && x_g != c
      && x_l != y_g && x_l != y_l && x_l != c
      && y_g != y_l && y_g != c
      && y_l != c
    }

    ghost function Current(): Settings
      reads this
    {
      Settings(ratio, threshold, makeUpGain, tauAttack, tauRelease,
               alphaAttack, alphaRelease, yL_prev, sampleRate, compressorONOFF, autoTime)
    }

    /**
     * The work arrays hold the gain computation of block `xs`: its levels,
     * the static curve and the reductions under the current threshold and
     * ratio, their smoothing from `prev` with the current coefficients, and
     * the control gains; the carried reduction is the block's last smoothed
     * value.
     */
    ghost predicate Gains(xs: seq<real>, prev: real, log10: real -> real, pow10: real -> real)
      reads this, x_g, y_g, x_l, y_l, c
    {
      && ratio != 0.0
      && x_g[..] == Levels(xs, log10)
      && y_g[..] == Curve(x_g[..], threshold, ratio)
      && x_l[..] == Reductions(x_g[..], threshold, ratio)
      && y_l[..] == Envelope(x_l[..], prev, alphaAttack, alphaRelease)
      && c[..] == Controls(makeUpGain, y_l[..], pow10)
      && yL_prev == LastOr(y_l[..], prev)
    }

    /** Every entry of `a` is zero. */
    ghost predicate Silent(a: array<real>)
      reads a
    {
      forall i :: 0 <= i < a.Length ==> a[i] == 0.0
    }

    /**
     * Allocates five zeroed work arrays and a zeroed one-channel input copy
     * of `bufferSize` samples, switches compression and automatic timing off
     * and resets every parameter. The sample rate is left unassigned.
     */
    constructor (bufferSize: int)
      requires bufferSize >= 0
      ensures Valid() && fresh(Repr())
      ensures this.bufferSize == bufferSize
      ensures !compressorONOFF && !autoTime
      ensures tauAttack == 0.0 && tauRelease == 0.0 && alphaAttack == 0.0 && alphaRelease == 0.0
      ensures threshold == 0.0 && ratio == 1.0 && makeUpGain == 0.0 && yL_prev == 0.0
      ensures Silent(x_g) && Silent(x_l) && Silent(y_g) && Silent(y_l) && Silent(c) && Silent(inputBuffer)
    {
      this.bufferSize := bufferSize;
      x_g := new real[bufferSize](_ => 0.0);
      x_l := new real[bufferSize](_ => 0.0);
      y_g := new real[bufferSize](_ => 0.0);
      y_l := new real[bufferSize](_ => 0.0);
      c := new real[bufferSize](_ => 0.0);
      inputBuffer := new real[bufferSize](_ => 0.0);
      new;
      yL_prev := 0.0;
      autoTime := false;
      compressorONOFF := false;
      ResetAll();
    }

    /**
     * Computes one block of control gains from the first bufferSize samples
     * of `input`: level, static curve, gain reduction, smoothing against the
     * value carried from the previous block, and control gain. The smoothing
     * coefficients are recomputed from the time constants first.
     */
    method Compress(input: array<real>, smoothing: real -> real, log10: real -> real, pow10: real -> real)
      requires Valid()
      requires input.Length >= bufferSize
      requires input != x_g && input != x_l && input != y_g && input != y_l && input != c
      requires ratio != 0.0
      modifies this, x_g, x_l, y_g, y_l, c
      ensures Valid()
      ensures alphaAttack == SmoothingCoefficient(sampleRate, tauAttack, smoothing)
      ensures alphaRelease == SmoothingCoefficient(sampleRate, tauRelease, smoothing)
      ensures Current() == old(Current()).(alphaAttack := alphaAttack, alphaRelease := alphaRelease, yL_prev := yL_prev)
      ensures Gains(input[..bufferSize], old(yL_prev), log10, pow10)
    {
      alphaAttack := SmoothingCoefficient(sampleRate, tauAttack, smoothing);
      alphaRelease := SmoothingCoefficient(sampleRate, tauRelease, smoothing);
      ComputeGains(input, log10, pow10);
    }

    /**
     * The per-sample loop of compress, with the smoothing coefficients
     * already chosen: only the work arrays and the carried reduction change.
     */
    method ComputeGains(input: array<real>, log10: real -> real, pow10: real -> real)
      requires Valid()
      requires input.Length >= bufferSize
      requires input != x_g && input != x_l && input != y_g && input != y_l && input != c
      requires ratio != 0.0
      modifies this`yL_prev, x_g, x_l, y_g, y_l, c
      ensures Gains(input[..bufferSize], old(yL_prev), log10, pow10)
    {
      ghost var prev0 := yL_prev;
      ghost var XG := Levels(input[..bufferSize], log10);
      ghost var YG := Curve(XG, threshold, ratio);
      ghost var XL := Reductions(XG, threshold, ratio);
      ghost var YL := Envelope(XL, prev0, alphaAttack, alphaRelease);
      ghost var C := Controls(makeUpGain, YL, pow10);
      var i := 0;
      while i < bufferSize
        invariant 0 <= i <= bufferSize
        invariant forall k :: 0 <= k < i ==> x_g[k] == XG[k] && y_g[k] == YG[k] && x_l[k] == XL[k] && y_l[k] == YL[k] && c[k] == C[k]
        invariant yL_prev == Before(YL, i, prev0)
      {
        EnvelopeStep(XL, prev0, alphaAttack, alphaRelease, i);
        CompressSample(input, i, log10, pow10);
        i := i + 1;
      }
      assert x_g[..] == XG && y_g[..] == YG && x_l[..] == XL && y_l[..] == YL && c[..] == C;

    }

    /**
     * One pass of the loop body for sample i: its level, curve output and
     * reduction, then its smoothed reduction and control gain.
     */
    method CompressSample(input: array<real>, i: int, log10: real -> real, pow10: real -> real)
      requires Valid() && 0 <= i < bufferSize && input.Length >= bufferSize
      requires input != x_g && input != x_l && input != y_g && input != y_l && input != c
      requires ratio != 0.0
      modifies this`yL_prev, x_g, x_l, y_g, y_l, c
      ensures
        var xg := Level(input[i], log10);
        var xl := Reduction(xg, threshold, ratio);
        var first := if i == 0 then xl else old(x_l[0]);
        var yl := Smooth(Alpha(first, old(yL_prev), alphaAttack, alphaRelease), old(yL_prev), xl);
        && x_g[..] == old(x_g[..])[i := xg]
        && y_g[..] == old(y_g[..])[i := StaticCurve(xg, threshold, ratio)]
        && x_l[..] == old(x_l[..])[i := xl]
        && y_l[..] == old(y_l[..])[i := yl]
        && c[..] == old(c[..])[i := ControlGain(makeUpGain, yl, pow10)]
        && yL_prev == yl
    {
      var xg := Level(input[i], log10);
      var yg := StaticCurve(xg, threshold, ratio);
      x_g[i], y_g[i], x_l[i] := xg, yg, xg - yg;
      var yl: real;
      if x_l[0] > yL_prev {
        yl := Smooth(alphaAttack, yL_prev, x_l[i]);
      } else {
        yl := Smooth(alphaRelease, yL_prev, x_l[i]);
      }
      y_l[i], c[i] := yl, ControlGain(makeUpGain, yl, pow10);
      yL_prev := yl;
    }

    /**
     * Compresses channel 0 of a block in place. Threshold and ratio are first
     * overwritten with -100 dB and 100:1 on every call. When compression is
     * on, the first bufferSize samples are copied into the input buffer, the
     * control gains computed from them, and the first numSamples samples
     * multiplied by their gains; the input buffer then holds the compressed
     * block. When it is off, nothing else changes.
     */
    method ProcessSamples(samples: array<real>, numSamples: int, smoothing: real -> real, log10: real -> real, pow10: real -> real)
      requires Valid()
      requires samples !in Repr()
      requires compressorONOFF ==> samples.Length >= bufferSize && numSamples <= bufferSize
      modifies this, inputBuffer, x_g, x_l, y_g, y_l, c, samples
      ensures Valid()
      ensures threshold == -100.0 && ratio == 100.0
      ensures !compressorONOFF ==>
        && Current() == old(Current()).(threshold := -100.0, ratio := 100.0)
        && alphaAttack == old(alphaAttack) && alphaRelease == old(alphaRelease)
        && unchanged(samples, inputBuffer, x_g, x_l, y_g, y_l, c)
      ensures compressorONOFF ==>
        && Current() == old(Current()).(threshold := -100.0, ratio := 100.0,
             alphaAttack := alphaAttack, alphaRelease := alphaRelease, yL_prev := yL_prev)
        && alphaAttack == SmoothingCoefficient(sampleRate, tauAttack, smoothing)
        && alphaRelease == SmoothingCoefficient(sampleRate, tauRelease, smoothing)
        && Gains(old(samples[..bufferSize]), old(yL_prev), log10, pow10)
        && (forall i :: 0 <= i < numSamples ==> samples[i] == Amplify(old(samples[i]), c[i]))
        && (forall i :: BlockLength(numSamples) <= i < samples.Length ==> samples[i] == old(samples[i]))
        && inputBuffer[..] == samples[..bufferSize]
    {
      threshold := -100.0;
      ratio := 100.0;
      if compressorONOFF {
        if threshold < 0.0 {
          CompressBlock(samples, numSamples, smoothing, log10, pow10);
        }
      }
    }

    /**
     * The body of processSamples when compression is on: copy the block in,
     * compute its control gains, scale the first numSamples samples by them
     * and copy the compressed block back into the input buffer.
     */
    method CompressBlock(samples: array<real>, numSamples: int, smoothing: real -> real, log10: real -> real, pow10: real -> real)
      requires Valid() && samples !in Repr()
      requires samples.Length >= bufferSize && numSamples <= bufferSize
      requires ratio != 0.0
      modifies this, inputBuffer, x_g, x_l, y_g, y_l, c, samples
      ensures Valid()
      ensures Current() == old(Current()).(alphaAttack := alphaAttack, alphaRelease := alphaRelease, yL_prev := yL_prev)
      ensures alphaAttack == SmoothingCoefficient(sampleRate, tauAttack, smoothing)
      ensures alphaRelease == SmoothingCoefficient(sampleRate, tauRelease, smoothing)
      ensures Gains(old(samples[..bufferSize]), old(yL_prev), log10, pow10)
      ensures forall i :: 0 <= i < numSamples ==> samples[i] == Amplify(old(samples[i]), c[i])
      ensures forall i :: BlockLength(numSamples) <= i < samples.Length ==> samples[i] == old(samples[i])
      ensures inputBuffer[..] == samples[..bufferSize]
    {
      CopyBlock(samples);
      assert inputBuffer[..bufferSize] == old(samples[..bufferSize]);
      Compress(inputBuffer, smoothing, log10, pow10);
      assert Gains(old(samples[..bufferSize]), old(yL_prev), log10, pow10);
      ApplyGains(samples, numSamples);
      CopyBlock(samples);
    }

    /** Multiplies each of the first numSamples samples by its control gain, in place. */
    method ApplyGains(samples: array<real>, numSamples: int)
      requires Valid() && samples !in Repr()
      requires numSamples <= bufferSize && numSamples <= samples.Length
      modifies samples
      ensures forall k :: 0 <= k < numSamples ==> samples[k] == Amplify(old(samples[k]), c[k])
      ensures forall k :: BlockLength(numSamples) <= k < samples.Length ==> samples[k] == old(samples[k])
    {
      var i := 0;
      while i < numSamples
        invariant 0 <= i <= BlockLength(numSamples)
        invariant forall k :: 0 <= k < i ==> samples[k] == Amplify(old(samples[k]), c[k])
        invariant forall k :: i <= k < samples.Length ==> samples[k] == old(samples[k])
      {
        samples[i] := Amplify(samples[i], c[i]);
        i := i + 1;
      }
    }

    /** Clears the input buffer and adds the first bufferSize samples of `samples` to it. */
    method CopyBlock(samples: array<real>)
      requires Valid() && samples !in Repr()
      requires samples.Length >= bufferSize
      modifies inputBuffer
      ensures inputBuffer[..] == samples[..bufferSize]
    {
      var i := 0;
      while i < bufferSize
        invariant 0 <= i <= bufferSize
        invariant forall k :: 0 <= k < i ==> inputBuffer[k] == samples[k]
      {
        inputBuffer[i] := samples[i];
        i := i + 1;
      }
    }

    /**
     * Zeroes the time constants, smoothing coefficients, threshold, make-up
     * gain and carried reduction, sets the ratio to 1, and zeroes every entry
     * of the five work arrays.
     */
    method ResetAll()
      requires Valid()
      modifies this, x_g, x_l, y_g, y_l, c
      ensures Valid()
      ensures Current() == old(Current()).(tauAttack := 0.0, tauRelease := 0.0,
        alphaAttack := 0.0, alphaRelease := 0.0, threshold := 0.0, ratio := 1.0,
        makeUpGain := 0.0, yL_prev := 0.0)
      ensures Silent(x_g) && Silent(x_l) && Silent(y_g) && Silent(y_l) && Silent(c)
    {
      tauAttack, tauRelease := 0.0, 0.0;
      alphaAttack, alphaRelease := 0.0, 0.0;
      threshold := 0.0;
      ratio := 1.0;
      makeUpGain := 0.0;
      yL_prev := 0.0;
      ClearWork();
    }

    /** The loop of resetAll: zeroes all bufferSize entries of the five work arrays. */
    method ClearWork()
      requires Valid()
      modifies x_g, x_l, y_g, y_l, c
      ensures Silent(x_g) && Silent(x_l) && Silent(y_g) && Silent(y_l) && Silent(c)
    {
      var i := 0;
      while i < bufferSize
        invariant 0 <= i <= bufferSize
        invariant forall k :: 0 <= k < i ==>
          x_g[k] == 0.0 && y_g[k] == 0.0 && x_l[k] == 0.0 && y_l[k] == 0.0 && c[k] == 0.0
      {
        x_g[i], y_g[i] := 0.0, 0.0;
        x_l[i], y_l[i] := 0.0, 0.0;
        c[i] := 0.0;
        i := i + 1;
      }
    }

    /** Stores the sample rate and the on/off switch. */
    method MakeCompressor(sr: int, cOO: bool)
      modifies this
      ensures Current() == old(Current()).(sampleRate := sr, compressorONOFF := cOO)
    {
      sampleRate := sr;
      compressorONOFF := cOO;
    }

    function GetThreshold(): real
      reads this
    {
      threshold
    }

    function GetRatio(): real
      reads this
    {
      ratio
    }

    function GetGain(): real
      reads this
    {
      makeUpGain
    }

    function GetAttackTime(): real
      reads this
    {
      tauAttack
    }

    function GetReleaseTime(): real
      reads this
    {
      tauRelease
    }

    method SetThreshold(t: real)
      modifies this
      ensures GetThreshold() == t
      ensures Current() == old(Current()).(threshold := t)
    {
      threshold := t;
    }

    method SetGain(g: real)
      modifies this
      ensures GetGain() == g
      ensures Current() == old(Current()).(makeUpGain := g)
    {
      makeUpGain := g;
    }

    method SetRatio(r: real)
      modifies this
      ensures GetRatio() == r
      ensures Current() == old(Current()).(ratio := r)
    {
      ratio := r;
    }

    method SetAttackTime(a: real)
      modifies this
      ensures GetAttackTime() == a
      ensures Current() == old(Current()).(tauAttack := a)
    {
      tauAttack := a;
    }

    method SetReleaseTime(r: real)
      modifies this
      ensures GetReleaseTime() == r
      ensures Current() == old(Current()).(tauRelease := r)
    {
      tauRelease := r;
    }

    /** The sample rate is stored in an int field, so the fraction is dropped. */
    method SetSampleRate(sr: real)
      modifies this
      ensures sampleRate == Truncate(sr)
      ensures Current() == old(Current()).(sampleRate := Truncate(sr))
    {
      sampleRate := Truncate(sr);
    }
  }
}
