/**
 * The granulator object: a one-channel buffer of recent input, its write
 * position, four read grains kept as three parallel vectors (grain
 * position, recorded grain size, read position in the buffer), the grain
 * size and hop, and the sample counter that schedules grain starts.
 */
module GranulatorModel {
  import opened GrainSpec
  import opened Blocks

  /** The grains of three parallel vectors: position, recorded size and read position. */
  function Zip(positions: seq<int>, sizes: seq<int>, readPos: seq<int>): (gs: seq<Grain>)
    requires |positions| == |sizes| == |readPos|
    ensures |gs| == |positions|
    ensures forall j :: 0 <= j < |gs| ==> gs[j] == Grain(positions[j], sizes[j], readPos[j])
  {
    seq(|positions|, j requires 0 <= j < |positions| => Grain(positions[j], sizes[j], readPos[j]))
  }

  class Granulator {
    /** The buffer grains are read from, allocated once with the maximum block size. */
    const grainBuf: array<real>
    /** Where the next input sample is written; the write pointer is this index into grainBuf. */
    var writePos: int
    /** Per grain: its position inside the grain, -1 when inactive. */
    var grainPositions: seq<int>
    /** Per grain: the grain size recorded when it started. */
    var grainSizes: seq<int>
    /** Per grain: its read position in grainBuf; the grain's read pointer is this index. */
    var readPositions: seq<int>
    var grainSize: int
    var hopSize: int
    var sampCounter: int

    /** Four grains in the three vectors. */
    ghost predicate Shaped()
      reads this
    {
      |grainPositions| == Voices && |grainSizes| == Voices && |readPositions| == Voices
    }

    /** Grain j, read from the three vectors. */
    ghost function GrainAt(j: int): Grain
      reads this
      requires Shaped() && 0 <= j < Voices
    {
      Grain(grainPositions[j], grainSizes[j], readPositions[j])
    }

    /** The effect's state as a value. */
    ghost function State(): Shuffle
      reads this, grainBuf
      requires Shaped()
    {
      Shuffle(grainBuf[..], writePos, Zip(grainPositions, grainSizes, readPositions), sampCounter)
    }

    /**
     * The object's invariant: the write position and every read position lie
     * inside the buffer, and every grain is inactive or inside its recorded size.
     */
    ghost predicate Valid()
      reads this, grainBuf
    {
      Shaped() && WF(State())
    }

    /**
     * Allocates the buffer of maxBufSize samples (its contents are not
     * initialised) with the write position at 0, and four inactive grains of
     * size 0 reading at position 0. Grain size, hop and counter are left
     * unassigned.
     */
    constructor (maxBufSize: int)
      requires maxBufSize >= 0
      ensures Valid() && fresh(grainBuf)
      ensures grainBuf.Length == maxBufSize && writePos == 0
      ensures grainPositions == [-1, -1, -1, -1]
      ensures grainSizes == [0, 0, 0, 0]
      ensures readPositions == [0, 0, 0, 0]
      ensures forall j :: 0 <= j < Voices ==> State().grains[j] == Grain(-1, 0, 0)
    {
      grainBuf := new real[maxBufSize];
      new;
      writePos := 0;
      grainPositions, grainSizes, readPositions := [], [], [];
      var i := 0;
      while i < 4
        invariant 0 <= i <= 4 && writePos == 0
        invariant |grainPositions| == |grainSizes| == |readPositions| == i
        invariant forall k :: 0 <= k < i ==> grainPositions[k] == -1 && grainSizes[k] == 0 && readPositions[k] == 0
      {
        readPositions := readPositions + [0];
        grainPositions := grainPositions + [-1];
        grainSizes := grainSizes + [0];
        i := i + 1;
      }
      assert forall j :: 0 <= j < Voices ==> GrainAt(j) == Grain(-1, 0, 0);
    }

    /** Stores the grain size and sets the hop to a quarter of it, rounded down. */
    method UpdateParameters(grainSize: nat)
      modifies this`grainSize, this`hopSize
      ensures this.grainSize == grainSize
      ensures 0 <= hopSize && 4 * hopSize <= grainSize < 4 * hopSize + 4
    {
      this.grainSize := grainSize;
      hopSize := this.grainSize / 4;
    }

    /**
     * Processes samples in[0..numSamples): each sample is stored at the write
     * position, every grain adds its windowed buffer sample to out[i] (which
     * is accumulated into, not overwritten) and advances, then the write
     * position advances, wrapping at the buffer length, and the counter moves
     * on modulo the grain size. draw(i, j) is the random start index drawn
     * for grain j at sample i; window(position, size) is the Hann window value.
     */
    method ApplyShuffle(input: array<real>, out: array<real>, numSamples: int,
                        draw: (int, int) -> int, window: (int, int) -> real)
      requires Valid() && input != grainBuf && out != grainBuf
      requires numSamples <= input.Length && numSamples <= out.Length
      requires numSamples > 0 ==> grainBuf.Length > 0 && grainSize > 0
      requires DrawsIn(draw, numSamples, grainBuf.Length)
      modifies this`writePos, this`grainPositions, this`grainSizes, this`readPositions, this`sampCounter, grainBuf, out
      ensures Valid()
      ensures
        var block := Run(old(State()), old(input[..BlockLength(numSamples)]), hopSize, grainSize, draw, window);
        && State() == block.state
        && forall k :: 0 <= k < BlockLength(numSamples) ==> out[k] == old(out[k]) + block.mix[k]
      ensures forall k :: BlockLength(numSamples) <= k < out.Length ==> out[k] == old(out[k])
    {
      ghost var st0 := State();
      ghost var xs := input[..BlockLength(numSamples)];
      ghost var o0 := out[..];
      var i := 0;
      ghost var block := Block(st0, []);
      assert xs[..0] == [];
      while i < numSamples
        invariant 0 <= i <= |xs| && Valid() && Runnable(st0, |xs|, grainSize, draw)
        invariant Progress(input, out, i, st0, xs, o0, block, draw, window)
      {
        block := ShuffleStep(input, out, i, st0, xs, o0, block, draw, window);
        i := i + 1;
      }
      assert xs[..i] == xs;
    }

    /**
     * After the first i samples of a block xs started from st0: the object
     * holds the state those samples lead to, out[0..i) has received their
     * mix on top of its earlier contents o0, the rest of out is as it was,
     * and the samples still to come are unchanged in the input.
     */
    ghost predicate Progress(input: array<real>, out: array<real>, i: nat, st0: Shuffle, xs: seq<real>,
                             o0: seq<real>, block: Block, draw: (int, int) -> int, window: (int, int) -> real)
      reads this, grainBuf, input, out
    {
      && i <= |xs| <= input.Length && |xs| <= out.Length && |o0| == out.Length
      && Shaped() && Runnable(st0, |xs|, grainSize, draw)
      && block == Run(st0, xs[..i], hopSize, grainSize, draw, window)
      && State() == block.state
      && (forall k :: 0 <= k < i ==> out[k] == o0[k] + block.mix[k])
      && (forall k :: i <= k < out.Length ==> out[k] == o0[k])
      && (forall k :: i <= k < |xs| ==> input[k] == xs[k])
    }

    /** Sample i of a block, processed in place, carries the block's progress from i to i + 1 samples. */
    method ShuffleStep(input: array<real>, out: array<real>, i: nat, ghost st0: Shuffle, ghost xs: seq<real>,
                       ghost o0: seq<real>, ghost before: Block, draw: (int, int) -> int, window: (int, int) -> real)
        returns (ghost after: Block)
      requires Valid() && input != grainBuf && out != grainBuf && i < |xs|
      requires Progress(input, out, i, st0, xs, o0, before, draw, window)
      modifies this`writePos, this`grainPositions, this`grainSizes, this`readPositions, this`sampCounter, grainBuf, out
      ensures Valid() && Progress(input, out, i + 1, st0, xs, o0, after, draw, window)
    {
      RunnablePrefix(st0, |xs|, i + 1, grainSize, draw);
      RunExtends(st0, xs, hopSize, grainSize, draw, window, i);
      ProcessSample(input[i], i, out, draw, window);
      after := Run(st0, xs[..i + 1], hopSize, grainSize, draw, window);
      assert after.mix[..i] == before.mix;
    }

    /**
     * One pass of the outer loop of applyShuffle: store x at the write
     * position, let every grain read, then advance the write position and
     * the counter.
     */
    method ProcessSample(x: real, i: int, out: array<real>, draw: (int, int) -> int, window: (int, int) -> real)
      requires Valid() && out != grainBuf && 0 <= i < out.Length
      requires grainBuf.Length > 0 && grainSize > 0 && DrawsIn(draw, i + 1, grainBuf.Length)
      modifies this`writePos, this`grainPositions, this`grainSizes, this`readPositions, this`sampCounter, grainBuf, out
      ensures Valid()
      ensures
        var step := SampleStep(old(State()), x, i, hopSize, grainSize, draw, window);
        && State() == step.state
        && out[i] == old(out[i]) + step.mix[0]
      ensures forall k :: 0 <= k < out.Length && k != i ==> out[k] == old(out[k])
    {
      ghost var step := SampleStep(State(), x, i, hopSize, grainSize, draw, window);
      var numSamps := grainBuf.Length;
      grainBuf[writePos] := x;
      assert grainBuf[..] == step.state.buf;
      ReadGrains(i, out, draw, window);
      assert Zip(grainPositions, grainSizes, readPositions) == step.state.grains;
      writePos := writePos + 1;
      if writePos == numSamps {
        writePos := 0;
      }
      sampCounter := sampCounter + 1;
      sampCounter := sampCounter % grainSize;
      assert State() == step.state;
    }

    /**
     * The inner loop of applyShuffle for sample i, after the input sample has
     * been stored: each grain in turn starts if it is due, adds its buffer
     * sample times its window value to out[i], and advances.
     */
    method ReadGrains(i: int, out: array<real>, draw: (int, int) -> int, window: (int, int) -> real)
      requires Valid() && out != grainBuf && 0 <= i < out.Length
      requires grainBuf.Length > 0 && grainSize > 0 && DrawsIn(draw, i + 1, grainBuf.Length)
      modifies this`grainPositions, this`grainSizes, this`readPositions, out
      ensures Shaped()
      ensures
        var started := StartAll(old(State()).grains, hopSize, sampCounter, grainSize, draw, i);
        && State().grains == TickAll(started, grainBuf.Length)
        && out[i] == old(out[i]) + Mix(grainBuf[..], started, Voices, window)
      ensures forall k :: 0 <= k < out.Length && k != i ==> out[k] == old(out[k])
    {
      var numSamps := grainBuf.Length;
      ghost var g0 := State().grains;
      ghost var started := StartAll(g0, hopSize, sampCounter, grainSize, draw, i);
      StartAllKeepsGrains(State(), hopSize, grainSize, draw, i);
      ghost var buf := grainBuf[..];
      ghost var o := out[i];
      var j := 0;
      while j < |readPositions|
        invariant 0 <= j <= Voices && Shaped()
        invariant forall k :: 0 <= k < j ==> GrainAt(k) == Tick(started[k], numSamps)
        invariant forall k :: j <= k < Voices ==> GrainAt(k) == g0[k]
        invariant out[i] == o + Mix(buf, started, j, window)
        invariant forall k :: 0 <= k < out.Length && k != i ==> out[k] == old(out[k])
      {
        ReadGrain(i, j, out, draw(i, j), window);
        j := j + 1;
      }
      assert State().grains == TickAll(started, numSamps);
    }

    /**
     * One pass of the inner loop: grain j starts, reading from the drawn
     * index randNum, if it is inactive and the counter has reached j hops;
     * it then adds its buffer sample times its window value to out[i],
     * advances its read position (wrapping at the buffer length) and, when
     * active, its grain position, ending the grain at its recorded size.
     */
    method ReadGrain(i: int, j: int, out: array<real>, randNum: int, window: (int, int) -> real)
      requires Shaped() && 0 <= j < Voices && out != grainBuf && 0 <= i < out.Length
      requires 0 <= Start(GrainAt(j), j, hopSize, sampCounter, grainSize, randNum).readPos < grainBuf.Length
      modifies this`grainPositions, this`grainSizes, this`readPositions, out
      ensures Shaped()
      ensures
        var started := Start(old(GrainAt(j)), j, hopSize, sampCounter, grainSize, randNum);
        && GrainAt(j) == Tick(started, grainBuf.Length)
        && out[i] == old(out[i]) + Contribution(grainBuf[..], started, window)
      ensures forall k :: 0 <= k < Voices && k != j ==> GrainAt(k) == old(GrainAt(k))
      ensures forall k :: 0 <= k < out.Length && k != i ==> out[k] == old(out[k])
    {
      var numSamps := grainBuf.Length;
      if j * hopSize == sampCounter && grainPositions[j] < 0 {
        grainPositions := grainPositions[j := 0];
        grainSizes := grainSizes[j := grainSize];
        readPositions := readPositions[j := randNum];
      }
      var winVal := window(grainPositions[j], grainSizes[j]);
      out[i] := out[i] + grainBuf[readPositions[j]] * winVal;
      readPositions := readPositions[j := readPositions[j] + 1];
      if readPositions[j] == numSamps {
        readPositions := readPositions[j := 0];
      }
      if grainPositions[j] > -1 {
        grainPositions := grainPositions[j := grainPositions[j] + 1];
      }
      if grainPositions[j] >= grainSizes[j] {
        grainPositions := grainPositions[j := -1];
      }
    }
  }
}
