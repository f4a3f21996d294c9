/**
 * The grain scheduler of a granular "shuffle" effect, as values: a circular
 * buffer of recent input, one write position, a fixed set of read grains and
 * a sample counter that schedules grain starts. Every sample is written to
 * the buffer first; then each grain may start (at a random buffer position),
 * contributes its buffer sample times a window value to the output, and
 * advances.
 */
module GrainSpec {

  /** The number of read grains (overlapping voices). */
  const Voices: int := 4

  /**
   * One read grain: its position inside the grain (-1 when inactive), the
   * grain size recorded when it started, and its read position in the buffer.
   */
  datatype Grain = Grain(position: int, size: int, readPos: int)

  /** The state the effect carries from one sample to the next. */
  datatype Shuffle = Shuffle(buf: seq<real>, write: int, grains: seq<Grain>, counter: int)

  /** A block's final state and what it added to each output sample. */
  datatype Block = Block(state: Shuffle, mix: seq<real>)

  /** A buffer position: inside a buffer of n samples, or 0 when the buffer is empty. */
  predicate Cursor(p: int, n: int) {
    p == 0 || 0 <= p < n
  }

  /** A grain is inactive or inside its recorded size, and reads inside the buffer. */
  predicate GrainOk(g: Grain, n: int) {
    && g.size >= 0
    && (g.position == -1 || 0 <= g.position < g.size)
    && Cursor(g.readPos, n)
  }

  /** The invariant of the effect's state: every position inside the buffer, four well-formed grains. */
  predicate WF(st: Shuffle) {
    && Cursor(st.write, |st.buf|)
    && |st.grains| == Voices
    && forall j :: 0 <= j < Voices ==> GrainOk(st.grains[j], |st.buf|)
  }

  /** Every random start index drawn for samples 0..count-1 lies inside a buffer of n samples. */
  predicate DrawsIn(draw: (int, int) -> int, count: int, n: int) {
    forall i, j :: 0 <= i < count && 0 <= j < Voices ==> 0 <= draw(i, j) < n
  }

  /** A position advanced by one, returning to 0 when it reaches the buffer length. */
  function Wrap(p: int, n: int): (q: int) {
    if p + 1 == n then 0 else p + 1
  }

  /** Advancing and wrapping at n is adding one modulo n. */
  lemma WrapIsSuccessor(p: int, n: int)
    requires 0 <= p < n
    ensures Wrap(p, n) == (p + 1) % n
    ensures 0 <= Wrap(p, n) < n
  {
  }

  /**
   * Grain j starts when it is inactive and the counter has reached j hops:
   * its position becomes 0, it records the current grain size and reads from
   * the drawn index r. Otherwise it is left as it is.
   */
  function Start(g: Grain, j: int, hop: int, counter: int, grainSize: int, r: int): (started: Grain) {
    if j * hop == counter && g.position < 0 then Grain(0, grainSize, r) else g
  }

  /**
   * A grain changes at the start point exactly when it is inactive and on
   * schedule; an active grain is never restarted.
   */
  lemma StartSchedule(g: Grain, j: int, hop: int, counter: int, grainSize: int, r: int)
    ensures Start(g, j, hop, counter, grainSize, r) != g <==> (g.position < 0 && j * hop == counter)
    ensures g.position >= 0 ==> Start(g, j, hop, counter, grainSize, r) == g
    ensures g.position < 0 && j * hop == counter ==>
      Start(g, j, hop, counter, grainSize, r) == Grain(0, grainSize, r)
  {
  }

  /**
   * The end of a grain's visit: the read position advances and wraps, an
   * active grain moves one step on, and a grain that reaches its size
   * becomes inactive.
   */
  function Tick(g: Grain, n: int): (ticked: Grain) {
    var p := if g.position > -1 then g.position + 1 else g.position;
    Grain(if p >= g.size then -1 else p, g.size, Wrap(g.readPos, n))
  }

  /**
   * Tick keeps a grain well formed: an inactive grain stays inactive, an
   * active one moves on by one or ends at its size, its size is kept, and
   * its read position moves on by one modulo the buffer length.
   */
  lemma TickKeepsGrain(g: Grain, n: int)
    requires n > 0 && GrainOk(g, n)
    ensures GrainOk(Tick(g, n), n)
    ensures Tick(g, n).size == g.size
    ensures Tick(g, n).readPos == (g.readPos + 1) % n
    ensures g.position == -1 ==> Tick(g, n).position == -1
    ensures g.position >= 0 && g.position + 1 < g.size ==> Tick(g, n).position == g.position + 1
    ensures g.position >= 0 && g.position + 1 == g.size ==> Tick(g, n).position == -1
  {
    WrapIsSuccessor(g.readPos, n);
  }

  /** The remainder is the only r in [0, n) that leaves a multiple of n. */
  lemma ModUnique(x: int, n: int, q: int, r: int)
    requires n > 0 && 0 <= r < n && x == q * n + r
    ensures x % n == r
  {
    var d := q - x / n;
    assert d * n == x % n - r;
  }

  /** Adding one after reducing is adding one before reducing. */
  lemma ModSuccessor(a: int, n: int)
    requires n > 0
    ensures (a % n + 1) % n == (a + 1) % n
  {
    var q, r := a / n, a % n;
    assert a + 1 == q * n + (r + 1);
    if r + 1 < n {
      ModUnique(a + 1, n, q, r + 1);
      ModUnique(r + 1, n, 0, r + 1);
    } else {
      assert a + 1 == (q + 1) * n + 0;
      ModUnique(a + 1, n, q + 1, 0);
      ModUnique(r + 1, n, 1, 0);
    }
  }

  /** A grain after k visits without restarts. */
  function Ticks(g: Grain, n: int, k: nat): (ticked: Grain) {
    if k == 0 then g else Tick(Ticks(g, n, k - 1), n)
  }

  /**
   * The lifetime of a grain: started with size s at buffer index b, it is at
   * position k for its first s samples and inactive afterwards unless
   * restarted, while its read position walks through the buffer one sample at
   * a time. Only ticks are applied here, not the start check that restarts an
   * inactive grain when the counter comes back to its slot.
   */
  lemma {:induction false} Lifetime(s: int, b: int, n: int, k: nat)
    requires s > 0 && 0 <= b < n
    ensures Ticks(Grain(0, s, b), n, k) == Grain(if k < s then k else -1, s, (b + k) % n)
  {
    if k > 0 {
      var g := Ticks(Grain(0, s, b), n, k - 1);
      var r := (b + k - 1) % n;
      Lifetime(s, b, n, k - 1);
      assert g == Grain(if k - 1 < s then k - 1 else -1, s, r);
      WrapIsSuccessor(r, n);
      ModSuccessor(b + k - 1, n);
      assert Wrap(r, n) == (b + k) % n;
      assert Tick(g, n).position == if k < s then k else -1;
    }
  }

  /** The sample a grain adds to the output: its buffer sample times the window value. */
  function Contribution(buf: seq<real>, g: Grain, window: (int, int) -> real): real
    requires 0 <= g.readPos < |buf|
  {
    buf[g.readPos] * window(g.position, g.size)
  }

  /** The contributions of the first k grains, added in grain order. */
  function Mix(buf: seq<real>, gs: seq<Grain>, k: nat, window: (int, int) -> real): real
    requires k <= |gs|
    requires forall j :: 0 <= j < |gs| ==> 0 <= gs[j].readPos < |buf|
  {
    if k == 0 then 0.0 else Mix(buf, gs, k - 1, window) + Contribution(buf, gs[k - 1], window)
  }

  /** Every grain of a sample, after the start check, with the draws of sample i. */
  function StartAll(gs: seq<Grain>, hop: int, counter: int, grainSize: int, draw: (int, int) -> int, i: int): (started: seq<Grain>)
    ensures |started| == |gs|
    ensures forall j :: 0 <= j < |gs| ==> started[j] == Start(gs[j], j, hop, counter, grainSize, draw(i, j))
  {
    seq(|gs|, j requires 0 <= j < |gs| => Start(gs[j], j, hop, counter, grainSize, draw(i, j)))
  }

  /** Every grain after its visit. */
  function TickAll(gs: seq<Grain>, n: int): (ticked: seq<Grain>)
    ensures |ticked| == |gs|
    ensures forall j :: 0 <= j < |gs| ==> ticked[j] == Tick(gs[j], n)
  {
    seq(|gs|, j requires 0 <= j < |gs| => Tick(gs[j], n))
  }

  /** The starts keep the grains well formed when the drawn indices are inside the buffer. */
  lemma StartAllKeepsGrains(st: Shuffle, hop: int, grainSize: int, draw: (int, int) -> int, i: int)
    requires WF(st) && grainSize > 0 && DrawsIn(draw, i + 1, |st.buf|) && i >= 0
    ensures forall j :: 0 <= j < Voices ==>
      GrainOk(StartAll(st.grains, hop, st.counter, grainSize, draw, i)[j], |st.buf|)
  {
    var started := StartAll(st.grains, hop, st.counter, grainSize, draw, i);
    forall j | 0 <= j < Voices
      ensures GrainOk(started[j], |st.buf|)
    {
      assert 0 <= draw(i, j) < |st.buf|;
    }
  }

  /**
   * One sample: x is stored at the write position, each grain is started if
   * due, read from the updated buffer and advanced, then the write position
   * advances and the counter moves on modulo the grain size.
   */
  function SampleStep(st: Shuffle, x: real, i: int, hop: int, grainSize: int,
                      draw: (int, int) -> int, window: (int, int) -> real): (r: Block)
    requires WF(st) && |st.buf| > 0 && grainSize > 0
    requires i >= 0 && DrawsIn(draw, i + 1, |st.buf|)
    ensures WF(r.state) && |r.state.buf| == |st.buf| && |r.mix| == 1
  {
    var n := |st.buf|;
    var buf := st.buf[st.write := x];
    var started := StartAll(st.grains, hop, st.counter, grainSize, draw, i);
    StartAllKeepsGrains(st, hop, grainSize, draw, i);
    var ticked := TickAll(started, n);
    assert forall j :: 0 <= j < Voices ==> GrainOk(ticked[j], n) by {
      forall j | 0 <= j < Voices
        ensures GrainOk(ticked[j], n)
      {
        TickKeepsGrain(started[j], n);
      }
    }
    Block(Shuffle(buf, Wrap(st.write, n), ticked, (st.counter + 1) % grainSize),
          [Mix(buf, started, Voices, window)])
  }

  /** The precondition of a block: draws inside the buffer, and a buffer and grain size for any sample. */
  predicate Runnable(st: Shuffle, count: int, grainSize: int, draw: (int, int) -> int) {
    WF(st) && (count > 0 ==> |st.buf| > 0 && grainSize > 0) && DrawsIn(draw, count, |st.buf|)
  }

  /** A block that can be run can be cut short. */
  lemma RunnablePrefix(st: Shuffle, m: int, k: int, grainSize: int, draw: (int, int) -> int)
    requires Runnable(st, m, grainSize, draw) && 0 <= k <= m
    ensures Runnable(st, k, grainSize, draw)
  {
  }

  /** A block of input samples, sample i using the draws draw(i, _). */
  function Run(st: Shuffle, xs: seq<real>, hop: int, grainSize: int,
               draw: (int, int) -> int, window: (int, int) -> real): (r: Block)
    requires Runnable(st, |xs|, grainSize, draw)
    ensures WF(r.state) && |r.state.buf| == |st.buf| && |r.mix| == |xs|
    decreases |xs|
  {
    if xs == [] then Block(st, [])
    else
      var i := |xs| - 1;
      var before := Run(st, xs[..i], hop, grainSize, draw, window);
      var step := SampleStep(before.state, xs[i], i, hop, grainSize, draw, window);
      Block(step.state, before.mix + step.mix)
  }

  /** The first i + 1 samples of a block are its first i samples followed by the step of sample i. */
  lemma RunExtends(st: Shuffle, xs: seq<real>, hop: int, grainSize: int,
                   draw: (int, int) -> int, window: (int, int) -> real, i: nat)
    requires Runnable(st, |xs|, grainSize, draw) && i < |xs|
    ensures
      var before := Run(st, xs[..i], hop, grainSize, draw, window);
      var step := SampleStep(before.state, xs[i], i, hop, grainSize, draw, window);
      Run(st, xs[..i + 1], hop, grainSize, draw, window) == Block(step.state, before.mix + step.mix)
  {
    var ys := xs[..i + 1];
    assert ys[..i] == xs[..i];
  }

  /**
   * Each sample of a block: sample i is written at the write position left
   * by the samples before it, the write position then moves on by one modulo
   * the buffer length, and the counter ends inside [0, grainSize).
   */
  lemma RunSample(st: Shuffle, xs: seq<real>, hop: int, grainSize: int,
                  draw: (int, int) -> int, window: (int, int) -> real, i: nat)
    requires Runnable(st, |xs|, grainSize, draw) && i < |xs|
    ensures
      var before := Run(st, xs[..i], hop, grainSize, draw, window).state;
      var after := Run(st, xs[..i + 1], hop, grainSize, draw, window).state;
      && after.buf == before.buf[before.write := xs[i]]
      && after.write == (before.write + 1) % |st.buf|
      && 0 <= after.counter < grainSize
  {
    RunExtends(st, xs, hop, grainSize, draw, window, i);
    var before := Run(st, xs[..i], hop, grainSize, draw, window).state;
    WrapIsSuccessor(before.write, |st.buf|);
  }

  /**
   * Read after write: a grain that reads at the write position in the sample
   * being processed reads that sample's input.
   */
  lemma ReadAfterWrite(st: Shuffle, x: real, g: Grain, window: (int, int) -> real)
    requires WF(st) && |st.buf| > 0 && g.readPos == st.write
    ensures Contribution(st.buf[st.write := x], g, window) == x * window(g.position, g.size)
  {
  }
}
