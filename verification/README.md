# Crossover, compressor and granulator: a verified model

This project models three per-sample audio components of the QMUL_DAFX plug-in
in Dafny, and proves what they compute.

- **The crossover filter stage** (`CrossoverFilter`):
  - the constructor;
  - `makeCrossover`, which derives b0..b2 and a0..a2 from the warped cutoff `wd1` and resets the delay lines;
  - `applyFilter`, a direct-form-I recursion whose input and output history live in two three-slot ring buffers;
  - `convolveCoefficients`, which multiplies two coefficient polynomials.
- **The feed-forward compressor** (`Compressor`):
  - the constructor;
  - `compress`: level detection, the static curve, gain reduction, attack/release smoothing carried across blocks in `yL_prev`, and the control gain;
  - `processSamples`, which applies the control gains to a block in place;
  - `resetAll`, `makeCompressor`, and the getters and setters.
- **The granulator** (`Granulator`):
  - the constructor and `updateParameters`;
  - `applyShuffle`, which writes each input sample into a circular buffer. Four read grains then start on a hop schedule, add their windowed buffer sample to the output, and advance.

Floating-point values are modelled as `real`. Transcendental functions and the random generator are function-typed parameters:

| parameter | stands for |
|---|---|
| `warp` | 1/tan(π·f) |
| `smoothing` | t ↦ exp(−1/t) |
| `log10` | log10 |
| `pow10` | 10^x |
| `window(position, size)` | the Hann window value |
| `draw(i, j)` | the random start index drawn for grain j at sample i |

Every state-changing operation is a method on a class that has the source's fields. Each method is proved against a specification function on values:

| module | specification functions |
|---|---|
| `FilterSpec` | `Filter` (the difference equation over the whole input history) |
| `Convolution` | `Convolve` |
| `GainComputer` | `Level`, `StaticCurve`, `Envelope`, … |
| `GrainSpec` | `SampleStep` and `Run` (the granulator as a state machine) |

The class invariants tie the objects to these values:

- `Crossover.CrossoverFilter.Valid`: both rings mirror the input and output histories, the cursors are equal, and the outputs are `Filter` of the inputs.
- `CompressorModel.Compressor.Valid`: the six arrays are distinct and one block long.
- `GranulatorModel.Granulator.Valid`: the write position and every read position are inside the buffer, and every grain is inactive or inside its recorded size.

The model follows the code in these places, where it departs from the textbook designs:

- The attack/release choice compares the block's *first* gain reduction `x_l[0]` with `yL_prev`, not `x_l[i]` (Source/Compressor.h:45).
- `processSamples` overwrites `threshold` and `ratio` with −100 and 100 on every call (Source/Compressor.h:54-55).
- Ratio is not clamped.
- `applyFilter` advances both cursors *before* storing the new sample (Source/CrossoverFilter.cpp:137-151).
- The coefficients are kept as the code assigns them (Source/CrossoverFilter.cpp:69-74). With them, the gain at zero frequency is 2/(wd1² + q·wd1 − 1), as `Crossover.ButterworthSteadyState` states.

## Model

| member | source | states |
|---|---|---|
| Crossover.CrossoverFilter.constructor | Source/CrossoverFilter.cpp:39-49 | three zero numerator and three zero denominator coefficients; two zero-filled delay lines of length 3; stored delay sizes equal to the line lengths |
| Crossover.WarpDenominatorPositive | Source/CrossoverFilter.cpp:69 | 1 + q·wd1 + wd1² is positive for every wd1, so b0 is always defined |
| Crossover.Butterworth | Source/CrossoverFilter.cpp:69-74 | the derived coefficients have b0 > 0, b1 = 2·b0, b2 = b0, a0 = 1, and b0·(1 + q·wd1 + wd1²) = 1 |
| Crossover.CrossoverFilter.SetCoefficients | Source/CrossoverFilter.cpp:69-74 | the six element assignments leave numerator and denominator equal to Butterworth(wd1) |
| Crossover.CrossoverFilter.MakeCrossover | Source/CrossoverFilter.cpp:51-79 | requires a positive cutoff; coefficients are Butterworth(warp(f)) whatever the highpass and linkwitzRiley flags are; both delay lines are zero-filled length-3 lines with both cursors 0; the stage invariant holds with empty history (the intended reset) |
| Crossover.CrossoverFilter.MakeCrossoverAsWritten | Source/CrossoverFilter.cpp:51-79 | the reset as written: same coefficients and cursors 0, but both delay lines become the one-element {0} while the stored sizes stay 3, so the stage invariant is broken |
| Crossover.ResetAsWrittenOverruns | Source/CrossoverFilter.cpp:76-78 | after the reset as written the next sample is written to slot 1 of a one-element vector, and that vector is shorter than the stored delay size 3 |
| Crossover.SteadyState | Source/CrossoverFilter.cpp:157-168 | a constant input x and a constant output y are a fixed point of the biquad exactly when (a0 + a1 + a2)·y = (b0 + b1 + b2)·x |
| Crossover.ButterworthSteadyState | Source/CrossoverFilter.cpp:69-74 | with the derived coefficients, x settles at y exactly when (wd1² + q·wd1 − 1)·y = 2·x |
| Crossover.Advance | Source/CrossoverFilter.cpp:137-147 | the cursor after increment-and-wrap is in [0, n), and is p + 1, or 0 when p + 1 reaches n |
| Crossover.Slot | Source/CrossoverFilter.cpp:158 | the slot read j writes back from cursor p is in [0, n), and is p − j, or p − j + n when j > p |
| Crossover.ZeroLineMirrorsEmpty | Source/CrossoverFilter.cpp:44-45 | a zero-filled ring mirrors the empty history at any cursor |
| Crossover.RingRead | Source/CrossoverFilter.cpp:162-163 | after the cursor advances, slot j ≥ 1 back holds the entry written j − 1 writes before the newest |
| Crossover.RingWrite | Source/CrossoverFilter.cpp:151 | advancing the cursor and writing v there leaves a ring that mirrors the history extended by v |
| Crossover.FilterExtends | Source/CrossoverFilter.cpp:151-172 | when the outputs are the filter's response to the inputs, appending the difference equation's next output extends that response by one |
| Crossover.FeedForwardSum | Source/CrossoverFilter.cpp:154-159 | the first inner loop computes Σ_{j<3} b_j·x[n−j] from a ring that mirrors the input history |
| Crossover.FeedBackSum | Source/CrossoverFilter.cpp:160-164 | the second inner loop subtracts Σ_{1≤j<3} a_j·y[n−j], reading slots that hold the outputs j − 1 writes back |
| Crossover.CrossoverFilter.AdvanceCursors | Source/CrossoverFilter.cpp:137-147 | both write cursors move on by one and wrap at 3, and stay equal |
| Crossover.CrossoverFilter.FilterStep | Source/CrossoverFilter.cpp:133-175 | one pass of the outer loop: sample i is replaced by the next output of the filter over the whole input history, the input history grows by the original sample, and the later samples are untouched |
| Crossover.CrossoverFilter.FilterSample | Source/CrossoverFilter.cpp:134-174 | one sample: the cursor advances by one modulo 3; both rings stay mirrors of their histories; the output is the difference equation's next value; the coefficients are unchanged |
| Crossover.CrossoverFilter.ApplyFilter | Source/CrossoverFilter.cpp:131-176 | samples[0..numSamples) are replaced by the filter's response to everything filtered since the last reset; the rest of the array is untouched; the history persists into the next call |
| FilterSpec.Filter | Source/CrossoverFilter.cpp:151-172 | the response of the direct-form-I recursion to a whole input history, one output per input; each output is stated by FilterAt |
| FilterSpec.FilterPrefix | Source/CrossoverFilter.cpp:133-174 | the filter is causal: the first k outputs are the response to the first k inputs |
| FilterSpec.FilterAt | Source/CrossoverFilter.cpp:151-168 | output n is the difference equation on inputs 0..n and outputs 0..n−1 |
| FilterSpec.BiquadOutput | Source/CrossoverFilter.cpp:154-168 | with three taps, the accumulated sums are b0·x0 + b1·x1 + b2·x2 − a1·y1 − a2·y2, divided by a0 |
| FilterSpec.BiquadDifferenceEquation | Source/CrossoverFilter.cpp:151-172 | y[n] = (b0·x[n] + b1·x[n−1] + b2·x[n−2] − a1·y[n−1] − a2·y[n−2]) / a0, with the signal zero before time 0 |
| FilterSpec.FilterSplit | Source/CrossoverFilter.cpp:131-176 | filtering a block in two consecutive calls gives the same outputs as filtering it in one |
| Convolution.Convolve | Source/CrossoverFilter.cpp:178-202 | the product has nf + ng − 1 coefficients, and output i is Σ_j f[j]·g[i−j] with g zero outside its indices |
| Convolution.WindowInBounds | Source/CrossoverFilter.cpp:192-193 | the bounds jmn..jmx of output i lie inside f, and i − j lies inside g |
| Convolution.WindowedSumIsConvolution | Source/CrossoverFilter.cpp:189-199 | summing only over jmn..jmx gives exactly output i of the convolution |
| Convolution.ConvolveRightIdentity | Source/CrossoverFilter.cpp:178-202 | convolving with the polynomial 1 returns f |
| Convolution.ConvolveLeftIdentity | Source/CrossoverFilter.cpp:178-202 | the polynomial 1 convolved with g returns g |
| Convolution.SelfConvolutionLength | Source/CrossoverFilter.cpp:89-99 | three coefficients convolved with themselves give five |
| Convolution.ConvolveCoefficients | Source/CrossoverFilter.cpp:178-202 | the nested accumulation loops return exactly Convolve(f, g) |
| CompressorModel.Compressor.constructor | Source/Compressor.h:7-21 | five zeroed work arrays and a zeroed input copy of bufferSize samples; compression and automatic timing off; every parameter reset as resetAll does |
| GainComputer.Level | Source/Compressor.h:38-39 | a sample with magnitude below 1e-6 has level −120 dB; any other sample has level 20·log10 of its magnitude |
| GainComputer.LevelSymmetric | Source/Compressor.h:38-39 | the detected level depends only on the magnitude of the sample |
| GainComputer.LevelFloor | Source/Compressor.h:38-39 | no sample is detected below −120 dB when 20·log10 stays at or above −120 dB from 1e-6 up |
| GainComputer.StaticCurve | Source/Compressor.h:41-42 | below the threshold the level passes unchanged; above it, the output's overshoot times the ratio is the input's overshoot |
| GainComputer.Reduction | Source/Compressor.h:43 | x_g − y_g is 0 below the threshold; above it, the reduction times the ratio is (ratio − 1) times the overshoot |
| GainComputer.ReductionBounds | Source/Compressor.h:41-43 | the gain reduction x_g − y_g is 0 below the threshold and 0 at ratio 1; above the threshold, with ratio ≥ 1, it lies in [0, x_g − threshold] |
| GainComputer.SmoothBetween | Source/Compressor.h:45-46 | with α in [0, 1], α·yL_prev + (1 − α)·x_l lies between yL_prev and x_l |
| GainComputer.Alpha | Source/Compressor.h:45-46 | attack is chosen exactly when the block's first reduction exceeds the previous smoothed value; release otherwise |
| GainComputer.Envelope | Source/Compressor.h:44-47 | one smoothed reduction per gain reduction; its steps are stated by EnvelopeStep and characterised by EnvelopeUnique |
| GainComputer.EnvelopePrefix | Source/Compressor.h:35-50 | the smoothed reductions of a prefix of the block are the prefix of the block's smoothed reductions |
| GainComputer.EnvelopeStep | Source/Compressor.h:45-49 | step i smooths x_l[i] against step i − 1 (yL_prev for the first step), with α chosen by x_l[0] |
| GainComputer.EnvelopeUnique | Source/Compressor.h:35-50 | a sequence is the envelope exactly when every one of its steps follows the ballistics |
| GainComputer.EnvelopeWithin | Source/Compressor.h:45-46 | with both coefficients in [0, 1], every smoothed value stays within any interval that holds yL_prev and all of the block's reductions |
| GainComputer.ControlGain | Source/Compressor.h:48 | the linear gain 10^((makeUpGain − y_l)/20), with 10^x a parameter; its order is stated by ControlGainOrder |
| GainComputer.ControlGainOrder | Source/Compressor.h:48 | with 10^x increasing and 10^0 = 1, more smoothed reduction never gives more gain, and a reduction equal to the make-up gain gives gain 1 |
| GainComputer.Truncate | Source/Compressor.h:142-145 | the float-to-int conversion drops the fraction, rounding toward zero |
| CompressorModel.SmoothingCoefficient | Source/Compressor.h:33-34 | the coefficient exp(−1/(0.001·sampleRate·τ)), with t ↦ exp(−1/t) a parameter; Compress states that both coefficients are recomputed with it |
| CompressorModel.Compressor.Compress | Source/Compressor.h:31-51 | α_attack and α_release are recomputed from the time constants; the work arrays hold level, curve, reduction, envelope and control gain of the block; yL_prev ends at the last smoothed value (the carried value for an empty block); nothing else changes |
| CompressorModel.Compressor.ComputeGains | Source/Compressor.h:35-50 | the per-sample loop fills all five arrays with their specification values and carries yL_prev to the last smoothed value |
| CompressorModel.Compressor.CompressSample | Source/Compressor.h:37-49 | one loop pass writes entry i of each array (level, curve, reduction, smoothed reduction with α chosen by x_l[0], control gain) and sets yL_prev to the new smoothed value |
| CompressorModel.Compressor.ProcessSamples | Source/Compressor.h:53-74 | threshold and ratio become −100 and 100 on every call; when off, nothing else changes (the smoothing coefficients included); when on, α_attack and α_release are recomputed from the time constants, the five work arrays hold level, curve (at −100 dB and 100:1), reduction, envelope and control gain of the original block, the first numSamples samples are multiplied by their control gains, later samples are untouched, yL_prev carries the block's last smoothed value, and the input copy holds the compressed block |
| CompressorModel.Compressor.CompressBlock | Source/Compressor.h:59-72 | copy in, compress, apply gains, copy out: α_attack and α_release are recomputed from the time constants; all five work arrays hold the gain computation of the original samples, under the current threshold and ratio; the samples are scaled by the control gains, and the input copy ends equal to the scaled block |
| CompressorModel.Compressor.ApplyGains | Source/Compressor.h:66-69 | each of the first numSamples samples is multiplied by its control gain, and no other sample changes |
| CompressorModel.Compressor.CopyBlock | Source/Compressor.h:61-62 | after clearing and adding, the input copy equals the first bufferSize samples |
| CompressorModel.Compressor.ResetAll | Source/Compressor.h:76-90 | time constants, coefficients, threshold, make-up gain and yL_prev become 0 and ratio 1; all five work arrays are zeroed; the other fields are unchanged |
| CompressorModel.Compressor.ClearWork | Source/Compressor.h:84-89 | all bufferSize entries of x_g, y_g, x_l, y_l and c become 0 |
| CompressorModel.Compressor.MakeCompressor | Source/Compressor.h:92-99 | stores the sample rate and the on/off switch; nothing else changes |
| CompressorModel.Compressor.GetThreshold | Source/Compressor.h:101-104 | the current threshold |
| CompressorModel.Compressor.GetRatio | Source/Compressor.h:105-108 | the current ratio |
| CompressorModel.Compressor.GetGain | Source/Compressor.h:109-112 | the current make-up gain |
| CompressorModel.Compressor.GetAttackTime | Source/Compressor.h:113-116 | the current attack time constant |
| CompressorModel.Compressor.GetReleaseTime | Source/Compressor.h:117-120 | the current release time constant |
| CompressorModel.Compressor.SetThreshold | Source/Compressor.h:122-125 | getThreshold returns the value set; nothing else changes |
| CompressorModel.Compressor.SetRatio | Source/Compressor.h:130-133 | getRatio returns the value set; nothing else changes |
| CompressorModel.Compressor.SetGain | Source/Compressor.h:126-129 | getGain returns the value set; nothing else changes |
| CompressorModel.Compressor.SetAttackTime | Source/Compressor.h:134-137 | getAttackTime returns the value set; nothing else changes |
| CompressorModel.Compressor.SetReleaseTime | Source/Compressor.h:138-141 | getReleaseTime returns the value set; nothing else changes |
| CompressorModel.Compressor.SetSampleRate | Source/Compressor.h:142-145 | the int field receives the rate with its fraction dropped; nothing else changes |
| GranulatorModel.Granulator.constructor | Source/Granulator.cpp:6-24 | a buffer of maxBufSize samples with write position 0, and four grains that are inactive (−1) with size 0 and read position 0; the invariant holds |
| GranulatorModel.Granulator.UpdateParameters | Source/Granulator.cpp:26-30 | stores the grain size and sets the hop to a quarter of it rounded down (4·hop ≤ grainSize < 4·hop + 4) |
| GranulatorModel.Granulator.ApplyShuffle | Source/Granulator.cpp:32-85 | the invariant is kept; the new state is Run of the old state over in[0..numSamples); out[i] gains the block's mix for sample i, added to what it held; entries from numSamples on are untouched |
| GranulatorModel.Granulator.ShuffleStep | Source/Granulator.cpp:35-84 | one pass of the outer loop: the state after i + 1 samples is Run over the first i + 1 inputs, out[0..i] holds what it held plus the mix, and later entries are untouched |
| GranulatorModel.Granulator.ProcessSample | Source/Granulator.cpp:36-83 | one outer pass moves the state by SampleStep and adds that step's mix to out[i] only |
| GranulatorModel.Granulator.ReadGrains | Source/Granulator.cpp:40-74 | the grains become TickAll(StartAll(grains)); out[i] gains the windowed samples of the four started grains, added in grain order; no other entry of out changes |
| GranulatorModel.Granulator.ReadGrain | Source/Granulator.cpp:42-73 | grain j becomes Tick(Start(grain j)) and out[i] gains its buffer sample times its window value; every other grain and entry of out is unchanged |
| GrainSpec.Wrap | Source/Granulator.cpp:62-66 | a position moved on by one, back to 0 at the buffer length (also the write position at :76-81); WrapIsSuccessor states it is the successor modulo the length |
| GrainSpec.Start | Source/Granulator.cpp:42-51 | the start check of grain j; StartSchedule states when it fires and what it sets |
| GrainSpec.Tick | Source/Granulator.cpp:61-73 | the advance of one grain after its read; TickKeepsGrain states what it keeps |
| GrainSpec.Mix | Source/Granulator.cpp:55-58 | the windowed buffer samples of the first k grains, added in grain order; ReadGrains states that the loop adds exactly this |
| GrainSpec.WrapIsSuccessor | Source/Granulator.cpp:62-66 | advancing a position and wrapping at the buffer length is adding one modulo the length, and stays in [0, length) |
| GrainSpec.StartSchedule | Source/Granulator.cpp:42-51 | a grain changes at the start check exactly when it is inactive and the counter equals j·hop; an active grain is never restarted; a start gives position 0, the current grain size and the drawn index |
| GrainSpec.TickKeepsGrain | Source/Granulator.cpp:61-73 | a visit keeps a grain well formed and keeps its size; the read position moves on by one modulo the buffer length; an inactive grain stays at −1; an active grain moves on by one, or ends at −1 on reaching its size |
| GrainSpec.Lifetime | Source/Granulator.cpp:49-50 | a grain started at index b with size s is at position k for its first s samples and inactive afterwards unless restarted, while it reads index (b + k) mod n (ticks only: the start check, which restarts an inactive grain when the counter returns to j·hop, is not applied) |
| GrainSpec.StartAllKeepsGrains | Source/Granulator.cpp:45-51 | starting grains keeps every grain well formed when the drawn indices lie in [0, numSamps) |
| GrainSpec.SampleStep | Source/Granulator.cpp:36-83 | one sample keeps the invariant (write and read positions in the buffer, grains inactive or inside their size) and the buffer length, and yields one output value |
| GrainSpec.Run | Source/Granulator.cpp:35-84 | a block keeps the invariant and the buffer length, and yields one output value per input sample |
| GrainSpec.RunExtends | Source/Granulator.cpp:35-84 | running the first i + 1 samples is running the first i samples and then the step of sample i |
| GrainSpec.RunSample | Source/Granulator.cpp:37 | each sample is stored at the write position left by the samples before it; the write position then moves on by one modulo the buffer length; the counter ends in [0, grainSize) |
| GrainSpec.ReadAfterWrite | Source/Granulator.cpp:37 | a grain reading at the write position reads the sample just stored, times its window value |

## Left out

- Floating point: every float and double is a `real`. Rounding, overflow to infinity and NaN are not modelled. Neither is the float accumulator `y` of `applyFilter`.
- Transcendental functions are function-typed parameters: `tan`, `exp`, `log10`, `pow` and `cos`. The Hann window value is an oracle `window(position, size)`, so a grain of recorded size 1 divides by 0 in the source; the model does not capture that.
- `randomFrom` is the oracle `draw(i, j)`, and `applyShuffle` requires its values to lie in [0, numSamps).
- The `SpinLock` of `applyFilter` is concurrency only and is not modelled.
- `jassert(crossoverFrequency > 0)` becomes a precondition. The `jassertfalse` of `processSamples` is a debug trap with no effect on state and is not modelled.
- JUCE containers become Dafny values:
  - `AudioSampleBuffer` and `HeapBlock` are arrays;
  - `std::vector` fields are `seq` fields that the methods reassign;
  - the compressor works on one channel: `compress(buffer, m)` reads the channel it is given as an array, and `processSamples` works on channel 0 only.
- The granulator's raw read and write pointers become the indices they track. `readPointers_` is folded into `readPositions`.
- Granulator field types: Source/Granulator.h as shown does not declare the granulator's fields, so their types are reconstructed from Granulator.cpp as integers.
- Uninitialised members are left unconstrained by the constructors: `sampCounter`, `grainSize_`, `hopSize_`, the filter's cursors and the compressor's `sampleRate`. The granulator buffer's contents are not initialised either.
- GranulatorModel.Granulator.UpdateParameters: `grainSize_ / 4` is integer division, so `ceil` has no effect; the model rounds down.
- GranulatorModel.Granulator.ApplyShuffle: requires grainSize > 0 and a non-empty buffer when any sample is processed, since the source would divide by zero or write outside the buffer otherwise. A negative counter is reduced with Dafny's Euclidean `%`, while C++'s `%` truncates toward zero and would leave it negative. That case can only arise from an uninitialised counter.
- GranulatorModel.Granulator.ApplyShuffle: persistence across blocks is stated one sample at a time (`RunExtends`). No lemma joins two whole blocks into one.
- Convolution.ConvolveCoefficients: requires |f| + |g| ≥ 1. For two empty vectors the source computes n = −1, and `std::vector<double> out(n, double())` throws `std::length_error`; that error path is not modelled.
- Convolution.Convolve: requires |f| + |g| ≥ 1, for the same reason as ConvolveCoefficients.
- CompressorModel.Compressor.Compress: requires ratio ≠ 0. The source divides by the ratio without a check, and a float division by zero gives infinity or NaN, which reals cannot represent.
- Integer widths: the 32-bit widths of the counters and positions are not modelled. Their stored values stay within the buffer length or the grain size.
- Crossover.Slot: the source computes `(cursor - j + size) % size` with `unsigned int j` (Source/CrossoverFilter.cpp:157-158, 162-163), so `cursor - j` wraps around whenever j > cursor (every third sample). The model computes the slot over unbounded integers. That gives the source's slot when the cursor and the size have the same unsigned width, so that adding the size wraps back; the declarations of these fields (CrossoverFilter.h) are not part of this model. With an `int` cursor and a 64-bit `size_t` size, cursor 0 and j = 1 would give slot (2^32 + 2) % 3 = 0 instead of 2, and the model does not capture that.
- CompressorModel.Compressor: `bufferSize` is a `const` here, while the source's field is a public, assignable `int` (Source/Compressor.h:27). The work arrays are allocated once with it (:10-14), and every loop reads its current value (:35, :62, :71, :84). The model fixes it at construction, so it does not capture the out-of-bounds reads and writes that would follow a later reassignment.
- Uncalled code is not modelled:
  - the commented-out high-pass, Linkwitz-Riley and parametric-EQ code and `copyCoefficientsFrom`;
  - the unused private helpers `max` and `round`;
  - the unused field `nhost`.
- The plug-in processor, editor and parameter glue are not part of this model.
- The loop bodies of `applyFilter`, `compress`, `processSamples`, `resetAll` and `applyShuffle` are split into helper methods:
  - FilterSample, FilterStep, AdvanceCursors, FeedForwardSum, FeedBackSum;
  - CompressSample, ComputeGains, CompressBlock, ApplyGains, CopyBlock, ClearWork;
  - ProcessSample, ShuffleStep, ReadGrains, ReadGrain.
  Each helper performs statements equivalent to the source's, in its order, with two differences:
  - `CopyBlock` assigns the block directly instead of `clear()` followed by `addFrom` (Source/Compressor.h:61-62, 70-71). Over reals the result is the same.
  - The constructor sizes `inputBuffer` before `resetAll`, not after it (:17-19). `resetAll` does not touch `inputBuffer`.

## Findings

| source | as written | input that shows it | evidently intended | confidence | as-written member | corrected member |
|---|---|---|---|---|---|---|
| Source/CrossoverFilter.cpp:76-77 | `inputDelayBuf = {0}; outputDelayBuf = {0};` replaces each three-slot delay line with a one-element vector, while `inputDelaySize` and `outputDelaySize` stay 3 | any `makeCrossover` followed by `applyFilter` with numSamples ≥ 1: the cursor advances to 1, and slot 1 of a one-element vector is written | zero all three slots of each delay line, keeping their length 3 | not executed | Crossover.CrossoverFilter.MakeCrossoverAsWritten | Crossover.CrossoverFilter.MakeCrossover |
