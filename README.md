# klangwellen core, modelled in Dafny

This project models the signal-processing core of the klangwellen library.
klangwellen is a header-only C++ library of oscillators, envelopes, filters, noise generators and analysers for audio.
Each component works one sample at a time, and each also has a buffer overload that runs the per-sample step over a block.
The model follows the C++ headers component by component:

- `Adsr`: the attack/decay/sustain/release envelope state machine (`ADSR.h`).
- `Smoothing`: pure step functions for the envelope follower, the exponential moving average and the root-mean-square window.
- `SrcEnvelopeFollower`, `IncludeEnvelopeFollower`, `SrcExponentialMovingAverage`, `IncludeExponentialMovingAverage`, `SrcRootMeanSquare`, `IncludeRootMeanSquare`: the classes built on those steps. The library ships two copies of each header, under `src/` and `include/`, and each copy has its own module.
- `NoiseBank`: simplex noise, Gaussian white noise (polar and Box–Muller variants), the three-stage pink-noise filter and the `Noise` dispatcher (`Noise.h`).
- `WavetableShapes`: the table fills (sine, triangle, square, sawtooth, ramp, pulse, harmonic fills, normalisation).
- `WavetableOscillator`: the `Wavetable` oscillator with its cursor, phase offset, frequency/amplitude setters and the none/linear/cubic readers.
- `WavStreamer`: the sample-file streamer with its sectioned reload of the playback buffer.
- `MoogLadder`: the four-stage ladder low-pass with its coefficient cache.
- `FunctionOscillator`: the `OscillatorFunction` oscillator computing each waveform from its phase.
- `IirResonator`: the two-pole band-pass `Resonator`.
- `Numerics`: the fixed-width integer conversions (truncation, 8- and 16-bit wrap-around, truncated remainder) the C++ relies on.

Each class has its fields as Dafny fields. Its methods update those fields and state the new state through a pure step function. The properties are proved about the step functions: bounds, invariants kept over any input sequence, cursor wrap-around, and agreement between a buffer loop and the per-sample step.

Samples are `real`, so the model says nothing about float rounding.
The transcendental functions (`sin`, `cos`, `tanh`, `exp`, `log`, `sqrt` and the library's fast sine) are uninterpreted functions gathered in `MathLib.Lib`.
A property that depends on one of them asks for the law it needs as a predicate on `Lib`, for example `ExpLaws` or `SinBounded`.
Random draws (`rand()`, the Mersenne twister) and the block the WAV streamer reads from its file become parameters.

`KlangWellen.h` is not part of this model. The module `KlangWellen` declares the constants the headers take from it:
- `PI`;
- the signal range ±1;
- the default sample rate 48000 and the default table size 512;
- the default ADSR times 0.005 / 0.01 / 0.075 and the default sustain level 0.5;
- the waveform, interpolation and noise-type codes;
- `RAND_MAX` = 2147483647.

Some behaviour of the code worth knowing before reading the contracts:

- `Noise` white noise uses `rand()/RAND_MAX*2-1`, which can reach both -1 and 1.
- The ADSR attack adds `1/(sampleRate*attack)` per sample. A phase of duration zero still takes one sample.
- The square-wave harmonic fill weighs partial `i` by `1/(i+1)`. It sets only the even slots of `amps`; the odd slots are uninitialised, and the model takes them as a parameter.
- The interpolating wavetable readers do not wrap their base index (see Findings).
- `my_tanh` in the ladder filter passes negative inputs through unchanged, so it is not odd-symmetric.
- The ladder's coefficient cache is keyed on the (frequency, resonance) pair.
- `GaussianWhiteNoise` uses the polar method with rejection. Its "fast" variant is Box–Muller.

## Model

| member | source | states |
|---|---|---|
| `Smoothing.FollowerCoefInUnit` | src/EnvelopeFollower.h:49-57 | given `exp` maps negative arguments into (0, 1), a positive time and sample rate give a coefficient `exp(-1/(t*sr))` strictly between 0 and 1 |
| `Smoothing.FollowBetween` | src/EnvelopeFollower.h:63-66 | `coef*(env - mag) + mag` with `coef` in [0, 1] lies between `env` and `mag`, in either order |
| `Smoothing.FollowStepBetween` | src/EnvelopeFollower.h:59-69 | whichever coefficient the branch picks, the new envelope lies between the old one and `abs(input)` |
| `Smoothing.FollowAllBounded` | src/EnvelopeFollower.h:46-69 | from an envelope in [0, bound] (the constructor's 0) and inputs with magnitude at most `bound`, the envelope stays in [0, bound] over any input sequence |
| `Smoothing.SumSquaresNonNegative` | src/RootMeanSquare.h:43-61 | the sum of squares of any window is non-negative |
| `Smoothing.SumSquaresOfZeros` | src/RootMeanSquare.h:38-41 | a window of zeros, as the constructor fills it, has a zero sum of squares |
| `Smoothing.SumSquaresUpdate` | src/RootMeanSquare.h:45-52 | overwriting one slot changes the sum of squares by exactly `-old*old + new*new`, so the running sum stays exact |
| `Smoothing.RmsNonNegative` | src/RootMeanSquare.h:55-59 | given `sqrt` is non-negative on non-negative arguments, the meter's output is never negative |
| `Smoothing.EmaStepBetween` | src/ExponentialMovingAverage.h:44-46 | with `alpha` in [0, 1], one step lands between the old average and the new magnitude |
| `Smoothing.EmaWithinRange` | src/ExponentialMovingAverage.h:39-48 | over any non-empty history, the average stays within the smallest and largest magnitudes seen |
| `SrcEnvelopeFollower.EnvelopeFollower.constructor` | src/EnvelopeFollower.h:40-47 | both times stored through the setters' coefficient formula, envelope 0 |
| `SrcEnvelopeFollower.EnvelopeFollower.SetAttackTime` | src/EnvelopeFollower.h:49-52 | stores the time, sets `coef = exp(-1/(t*sr))` (in (0, 1) for positive arguments), touches nothing else |
| `SrcEnvelopeFollower.EnvelopeFollower.SetReleaseTime` | src/EnvelopeFollower.h:54-57 | stores the time, sets the release coefficient the same way, touches nothing else |
| `SrcEnvelopeFollower.EnvelopeFollower.Process` | src/EnvelopeFollower.h:59-69 | attack coefficient exactly when `abs(in) > envelope`, release otherwise; the new envelope lies between the old one and `abs(in)`; settings unchanged |
| `SrcEnvelopeFollower.EnvelopeFollower.GetCurrent` | src/EnvelopeFollower.h:71-73 | returns the last result and changes nothing |
| `IncludeEnvelopeFollower.EnvelopeFollower.constructor` | include/EnvelopeFollower.h:40-47 | as the `src` copy |
| `IncludeEnvelopeFollower.EnvelopeFollower.SetAttackTime` | include/EnvelopeFollower.h:49-52 | as the `src` copy |
| `IncludeEnvelopeFollower.EnvelopeFollower.SetReleaseTime` | include/EnvelopeFollower.h:54-57 | as the `src` copy |
| `IncludeEnvelopeFollower.EnvelopeFollower.Process` | include/EnvelopeFollower.h:59-69 | as the `src` copy |
| `IncludeEnvelopeFollower.EnvelopeFollower.GetCurrent` | include/EnvelopeFollower.h:71-73 | as the `src` copy |
| `SrcExponentialMovingAverage.ExponentialMovingAverage.constructor` | src/ExponentialMovingAverage.h:37 | average 0, not initialised, empty history |
| `SrcExponentialMovingAverage.ExponentialMovingAverage.Process` | src/ExponentialMovingAverage.h:39-48 | the first sample sets the average to its magnitude, later ones blend with `alpha`; the flag stays set; the average is `EmaOf` the whole history |
| `SrcExponentialMovingAverage.ExponentialMovingAverage.GetCurrent` | src/ExponentialMovingAverage.h:50-52 | returns the average, changes nothing |
| `IncludeExponentialMovingAverage.ExponentialMovingAverage.constructor` | include/ExponentialMovingAverage.h:37 | as the `src` copy |
| `IncludeExponentialMovingAverage.ExponentialMovingAverage.Process` | include/ExponentialMovingAverage.h:39-48 | as the `src` copy |
| `IncludeExponentialMovingAverage.ExponentialMovingAverage.GetCurrent` | include/ExponentialMovingAverage.h:50-52 | as the `src` copy |
| `SrcRootMeanSquare.RootMeanSquare.constructor` | src/RootMeanSquare.h:38-41 | a window of `windowSize` zeros, index 0, sum 0, output 0 |
| `SrcRootMeanSquare.RootMeanSquare.Push` | src/RootMeanSquare.h:44-52 | the sample replaces exactly the slot under the index, the index advances modulo the window, and the running sum stays the sum of squares of the window |
| `SrcRootMeanSquare.RootMeanSquare.Process` | src/RootMeanSquare.h:43-61 | as `Push`, then the output is `sqrt(sum / n)` when the sum is positive and 0 otherwise, never negative under the `sqrt` law |
| `SrcRootMeanSquare.RootMeanSquare.GetCurrent` | src/RootMeanSquare.h:63-65 | returns the last output, changes nothing |
| `IncludeRootMeanSquare.RootMeanSquare.constructor` | include/RootMeanSquare.h:38-41 | as the `src` copy |
| `IncludeRootMeanSquare.RootMeanSquare.Push` | include/RootMeanSquare.h:44-52 | as the `src` copy |
| `IncludeRootMeanSquare.RootMeanSquare.Process` | include/RootMeanSquare.h:43-61 | as the `src` copy |
| `IncludeRootMeanSquare.RootMeanSquare.GetCurrent` | include/RootMeanSquare.h:63-65 | as the `src` copy |
| `Adsr.ComputeDeltaFraction` | src/ADSR.h:188-190 | for a positive duration the increment times `duration * sampleRate` gives back `delta` (the ramp covers `delta` in `duration` seconds); otherwise the whole `delta` in one step |
| `Adsr.DeltaFractionSign` | src/ADSR.h:188-190 | the increment has the sign of `delta` (strictly positive for a positive `delta`) |
| `Adsr.StepEnvelope` | src/ADSR.h:196-235 | IDLE and SUSTAIN leave the envelope untouched; the ramp states move by the increment and clamp at 1, at the sustain level or at 0 |
| `Adsr.StartEnvelope` | src/ADSR.h:164-179 | the amplitude is kept; with the fade-to-zero flag off, start always enters ATTACK with the attack increment |
| `Adsr.StopEnvelope` | src/ADSR.h:181-186 | stop enters RELEASE keeping the amplitude, and is a no-op when already releasing |
| `Adsr.StopIdempotent` | src/ADSR.h:181-186 | stopping twice is the same as stopping once |
| `Adsr.ZeroDurationPhases` | src/ADSR.h:188-216 | with zero attack and decay times, the first step after start reaches 1 and the second reaches the sustain level: a zero-length phase still costs one sample |
| `Adsr.ApplyKeepsReachable` | src/ADSR.h:99-235 | any start, stop, step or setter keeps the amplitude in [0, 1], the increment's sign right for its state, and the pre-attack state unentered, when the sustain level is in [0, 1] |
| `Adsr.RunKeepsReachable` | src/ADSR.h:55-235 | over any sequence of operations whose sustain levels lie in [0, 1], the amplitude stays in [0, 1] and PRE_ATTACK_FADE_TO_ZERO is never entered |
| `Adsr.InitialReachable` | src/ADSR.h:55-64 | the constructor's envelope (amplitude 0, IDLE) satisfies that invariant |
| `Adsr.ADSR.constructor` | src/ADSR.h:55-64 | amplitude 0, IDLE, default attack, decay, sustain and release, fade-to-zero off |
| `Adsr.ADSR.Step` | src/ADSR.h:196-235 | the envelope becomes `StepEnvelope` of the old one; settings unchanged |
| `Adsr.ADSR.Start` | src/ADSR.h:99-101 | the envelope becomes `StartEnvelope` of the old one; settings unchanged |
| `Adsr.ADSR.Stop` | src/ADSR.h:103-105 | the envelope becomes `StopEnvelope` of the old one; settings unchanged |
| `Adsr.ADSR.Process` | src/ADSR.h:66-69 | steps once and returns the new amplitude |
| `Adsr.ADSR.ProcessSample` | src/ADSR.h:71-74 | steps once and returns the sample times the new amplitude |
| `Adsr.ADSR.ProcessSignal` | src/ADSR.h:76-80 | steps once and scales both channels by the new amplitude |
| `Adsr.ADSR.ProcessBuffer` | src/ADSR.h:92-97 | after `len` samples the envelope is `len` steps on, sample `i` is scaled by the amplitude after step `i + 1`, and the rest of the buffer is untouched |
| `Adsr.ADSR.ProcessStereo` | src/ADSR.h:82-90 | as `ProcessBuffer` on both channels; when both arguments are the same buffer each sample is scaled twice |
| `Adsr.ADSR.SetAttack` | src/ADSR.h:111-113 | only the attack time changes |
| `Adsr.ADSR.SetDecay` | src/ADSR.h:126-128 | only the decay time changes |
| `Adsr.ADSR.SetSustain` | src/ADSR.h:134-136 | only the sustain level changes |
| `Adsr.ADSR.SetRelease` | src/ADSR.h:140-142 | only the release time changes |
| `Adsr.ADSR.SetAdsr` | src/ADSR.h:115-120 | all four settings change together, the envelope does not |
| `Adsr.ADSR.GetAttack` | src/ADSR.h:107-109 | returns the attack time |
| `Adsr.ADSR.GetDecay` | src/ADSR.h:122-124 | returns the decay time |
| `Adsr.ADSR.GetSustain` | src/ADSR.h:130-132 | returns the sustain level |
| `Adsr.ADSR.GetRelease` | src/ADSR.h:237-239 | returns the release time |
| `NoiseBank.WhiteNoiseOf` | src/Noise.h:418-420 | a `rand()` value in [0, RAND_MAX] maps into the closed interval [-1, 1], with 0 at -1 and RAND_MAX at 1 |
| `NoiseBank.WhiteNoiseFastOf` | src/Noise.h:422-424 | a `random()` value in [0, 1) maps into [-1, 1) |
| `NoiseBank.PinkStages` | src/Noise.h:74-84 | the update keeps three stages |
| `NoiseBank.PinkStagesBetween` | src/Noise.h:79-84 | each stage lands between its old value and its draw, so stages within the range of `rand()` stay there |
| `NoiseBank.PinkOutputBounded` | src/Noise.h:75-85 | with the stages in range the pink output lies within `7 * (A[0] + A[1] + A[2])` of zero |
| `NoiseBank.Identity` | src/Noise.h:249-250 | the identity table of length `n` |
| `NoiseBank.Swap` | src/Noise.h:255-257 | exchanging two positions keeps the length |
| `NoiseBank.SwapPermutes` | src/Noise.h:255-257 | exchanging two positions keeps the multiset of entries |
| `NoiseBank.Pick` | src/Noise.h:253-254 | the partner position `j + draw % (256 - j)` lies in [j, 256) |
| `NoiseBank.Shuffled` | src/Noise.h:249-259 | after any prefix of the Fisher-Yates loop the table still has 256 entries |
| `NoiseBank.ShuffledIsPermutation` | src/Noise.h:249-259 | for any generator output, the shuffled table is a permutation of 0..255 |
| `NoiseBank.PermutationCovers` | src/Noise.h:249-259 | a permutation of 0..255 has 256 entries, each in [0, 256), and contains every value in that range |
| `NoiseBank.MirroredFromCopies` | src/Noise.h:256-258 | the per-position copies `set_seed` writes make the upper half mirror the lower half and `m_perm12` hold `m_perm % 12` |
| `NoiseBank.LowByte` | src/Noise.h:309 | `x & 0xff` is congruent to `x` modulo 256 |
| `NoiseBank.Index3D12` | src/Noise.h:308-310 | on a mirrored table every index stays below 512 and the result is below 12, so the gradient lookups are in bounds |
| `NoiseBank.FastFloor` | src/Noise.h:319 | equals `floor` except at negative integers, where it is one less |
| `NoiseBank.SimplexCorners` | src/Noise.h:147-199 | all six offsets are 0 or 1, the first sums to 1 and the second to 2, the first is componentwise at most the second, and the chosen axes order `x0`, `y0`, `z0` |
| `NoiseBank.AdvanceStep` | src/Noise.h:270-277 | the position moves by the step size, less or plus one limit when it passes a limit; within the limits it stays within them |
| `NoiseBank.AdvanceStepsBounded` | src/Noise.h:270-277 | with a step size within 65536, the position stays in [-65536, 65536] for any number of calls |
| `NoiseBank.SimplexNoise.constructor` | src/Noise.h:122-126 | the table is `set_seed`'s shuffle, the position 0 and the step size 0.01 |
| `NoiseBank.SimplexNoise.SetSeed` | src/Noise.h:244-260 | stores the seed, leaves the shuffled permutation in `m_perm` with its mirrored and mod-12 copies, keeps the position and step size |
| `NoiseBank.SimplexNoise.SwapAt` | src/Noise.h:252-259 | one iteration of the shuffle loop: the table is one more swap along, and positions up to `j` are mirrored and reduced mod 12 |
| `NoiseBank.SimplexNoise.FillIdentity` | src/Noise.h:249-250 | the lower half becomes 0..255, the upper half is untouched |
| `NoiseBank.SimplexNoise.Shuffle` | src/Noise.h:252-259 | the loop as a whole: the lower half is the full shuffle and the table is mirrored |
| `NoiseBank.SimplexNoise.SetStep` | src/Noise.h:266-268 | only the step size changes |
| `NoiseBank.SimplexNoise.Process` | src/Noise.h:270-280 | the position advances by `AdvanceStep` and the output is the noise at the new position |
| `NoiseBank.FirstAccepted` | src/Noise.h:336-340 | the rejection loop stops at the first pair inside the unit circle, and every earlier pair was rejected |
| `NoiseBank.GaussianStep` | src/Noise.h:326-349 | the pass flag flips on every call; a call with the flag set returns half the cached value and draws nothing; a drawing call uses a positive, even number of draws |
| `NoiseBank.GaussianPairs` | src/Noise.h:330-348 | two calls from a fresh state return both values of one accepted pair, scaled alike, the second without drawing, and leave the generator ready to draw again |
| `NoiseBank.GaussianWhiteNoise.constructor` | src/Noise.h:324 | flag off, cached value 0 |
| `NoiseBank.GaussianWhiteNoise.Process` | src/Noise.h:326-349 | state, output and draws used are those of `GaussianStep` |
| `NoiseBank.PinkNoise.constructor` | src/Noise.h:64-67 | three stages, all 0, scale 7 |
| `NoiseBank.PinkNoise.Clear` | src/Noise.h:69-72 | every stage becomes 0 |
| `NoiseBank.PinkNoise.Process` | src/Noise.h:74-86 | the stages become `PinkStages` of the old ones and the output is `PinkOutput` of the new ones |
| `NoiseBank.Selected` | src/Noise.h:386-406 | each known type selects its own generator, and every other value (NOISE_WHITE_FAST and unknown types alike) selects `getWhiteNoise` |
| `NoiseBank.Noise.constructor` | src/Noise.h:363-366 | amplitude 1, type NOISE_WHITE, fresh sub-generators in their initial states |
| `NoiseBank.Noise.GetAmplitude` | src/Noise.h:368-370 | returns the amplitude |
| `NoiseBank.Noise.SetAmplitude` | src/Noise.h:372-374 | only the amplitude changes |
| `NoiseBank.Noise.GetType` | src/Noise.h:376-378 | returns the type |
| `NoiseBank.Noise.SetType` | src/Noise.h:380-382 | only the type changes |
| `NoiseBank.Noise.Process` | src/Noise.h:384-408 | the selected generator's output times the amplitude, that generator's state advanced, and the other generators unchanged |
| `WavetableShapes.PulseTable` | include/Wavetable.h:117-126 | the table keeps its length |
| `WavetableShapes.Pulse` | include/Wavetable.h:117-126 | the table becomes `PulseTable` of the old one at threshold `(uint32_t)(size * width)` |
| `WavetableShapes.PulseHighCount` | include/Wavetable.h:117-126 | for a width in [0, 1], exactly the first `floor(size * width)` entries are 1 and the rest of the first `size` are -1 |
| `WavetableShapes.SquareTable` | include/Wavetable.h:167-172 | the table keeps its length |
| `WavetableShapes.Square` | include/Wavetable.h:167-172 | the table becomes `SquareTable` of the old one |
| `WavetableShapes.SquareHalves` | include/Wavetable.h:167-172 | the first `size / 2` entries are 1, the next `size / 2` are -1, and for an odd size the last entry is left as it was |
| `WavetableShapes.UnsignedNegate` | include/Wavetable.h:193 | unsigned negation of a 32-bit index is 0 at 0 and `2^32 - j` otherwise |
| `WavetableShapes.TriangleTable` | include/Wavetable.h:186-196 | the table keeps its length |
| `WavetableShapes.TriangleEntryInRange` | include/Wavetable.h:186-196 | with signed negation every written entry lies in [-1, 1] |
| `WavetableShapes.TriangleAsWrittenOutOfRange` | include/Wavetable.h:193 | as written, entry 5 of an 8-entry table is (2^32 - 1) / 2 instead of -0.5 (about 2.1e9; in `float` it rounds to 2147483648) |
| `WavetableShapes.TriangleAsWrittenLeavesRange` | include/Wavetable.h:186-196 | as written, for every table size, every entry strictly inside the third quarter exceeds 1 |
| `WavetableShapes.TrianglePartial` | include/Wavetable.h:189-195 | every prefix of the loop keeps the table length |
| `WavetableShapes.TriangleStep` | include/Wavetable.h:189-195 | one iteration writes the four quarter entries for index `i` |
| `WavetableShapes.TriangleComplete` | include/Wavetable.h:186-196 | the finished loop gives `TriangleTable` |
| `WavetableShapes.Triangle` | include/Wavetable.h:186-196 | the table becomes the corrected `TriangleTable` |
| `WavetableShapes.TriangleAsWritten` | include/Wavetable.h:186-196 | the table becomes `TriangleTable` with the unsigned negation of the C++ |
| `WavetableShapes.RampTable` | include/Wavetable.h:139-144 | the table keeps its length |
| `WavetableShapes.RampShape` | include/Wavetable.h:139-144 | every entry lies in [-1, 1]; with `is_ramp_up` the ramp runs from 1 down to -1, otherwise from -1 up to 1 |
| `WavetableShapes.SawtoothRamp` | include/Wavetable.h:139-144 | the table becomes `RampTable` of the old one |
| `WavetableShapes.NoiseTable` | include/Wavetable.h:111-115 | the table keeps its length |
| `WavetableShapes.NoiseInRange` | include/Wavetable.h:111-115 | draws in [0, 1] give entries in [-1, 1] |
| `WavetableShapes.Noise` | include/Wavetable.h:111-115 | the table becomes `NoiseTable` of the old one and the draws |
| `WavetableShapes.SineTable` | include/Wavetable.h:150-154 | the table keeps its length |
| `WavetableShapes.Sine` | include/Wavetable.h:150-154 | the table becomes `SineTable` of the old one |
| `WavetableShapes.PeakOf` | include/Wavetable.h:427-430 | the running maximum, started at 0, is never negative |
| `WavetableShapes.PeakOfIsMaximum` | include/Wavetable.h:427-430 | it bounds every entry, and a positive peak is attained by some entry |
| `WavetableShapes.NormalisedTable` | include/Wavetable.h:425-436 | the table keeps its length |
| `WavetableShapes.NormalisedPeakIsOne` | include/Wavetable.h:425-436 | with a positive peak every entry ends at most 1 and some entry is exactly 1; with no positive entry the table is unchanged |
| `WavetableShapes.NormaliseTable` | include/Wavetable.h:425-436 | the table becomes `NormalisedTable` of the old one |
| `WavetableShapes.FourierSums` | include/Wavetable.h:409-420 | the sums keep the table length |
| `WavetableShapes.FourierTable` | include/Wavetable.h:409-423 | the table becomes the normalised sum of the old entries and the first `harmonics` cosine partials |
| `WavetableShapes.ClearedTable` | include/Wavetable.h:129-131 | the table keeps its length |
| `WavetableShapes.Clear` | include/Wavetable.h:129-131 | the table becomes `ClearedTable` of the old one |
| `WavetableShapes.HarmonicTable` | include/Wavetable.h:128-137 | the table keeps its length |
| `WavetableShapes.SawtoothAmps` | include/Wavetable.h:132-135 | one amplitude per harmonic |
| `WavetableShapes.OddHarmonicAmps` | include/Wavetable.h:160-163 | one amplitude per harmonic |
| `WavetableShapes.SawtoothHarmonics` | include/Wavetable.h:128-137 | the table becomes `HarmonicTable` with amplitudes `1/(i+1)` and phase -0.25 |
| `WavetableShapes.OddHarmonics` | include/Wavetable.h:160-163 | the amplitude array is `OddHarmonicAmps`: even slots set, odd slots keep their unset values |
| `WavetableShapes.SquareHarmonics` | include/Wavetable.h:156-165 | the table becomes `HarmonicTable` with odd-partial amplitudes `1/(i+1)` and phase -0.25 |
| `WavetableShapes.TriangleHarmonics` | include/Wavetable.h:174-184 | the table becomes `HarmonicTable` with odd-partial amplitudes `1/(i+1)^2` and phase 0 |
| `WavetableShapes.SawtoothAsWritten` | include/Wavetable.h:146-148 | as written, the two-argument sawtooth is the one-harmonic Fourier table |
| `WavetableShapes.SawtoothAsWrittenIsNotARamp` | include/Wavetable.h:146-148 | on a two-entry table the as-written sawtooth gives `[0, 0]` where `sawtooth_ramp(..., true)` gives `[1, -1]` |
| `WavetableShapes.Sawtooth` | include/Wavetable.h:139-148 | the corrected sawtooth is the ramp `sawtooth_ramp(table, size, true)` writes |
| `WavetableShapes.FilledTableAsWritten` | include/Wavetable.h:72-93 | the table keeps its length; the triangle carries the unsigned negation and the sawtooth is the one-harmonic Fourier table, as `fill` calls them |
| `WavetableShapes.FilledTableAsWrittenVersusCorrected` | include/Wavetable.h:72-93 | the as-written and the corrected `fill` agree for the sine, square, noise and unknown waveforms; the triangles agree except strictly inside the third quarter, where every as-written entry exceeds 1; the as-written sawtooth never exceeds 1 |
| `WavetableShapes.FillAsWritten` | include/Wavetable.h:72-93 | the table becomes `FilledTableAsWritten` for the waveform; unknown waveforms fill a sine |
| `WavetableShapes.CorrectedFilledTable` | include/Wavetable.h:72-93 | the corrected `fill` (signed triangle, ramp sawtooth) keeps the table's length |
| `WavetableShapes.FilledCount` | include/Wavetable.h:72-93 | the filled prefix is never longer than the table size |
| `WavetableShapes.CorrectedFilledTableInRange` | include/Wavetable.h:72-93 | under a bounded `fast_sin` and draws in [0, 1], every entry the corrected `fill` writes lies in [-1, 1], and entries past the filled prefix keep their values |
| `WavetableShapes.CorrectedFill` | include/Wavetable.h:72-93 | the table becomes `CorrectedFilledTable` for the waveform; unknown waveforms fill a sine |
| `WavetableShapes.FillHarmonics` | include/Wavetable.h:95-109 | triangle, sawtooth and square get their harmonic tables; every other waveform a sine |
| `WavetableOscillator.AfterSetFrequency` | include/Wavetable.h:210-216 | the frequency becomes `abs(f)`; an unchanged value changes nothing; a changed one recomputes the step size; nothing else moves |
| `WavetableOscillator.AfterSetFrequencyGlide` | include/Wavetable.h:226-235 | a positive duration records target, steps and per-step fraction; a zero duration is an immediate `set_frequency` |
| `WavetableOscillator.AfterSetAmplitude` | include/Wavetable.h:253-256 | sets the amplitude and cancels any pending glide, nothing else |
| `WavetableOscillator.AfterSetAmplitudeGlide` | include/Wavetable.h:267-276 | a positive duration records target and steps (truncated to 16 bits, as the counter is `uint16_t`); zero is an immediate `set_amplitude` |
| `WavetableOscillator.AfterSetPhaseOffset` | include/Wavetable.h:294-296 | a negative offset in [-1, 0) is moved up by one, so an offset in [-1, 1) lands in [0, 1); a non-negative offset is kept |
| `WavetableOscillator.AfterSetOscillationRange` | include/Wavetable.h:336-340 | afterwards `offset - amplitude == min` and `offset + amplitude == max`, with no glide pending |
| `WavetableOscillator.WrapDown` | include/Wavetable.h:442-444 | the first loop leaves the cursor below the size |
| `WavetableOscillator.WrapUp` | include/Wavetable.h:445-447 | the second loop leaves it non-negative and keeps it below the size |
| `WavetableOscillator.Wrap` | include/Wavetable.h:441-447 | the two loops together leave the cursor in [0, size) |
| `WavetableOscillator.WrapSpec` | include/Wavetable.h:441-447 | the wrapped cursor differs from the unwrapped one by a whole number of table lengths, and an in-range cursor is kept |
| `WavetableOscillator.SampleOffset` | include/Wavetable.h:481 | the phase offset in entries is below the size |
| `WavetableOscillator.LerpBetween` | include/Wavetable.h:488 | linear interpolation gives `a` at 0 and `b` at 1 and stays between them |
| `WavetableOscillator.CubicEndpoints` | include/Wavetable.h:471-475 | the cubic interpolant passes through `b` at 0 and `c` at 1 |
| `WavetableOscillator.OffsetPosition` | include/Wavetable.h:481-482 | cursor plus offset lies in [0, 2 size) |
| `WavetableOscillator.InterpolationOutOfBoundsExactly` | include/Wavetable.h:460-491 | as written, for every table and position, the linear reader's base index is past the end exactly when cursor plus offset reaches the table size, and the cubic reader's first index exactly when it reaches one entry beyond; the once-wrapped successors leave the table exactly from `2N - 1` (one ahead) and `2N - 2` (two ahead) on, which on one- and two-entry tables comes before the first index does |
| `WavetableOscillator.InterpolationReadsOutOfBounds` | include/Wavetable.h:460-491 | as written, with 4 entries, offset 0.5 and cursor 3 the linear reader reads entry 5 and the cubic reader entry 4; a one-entry table makes the cubic reader read entry 1 |
| `WavetableOscillator.BaseIndex` | include/Wavetable.h:466 | the corrected base index lies inside the table |
| `WavetableOscillator.Neighbour` | include/Wavetable.h:465-470 | a wrapped neighbour lies inside the table and equals the plain one when that is in range |
| `WavetableOscillator.WrappedIndicesAgreeInRange` | include/Wavetable.h:460-491 | for cursor plus offset inside the table, the corrected indices are exactly those the C++ reads (three or more entries for the cubic reader) |
| `WavetableOscillator.FractionInUnit` | include/Wavetable.h:464 | the interpolation fraction lies in [0, 1) |
| `WavetableOscillator.ProcessState` | include/Wavetable.h:342-375 | one `process()` keeps the cursor in range and the step size matched to the frequency |
| `WavetableOscillator.Emit` | include/Wavetable.h:361-374 | reading and advancing keep that invariant |
| `WavetableOscillator.EmitFields` | include/Wavetable.h:361-374 | the output is the sample read times the amplitude plus the offset, and the cursor moves to the wrapped next position |
| `WavetableOscillator.ProcessN` | include/Wavetable.h:377-381 | any number of calls keeps the invariant |
| `WavetableOscillator.Initial` | include/Wavetable.h:47-64 | the constructor's state: 220 Hz, amplitude 0.75, cursor 0, no glides, and the invariant when the size is positive |
| `WavetableOscillator.ProcessStateGlides` | include/Wavetable.h:343-359 | one call moves the amplitude and frequency glides exactly one step and leaves their targets and fractions alone |
| `WavetableOscillator.AmplitudeGlideProgress` | include/Wavetable.h:343-350 | after `j` of `s` pending steps the amplitude has moved by `j` fractions; after exactly `s` it equals the target and the glide is over |
| `WavetableOscillator.AmplitudeSteady` | include/Wavetable.h:343-350 | with no glide pending the amplitude never changes |
| `WavetableOscillator.SetAmplitudeGlideReachesTarget` | include/Wavetable.h:267-276 | a glide of `n` in (0, 65536) samples ends on the target after `n` calls; a multiple of 65536 stores a zero counter and the amplitude never moves |
| `WavetableOscillator.FrequencyGlideProgress` | include/Wavetable.h:352-359 | the step counter counts down one per call and after exactly `s` calls the frequency is the target's magnitude |
| `WavetableOscillator.SetFrequencyGlideReachesTarget` | include/Wavetable.h:226-235 | `n > 0` calls after the glide setter the frequency is `abs(target)` and the glide is over; an immediate `set_frequency` in between leaves the glide pending |
| `WavetableOscillator.Wavetable.constructor` | include/Wavetable.h:47-64 | borrows the table, stores size and sample rate, and starts in `Initial` |
| `WavetableOscillator.Wavetable.Create` | include/Wavetable.h:43-45 | allocates a fresh table of the given size and starts in `Initial` |
| `WavetableOscillator.Wavetable.SetWaveform` | include/Wavetable.h:198-200 | the table becomes `FilledTableAsWritten` of the old one, what `fill` writes |
| `WavetableOscillator.Wavetable.SetWaveformHarmonics` | include/Wavetable.h:202-204 | the table becomes the harmonic table for the waveform, a sine for unknown ones |
| `WavetableOscillator.Wavetable.GetFrequency` | include/Wavetable.h:206-208 | returns the frequency |
| `WavetableOscillator.Wavetable.SetFrequency` | include/Wavetable.h:210-216 | the state becomes `AfterSetFrequency` |
| `WavetableOscillator.Wavetable.SetFrequencyGlide` | include/Wavetable.h:226-235 | the state becomes `AfterSetFrequencyGlide` |
| `WavetableOscillator.Wavetable.GetOffset` | include/Wavetable.h:237-239 | returns the offset |
| `WavetableOscillator.Wavetable.SetOffset` | include/Wavetable.h:241-243 | only the offset changes |
| `WavetableOscillator.Wavetable.GetAmplitude` | include/Wavetable.h:245-247 | returns the amplitude |
| `WavetableOscillator.Wavetable.SetAmplitude` | include/Wavetable.h:253-256 | the state becomes `AfterSetAmplitude` |
| `WavetableOscillator.Wavetable.SetAmplitudeGlide` | include/Wavetable.h:267-276 | the state becomes `AfterSetAmplitudeGlide` |
| `WavetableOscillator.Wavetable.GetWavetableSize` | include/Wavetable.h:282-284 | returns the size |
| `WavetableOscillator.Wavetable.EnableJitter` | include/Wavetable.h:286-288 | only the jitter flag changes |
| `WavetableOscillator.Wavetable.GetPhaseOffset` | include/Wavetable.h:290-292 | returns the phase offset |
| `WavetableOscillator.Wavetable.SetPhaseOffset` | include/Wavetable.h:294-296 | the state becomes `AfterSetPhaseOffset` |
| `WavetableOscillator.Wavetable.GetJitterRange` | include/Wavetable.h:298-300 | returns the jitter range |
| `WavetableOscillator.Wavetable.SetJitterRange` | include/Wavetable.h:302-304 | only the jitter range changes |
| `WavetableOscillator.Wavetable.Reset` | include/Wavetable.h:306-309 | signal and cursor return to 0, nothing else changes |
| `WavetableOscillator.Wavetable.Current` | include/Wavetable.h:311-313 | returns the last signal |
| `WavetableOscillator.Wavetable.SetInterpolation` | include/Wavetable.h:315-317 | only the interpolation type changes |
| `WavetableOscillator.Wavetable.SetOscillationSpeed` | include/Wavetable.h:324-326 | the state becomes `AfterSetFrequency` of `1 / speed` |
| `WavetableOscillator.Wavetable.SetOscillationRange` | include/Wavetable.h:336-340 | the state becomes `AfterSetOscillationRange` |
| `WavetableOscillator.Wavetable.StepAmplitudeGlide` | include/Wavetable.h:343-350 | the state becomes `AmplitudeGlideStep` of the old one |
| `WavetableOscillator.Wavetable.StepFrequencyGlide` | include/Wavetable.h:352-359 | the state becomes `FrequencyGlideStep` of the old one |
| `WavetableOscillator.Wavetable.Process` | include/Wavetable.h:342-375 | the state becomes `ProcessState` of the old one and the output is the new signal |
| `WavetableOscillator.Wavetable.ProcessBuffer` | include/Wavetable.h:377-381 | after `length` samples the state is `ProcessN` of the draws, entry `i` holds the signal after `i + 1` calls, and the rest of the buffer is untouched |
| `WavetableOscillator.Wavetable.ProcessAt` | include/Wavetable.h:378-380 | one loop iteration: the state moves one call on and entry `i` holds its signal |
| `WavetableOscillator.Wavetable.ComputeStepSize` | include/Wavetable.h:450-452 | the step size for the stored frequency |
| `WavetableOscillator.Wavetable.AdvanceArrayPtr` | include/Wavetable.h:438-448 | the cursor becomes the wrapped sum of cursor and (jittered) step, nothing else changes |
| `WavetableOscillator.Wavetable.NextSample` | include/Wavetable.h:454-458 | returns the entry under the old cursor and advances it |
| `WavetableOscillator.Wavetable.NextSampleInterpolateLinear` | include/Wavetable.h:480-491 | returns the corrected linear read and advances the cursor |
| `WavetableOscillator.Wavetable.NextSampleInterpolateCubic` | include/Wavetable.h:460-478 | returns the corrected cubic read and advances the cursor |
| `WavetableOscillator.WrapDownShift` | include/Wavetable.h:442-444 | the first loop subtracts a whole number of table lengths |
| `WavetableOscillator.WrapUpShift` | include/Wavetable.h:445-447 | the second loop adds a whole number of table lengths |
| `WavStreamer.WrapIndex` | include/WAVStreamer.h:154-161 | an index within one length either side of the buffer wraps into [0, length), congruent to the original; an in-range index is kept |
| `WavStreamer.CrossedBorderCases` | include/WAVStreamer.h:177-181 | moving forward, a border is crossed exactly when `prev < border <= current`; after a wrap, exactly when the border is 0 or at most `current` |
| `WavStreamer.BorderIsSectionStart` | include/WAVStreamer.h:169 | when the sections divide the buffer evenly, border `i` is the first index of section `i` |
| `WavStreamer.FirstCrossedFrom` | include/WAVStreamer.h:168-174 | the loop returns the first crossed border from `i` on, and `NO_EVENT` exactly when none is crossed |
| `WavStreamer.CompleteEvent` | include/WAVStreamer.h:167-175 | a non-negative event names the first crossed section; with at most 128 sections `NO_EVENT` means no border was crossed; the `int8_t` result is always in [-128, 128) |
| `WavStreamer.ReloadSection` | include/WAVStreamer.h:84-86 | the corrected reload section lies in [0, division) and is the one just before the event, wrapping from 0 to the last |
| `WavStreamer.ReloadSectionAsWrittenAgrees` | include/WAVStreamer.h:84-86 | with at most 64 sections the 8-bit arithmetic computes the corrected section |
| `WavStreamer.ReloadSectionOverflow` | include/WAVStreamer.h:81-89 | as written, with 65 sections of length 1 an event at 64 overflows to section -63, which `replace_buffer` rejects, while the intended section is 63 |
| `WavStreamer.ReplaceOutcomeCases` | include/WAVStreamer.h:183-207 | the bounds check never rejects; the copy happens exactly when the section exists and the block has the section's size |
| `WavStreamer.ReplacedBufferFrame` | include/WAVStreamer.h:183-207 | a rejected replacement leaves the target unchanged; an accepted one places the block at `idx * (size / total)` and changes nothing else |
| `WavStreamer.ReplaceBuffer` | include/WAVStreamer.h:183-207 | reports which branch was taken and leaves the target as `ReplacedBuffer` |
| `WavStreamer.BlendBetween` | include/WAVStreamer.h:76 | interpolation starts at the current sample and stays between it and the next |
| `WavStreamer.NextStreamRefillsPrevious` | include/WAVStreamer.h:80-91 | with at most 64 sections, every event refills exactly the section before the one just entered |
| `WavStreamer.StreamStepForward` | include/WAVStreamer.h:62-94 | during forward playback every read is in bounds, the cursor stays in [0, length), the previous cursor equals the new one and the buffer keeps its size |
| `WavStreamer.StreamRun` | include/WAVStreamer.h:116-120 | any number of steps keeps forward playback and in-bounds reads; each step refills the section the 8-bit arithmetic names, as `process()` does |
| `WavStreamer.StreamOutputs` | include/WAVStreamer.h:116-120 | one output per step, each read from the buffer as the as-written refills left it |
| `WavStreamer.StreamRunSnoc` | include/WAVStreamer.h:117-119 | one more loop iteration appends one step to the run and its sample to the outputs |
| `WavStreamer.WAVStreamer.constructor` | include/WAVStreamer.h:37-56 | the first block is copied to the front of a fresh buffer, amplitude and speed 1, interpolation on, cursors 0, no event |
| `WavStreamer.WAVStreamer.CheckCompleteEvent` | include/WAVStreamer.h:167-175 | returns `CompleteEvent` of the stored cursors |
| `WavStreamer.WAVStreamer.ReadAdvance` | include/WAVStreamer.h:63-78 | the cursor advances by `AdvancedIndex` and the sample is `StreamSample` of the old cursor |
| `WavStreamer.WAVStreamer.LoadNextBlock` | include/WAVStreamer.h:80-91 | on an event the event is recorded and the section that the `int8_t` arithmetic names is refilled, or nothing is written when `replace_buffer` rejects that index; the previous cursor becomes the current one |
| `WavStreamer.WAVStreamer.Process` | include/WAVStreamer.h:62-94 | state and sample are those of `StreamStep`, whose refill uses the 8-bit section index |
| `WavStreamer.WAVStreamer.ProcessNext` | include/WAVStreamer.h:117-119 | one iteration: the state is one step further along `StreamRun` and the sample is the next output |
| `WavStreamer.WAVStreamer.ProcessInto` | include/WAVStreamer.h:117-119 | as `ProcessNext`, writing the sample to entry `i` and nothing after it |
| `WavStreamer.WAVStreamer.ProcessBuffer` | include/WAVStreamer.h:116-120 | the state after `length` samples is `StreamRun` of the blocks, the buffer's prefix holds `StreamOutputs` and the rest is untouched |
| `WavStreamer.WAVStreamer.SetInterpolateSamples` | include/WAVStreamer.h:122-124 | only the interpolation flag changes |
| `WavStreamer.WAVStreamer.SetSpeed` | include/WAVStreamer.h:134-136 | only the speed changes |
| `MoogLadder.MyTanh` | src/FilterLowPassMoogLadder.h:154-166 | negative arguments come back unchanged (the sign flip undoes itself), [0, 0.5) is the identity, 4 and above saturate at 1, and [0.5, 4) uses `tanh` |
| `MoogLadder.MyTanhBounds` | src/FilterLowPassMoogLadder.h:154-166 | under the `tanh` laws, a non-negative argument maps into [0, 1] and never above itself |
| `MoogLadder.Clamped` | src/FilterLowPassMoogLadder.h:88 | the resonance used is never negative and equals a non-negative setting |
| `MoogLadder.CacheAfter` | src/FilterLowPassMoogLadder.h:94-113 | after the cache check the cache holds the current cutoff and resonance |
| `MoogLadder.CacheAfterIsFresh` | src/FilterLowPassMoogLadder.h:94-113 | from a coherent cache the coefficients `process` uses are exactly those of the current cutoff, and the cache stays coherent: the cache is only an optimisation |
| `MoogLadder.WithDelay` | src/FilterLowPassMoogLadder.h:119-126 | writing one delay cell changes that cell and no other |
| `MoogLadder.WithTanhstg` | src/FilterLowPassMoogLadder.h:122 | writing one cached stage changes that stage and no other |
| `MoogLadder.Mean` | src/FilterLowPassMoogLadder.h:125 | the half-sample average lies between its two arguments |
| `MoogLadder.InnerRun` | src/FilterLowPassMoogLadder.h:120-124 | the stage loop leaves the input cell and the two output cells alone |
| `MoogLadder.PassOutputIsMean` | src/FilterLowPassMoogLadder.h:118-126 | after a pass, cell 4 holds the last stage and cell 5 the mean of that stage and the previous cell 4 |
| `MoogLadder.FilterStepMatchesFresh` | src/FilterLowPassMoogLadder.h:86-129 | from a coherent cache, one `process` gives the same ladder and output as recomputing the coefficients from scratch, and keeps the cache coherent |
| `MoogLadder.InnerRunSilent` | src/FilterLowPassMoogLadder.h:120-124 | the stage loop maps the silent ladder to itself |
| `MoogLadder.PassSilent` | src/FilterLowPassMoogLadder.h:117-127 | a pass over the silent ladder with zero input stays silent and yields 0 |
| `MoogLadder.SilenceStaysSilent` | src/FilterLowPassMoogLadder.h:86-129 | a silent filter fed a zero sample stays silent and outputs 0, whatever the coefficients |
| `MoogLadder.FilterOutputs` | src/FilterLowPassMoogLadder.h:79-84 | one output per input |
| `MoogLadder.FilterRunSnoc` | src/FilterLowPassMoogLadder.h:81-83 | one more loop iteration appends one step to the run and its output to the outputs |
| `MoogLadder.FilterLowPassMoogLadder.constructor` | src/FilterLowPassMoogLadder.h:66-77 | cutoff 1000, resonance 0.4, every delay and stage cell 0, an empty cache (old resonance -1) |
| `MoogLadder.FilterLowPassMoogLadder.RunPass` | src/FilterLowPassMoogLadder.h:118-126 | one pass of the outer loop updates the cells as `Pass` does and returns its signal |
| `MoogLadder.FilterLowPassMoogLadder.RefreshCache` | src/FilterLowPassMoogLadder.h:94-113 | the cache becomes `CacheAfter` and the returned coefficients are the cached ones |
| `MoogLadder.FilterLowPassMoogLadder.RunPasses` | src/FilterLowPassMoogLadder.h:117-128 | the two passes leave the ladder as `OuterRun` and return cell 5 |
| `MoogLadder.FilterLowPassMoogLadder.Process` | src/FilterLowPassMoogLadder.h:86-129 | state and output are those of `FilterStep`; settings unchanged |
| `MoogLadder.FilterLowPassMoogLadder.ProcessInto` | src/FilterLowPassMoogLadder.h:81-83 | one iteration: the state is one step further along `FilterRun` and entry `i` holds its output |
| `MoogLadder.FilterLowPassMoogLadder.ProcessBuffer` | src/FilterLowPassMoogLadder.h:79-84 | the buffer is filtered in place: the prefix becomes `FilterOutputs` of its old contents, the state `FilterRun`, the rest untouched |
| `MoogLadder.FilterLowPassMoogLadder.SetFrequency` | src/FilterLowPassMoogLadder.h:138-140 | only the cutoff changes |
| `MoogLadder.FilterLowPassMoogLadder.SetResonance` | src/FilterLowPassMoogLadder.h:149-151 | only the resonance changes |
| `FunctionOscillator.Mod` | src/OscillatorFunction.h:43-45 | below the modulus the value is returned as is; for a positive modulus at or below the value the result lies in [0, b) |
| `FunctionOscillator.ModIsFlooredRemainder` | src/OscillatorFunction.h:43-45 | for non-negative values and a positive modulus, `mod` is the floored remainder `a - b * floor(a / b)` |
| `FunctionOscillator.SinePhase` | src/OscillatorFunction.h:132-138 | the phase advances by the step, less 2π once past 2π; from [0, 2π] with a step in [0, 2π] it stays in [0, 2π] |
| `FunctionOscillator.CyclePhase` | src/OscillatorFunction.h:127-128 | a non-negative advanced phase wraps into [0, sr); a negative one is left as it is |
| `FunctionOscillator.CenteredRatioBounds` | src/OscillatorFunction.h:149-151 | the centred ratio `(n - q) / q` lies in [-1, 1] for `n` in [0, 2q] |
| `FunctionOscillator.TriangleOf` | src/OscillatorFunction.h:149-151 | a phase in [0, sr] gives a value in [-1, 1] |
| `FunctionOscillator.TriangleShape` | src/OscillatorFunction.h:149-151 | the triangle is symmetric about sr/2, 1 at phase 0 and -1 at sr/2 |
| `FunctionOscillator.SawtoothOf` | src/OscillatorFunction.h:129 | a phase in [0, sr) gives a value in [-1, 1) |
| `FunctionOscillator.SawtoothRises` | src/OscillatorFunction.h:129 | the sawtooth is strictly increasing in the phase and starts at -1 |
| `FunctionOscillator.SquareOf` | src/OscillatorFunction.h:143 | the square is always 1 or -1, and 1 exactly when the phase is above sr/2 |
| `FunctionOscillator.FrequencySet` | src/OscillatorFunction.h:75-80 | stores the frequency; an unchanged value leaves everything as it was; nothing but frequency and step changes |
| `FunctionOscillator.FrequencySetCoherent` | src/OscillatorFunction.h:75-80 | a coherent step stays coherent, and a changed frequency always leaves a coherent step |
| `FunctionOscillator.Shape` | src/OscillatorFunction.h:84-102 | the square shape is ±1; noise and unknown waveforms leave the phase alone; an unknown waveform gives 0 |
| `FunctionOscillator.ShapeBounded` | src/OscillatorFunction.h:84-102 | under a bounded `sin`, draws in [0, 1) and a non-negative advanced phase, every waveform's raw value lies in [-1, 1] |
| `FunctionOscillator.ShapePhaseInRange` | src/OscillatorFunction.h:126-152 | the sine keeps its phase in [0, 2π] for a step in [0, 2π]; the other shapes keep it in [0, sr) for a non-negative frequency |
| `FunctionOscillator.Emit` | src/OscillatorFunction.h:103-104 | a raw value in [-1, 1] with a non-negative amplitude lands within the amplitude around the offset |
| `FunctionOscillator.OscStep` | src/OscillatorFunction.h:82-106 | only the phase changes; an unknown waveform outputs the offset; the square outputs offset ± amplitude |
| `FunctionOscillator.OscStepBounded` | src/OscillatorFunction.h:82-106 | under the conditions of `ShapeBounded` the output stays within the amplitude around the offset |
| `FunctionOscillator.OscRun` | src/OscillatorFunction.h:108-112 | any number of calls changes only the phase |
| `FunctionOscillator.OscOutputs` | src/OscillatorFunction.h:108-112 | one output per call |
| `FunctionOscillator.OscRunSnoc` | src/OscillatorFunction.h:109-111 | one more loop iteration appends one step to the run and its output to the outputs |
| `FunctionOscillator.OscRunPhaseInRange` | src/OscillatorFunction.h:82-112 | over any number of calls the phase keeps to its range (as in `ShapePhaseInRange`) |
| `FunctionOscillator.OscillatorFunction.constructor` | src/OscillatorFunction.h:37-41 | waveform sine, frequency 220 with its step, amplitude 0.75, and a coherent step |
| `FunctionOscillator.OscillatorFunction.SetWaveform` | src/OscillatorFunction.h:51-53 | only the waveform changes |
| `FunctionOscillator.OscillatorFunction.SetAmplitude` | src/OscillatorFunction.h:59-61 | only the amplitude changes |
| `FunctionOscillator.OscillatorFunction.SetOffset` | src/OscillatorFunction.h:67-69 | only the offset changes |
| `FunctionOscillator.OscillatorFunction.SetFrequency` | src/OscillatorFunction.h:75-80 | the state becomes `FrequencySet` of the old one |
| `FunctionOscillator.OscillatorFunction.ProcessSine` | src/OscillatorFunction.h:132-138 | the phase becomes `SinePhase` and the value is `sin` of the new phase |
| `FunctionOscillator.OscillatorFunction.ProcessTriangle` | src/OscillatorFunction.h:146-152 | the phase becomes `CyclePhase` and the value is `TriangleOf` the new phase |
| `FunctionOscillator.OscillatorFunction.ProcessSawtooth` | src/OscillatorFunction.h:126-130 | the phase becomes `CyclePhase` and the value is `SawtoothOf` the new phase |
| `FunctionOscillator.OscillatorFunction.ProcessSquare` | src/OscillatorFunction.h:140-144 | the phase becomes `CyclePhase` and the value is `SquareOf` the new phase |
| `FunctionOscillator.OscillatorFunction.Process` | src/OscillatorFunction.h:82-106 | state and output are those of `OscStep` |
| `FunctionOscillator.OscillatorFunction.ProcessBuffer` | src/OscillatorFunction.h:108-112 | the state after `length` calls is `OscRun`, the buffer's prefix holds `OscOutputs` and the rest is untouched |
| `IirResonator.CoefficientsFor` | src/Resonator.h:93-109 | the feedforward and feedback coefficients coincide (`a1 == b1`, `a2 == b2`); `a0` stays `1 + alpha`, unnormalised, while `a1` and `a2` are `-2 cos(omega)` and `1 - alpha` divided by it |
| `IirResonator.ResonatorStep` | src/Resonator.h:51-62 | the delay line shifts: `x2` takes the old `x1`, `x1` the input, `y2` the old `y1`, `y1` the output |
| `IirResonator.ExcessIsResonance` | src/Resonator.h:51-62 | with those coefficients the output exceeds the input by `alpha * input` run through the poles alone: `e = alpha*x - b1*e1 - b2*e2` on the excesses `y - x` |
| `IirResonator.StepSuperposition` | src/Resonator.h:51-62 | one step is linear in input and state together |
| `IirResonator.ResonatorOutputs` | src/Resonator.h:51-62 | one output per input |
| `IirResonator.AddSignals` | src/Resonator.h:51-62 | signals added sample by sample |
| `IirResonator.RunSuperposition` | src/Resonator.h:51-62 | over any number of samples, the response to a sum of inputs from a sum of states is the sum of the responses: the resonator is a linear system |
| `IirResonator.SilenceStaysSilent` | src/Resonator.h:51-62 | from the zeroed state of the constructors, silence in gives silence out and leaves the state zero |
| `IirResonator.Resonator.constructor` | src/Resonator.h:46-49 | stores frequency, sample rate and Q, computes the coefficients, zero delays |
| `IirResonator.Resonator.Default` | src/Resonator.h:41-44 | the same with 440 Hz, 48000 Hz and Q 1 |
| `IirResonator.Resonator.CalculateCoefficients` | src/Resonator.h:93-109 | the coefficients become `CoefficientsFor` the settings; settings and delays unchanged |
| `IirResonator.Resonator.Process` | src/Resonator.h:51-62 | state and output are those of `ResonatorStep`; settings and coefficients unchanged |
| `IirResonator.Resonator.SetFrequency` | src/Resonator.h:64-67 | the frequency changes and the coefficients follow; delays unchanged |
| `IirResonator.Resonator.SetQ` | src/Resonator.h:73-76 | Q changes and the coefficients follow; delays unchanged |
| `Numerics.Trunc` | include/WAVStreamer.h:64 | a cast to an integer truncates toward zero |
| `Numerics.ToInt8` | include/WAVStreamer.h:81-86 | storing into an `int8_t` keeps values in [-128, 128) and wraps others modulo 256 |
| `Numerics.ToUint16` | include/Wavetable.h:270 | storing into a `uint16_t` wraps modulo 65536 |
| `Numerics.CRem` | include/WAVStreamer.h:86 | C's `%` takes the sign of the dividend and agrees with Dafny's on non-negative values |

## Left out

General:
- Float rounding, and IEEE infinities or NaN after a division by zero. Samples are exact reals, so a member whose C++ would divide by zero requires a nonzero divisor. `Smoothing.FollowerCoef` is the exception: it returns 0 for a zero time or sample rate, the IEEE value of exp(-1/+0).
- The bodies of `sin`, `cos`, `tanh`, `exp`, `log`, `sqrt` and the fast sine. They are uninterpreted, so no spectral or waveform-shape claim is made about a table or signal built from them.
- Destructors, copy semantics and thread safety.
- `FMSynthesis`, `ScaleCollection`, `Autotune` and the test programs are not part of this model.

ADSR:
- `Adsr.ADSR.constructor`: requires a positive sample rate.
- `Adsr.ADSR.Process`: the pre-attack fade-to-zero state is switched off by `USE_FADE_TO_ZERO_STATE`, a constant the constructor sets to `false`, so the model has no such state.

Smoothers:
- `SrcRootMeanSquare.RootMeanSquare.Process`: the running sum is exact. The float sum's drift away from the window's true sum is not modelled.

Wavetable and table fills:
- `WavetableShapes.SawtoothRamp`: requires a size other than 1, because the C++ divides by `size - 1`.
- `WavetableShapes.Pulse`: requires `size * pulseWidth` to lie in the range where the cast to `uint32_t` is defined.
- `WavetableShapes.TriangleHarmonics`: requires at most 254 harmonics. The `uint8_t` loop counter in the odd-harmonic loops never ends for 255.
- `WavetableShapes.SquareHarmonics`: requires at most 254 harmonics, for the same reason.
- `WavetableOscillator.Wavetable.ProcessBuffer`: requires a length below 65536. The `uint16_t` loop counter would never reach a longer length. The same bound holds for `WavStreamer.WAVStreamer.ProcessBuffer` and `FunctionOscillator.OscillatorFunction.ProcessBuffer`.
- `WavetableOscillator.Wavetable.constructor`: requires a positive size and sample rate.
- The heap table that the constructor allocates starts as zeros in the model.
- Fields the constructor leaves uninitialised are fixed to 0.
- `WavetableOscillator.Wavetable.SetOscillationSpeed`: requires a nonzero frequency, since the C++ divides by it.
- `WavetableOscillator.Wavetable.ProcessBuffer`: requires the output buffer to be a different array from the table.
- `WavetableOscillator.WrappedIndicesAgreeInRange`: stated for tables below 2^32 - 1 entries only.

Noise:
- `NoiseBank.PolarScale`: the rejection loop accepts a radius of 0 (two draws of exactly 0.5). At radius 0 the C++ yields NaN; the model yields 0.
- `srand(time)` seeding and the Mersenne twister become parameters (the draws), so no distribution property is stated for `Gaussian` or `GaussianFast`.
- `NoiseBank.SimplexAt`: no continuity or gradient property. Only its output range is stated.
- The unused `mPN_b` and `mPN_state` arrays of `GaussianWhiteNoise` are not modelled.
- The order in which the `SimplexNoise` constructor draws its shuffle is taken as one draw sequence.
- `NoiseBank.Noise.Process`: each noise type reads its own draw sequence.

WAV streamer:
- File input, `print_info` and the `WAVFile` reader are not part of this model. The blocks that `get_sample_block` returns become parameters.
- The part of the playback buffer beyond the first block is zeros in the model. In the C++ it is uninitialised.
- `WavStreamer.WAVStreamer.ProcessBuffer`: requires forward playback, so its loop invariants can track the reload schedule.
- Not modelled: the `int32_t` index overflow for buffers of 2^31 samples or more, and the float rounding of section borders.

Moog ladder:
- `MoogLadder.FilterLowPassMoogLadder.constructor`: requires a positive sample rate.
- `fOldAcr` and `fOldTune` are fixed to 0 before the first coefficient computation.

Function oscillator:
- `FunctionOscillator.Mod`: requires a nonzero divisor.
- `FunctionOscillator.OscillatorFunction.constructor`: requires a positive sample rate.
- Fields left unset by the constructor are fixed to 0.
- `random()` becomes a parameter.
- The `double`/`float` casts are not modelled.

Resonator:
- `IirResonator.Computable`: requires a nonzero sample rate, Q factor and `a0`, the divisors of the coefficient formulas.

## Findings

| source | as written | input that shows it | evidently intended | confidence | as-written member | corrected member |
|---|---|---|---|---|---|---|
| include/Wavetable.h:186-196 | the third quarter of `triangle` stores `-i / qf` with `i` a `uint32_t`, so the negation wraps to `2^32 - i` | table of 8 entries: entry 5 becomes about 2.1e9 (exactly (2^32 - 1) / 2 over the reals; 2147483648 after `float` rounding) | `-(float) i / qf`, entry 5 is -0.5 and every entry lies in [-1, 1] | high, not executed | `WavetableShapes.TriangleAsWrittenOutOfRange` | `WavetableShapes.TriangleEntryInRange` |
| include/Wavetable.h:460-491 | the linear and cubic readers take `(int)(cursor + offset)` as base index without wrapping it | table of 4 entries, phase offset 0.5, cursor at 3: the linear reader reads entry 5, the cubic reader entry 4 | the base index wrapped modulo the table size, as the neighbour indices already are | high, not executed | `WavetableOscillator.InterpolationReadsOutOfBounds` | `WavetableOscillator.WrappedIndicesAgreeInRange` |
| include/Wavetable.h:146-148 | `sawtooth(table, size)` calls `sawtooth(table, size, true)`, which resolves to the harmonic overload with `harmonics == 1` and writes one sine partial | table of 2 entries: `[0, 0]` | the ramp of `sawtooth_ramp(table, size, true)`, `[1, -1]` | medium, not executed | `WavetableShapes.SawtoothAsWrittenIsNotARamp` | `WavetableShapes.Sawtooth` |
| include/WAVStreamer.h:81-89 | the section to reload, `(e - 1 + division) % division`, is computed in `int8_t` and wraps past 127 | 65 sections, event 64: the sum is 128, wraps to -128, and the section comes out as -63, so `replace_buffer` rejects it | section 63 | high, not executed | `WavStreamer.ReloadSectionOverflow` | `WavStreamer.ReloadSection` |
