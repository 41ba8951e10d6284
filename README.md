# Hutara oscillator and random-CV engines in Dafny

This project models three per-sample engines from the Hutara VCV Rack plugin.
Each engine is run by the host once per audio sample.

- **FmOperator, resampling variant** (`src/Hutara.cpp`). Four oscillators (triangle, sine, saw,
  square) share an FM depth and a pitch-for-all CV. Each oscillator advances its phase with a
  single-subtraction wrap and passes its raw wave through an exact-zero-bypass "psychedelic"
  blend shaper. Each output is five times its volume times its value. The thresholded square of
  every oscillator is also read through a 9-tap Hamming-windowed sinc resampler over an 8-entry
  ±1 table. The final output is five times the additive mix, times the volume-scaled resampled
  mix, times the resample factor.
- **FmOperator, wavefolding variant** (`Hutara.cpp`). It uses the same phase and shaper core,
  but has no pitch-for-all input and its triangle amount is not inverted. The square is folded
  once at a knob-and-CV threshold. The final output is the plain sum of the four outputs.
- **Hutara_Random_CV** (`src/Random.cpp`). An edge-triggered sample-and-hold. The `sampleNext`
  latch arms at a 1 V input and disarms below it. Each arming takes one random value, scaled
  bipolar or unipolar, clamped and offset, and draws a random gate with its complement.

Everything is over `real`. `sin`, `cos`, `pow` and `dsp::FREQ_C4` are the fields of a `Maths`
record that every member using them receives (`transcendental.dfy`). So no property assumes
their values except through an explicit precondition. The random draws of `generateRandomFloat()` are a `Draws` parameter. The ON-input
voltage is a parameter; an unplugged jack reads 0 V in the host.

Files:

- `transcendental.dfy`: module `Transcendental`, with `Pi`, `Maths`, `Abs`, `Fraction` and
  arithmetic helpers.
- `oscillator_core.dfy`: module `OscillatorCore`, what both FmOperator variants share (FM depth,
  pitch law, phase wrap, raw waves, blend, sine and saw amounts, output voltage).
- `resampler.dfy`: module `Resampler`, with `sinc` and `resampled`. `resampled` is a method with
  the source's two loops over an `array`, proved against the prefix sum `TapPrefix`.
- `resampling_operator.dfy`: module `ResamplingOperator`, the class `FmOperator` of
  `src/Hutara.cpp`.
- `wavefolding_operator.dfy`: module `WavefoldingOperator`, `wavefolding` and the class
  `FmOperator` of `Hutara.cpp`.
- `random_cv.dfy`: module `RandomCv`, `clamp`, the latch as a function of the input stream, and
  the class `RandomCv`.

In both FmOperator classes the four output jacks and the final jack are fields (`triangleOut`,
…, `finalOut`), because the source writes them and reads them back. `process` is split into one
method per oscillator section, in source order, each modifying only its own phase and output.
In the resampling variant the four `resampled` calls read no state. They are gathered in
`ResampleSquares` after the oscillator sections, on the same updated phases the source hands
them.

## Model

| member | source | states |
|---|---|---|
| OscillatorCore.FmAmountCompounds | src/Hutara.cpp:174-181 | The FM depth is `fmParam + k·k·cv`: the FM-amount CV is weighted by the knob squared, vanishes at knob 0, and moves the depth in the CV's direction whatever the knob's sign |
| OscillatorCore.AdvancePhase | src/Hutara.cpp:204-206 | The updated phase is `phase+inc` or `phase+inc−1`, the latter exactly when `phase+inc ≥ 1`, and it stays in [0,1) when the phase and the increment are in [0,1) |
| OscillatorCore.Wrap | src/Hutara.cpp:218-220 | The in-place accumulator step equals `AdvancePhase` and keeps the phase in [0,1) for an increment in [0,1); the same step is at src/Hutara.cpp:204-206, 233-235, 257-259 and Hutara.cpp:185-187, 198-200, 211-213, 228-230 |
| OscillatorCore.AdvanceIsFraction | src/Hutara.cpp:233-235 | Within range, the single subtraction computes the fractional part of `phase + inc` |
| OscillatorCore.AdvanceMayStayOutOfRange | src/Hutara.cpp:257-259 | The wrap subtracts only once: the updated phase stays at or above 1 exactly when `phase + inc ≥ 2`, e.g. (0.5, 1.5) gives 1.0 |
| OscillatorCore.TriangleWave | src/Hutara.cpp:209 | The raw triangle is `1−4·phase` on the first half cycle and `4·phase−3` on the second, within [−1,1] over a cycle |
| OscillatorCore.SawWave | src/Hutara.cpp:243 | The raw saw lies in [0,2) and is `2·phase` inside the cycle |
| OscillatorCore.SquareLevel | src/Hutara.cpp:207 | The thresholded square is ±1, and −1 exactly when the phase is below 0.5 |
| OscillatorCore.Blend | src/Hutara.cpp:210 | An amount of exactly 0 returns the raw value unchanged |
| OscillatorCore.BlendMovesTowardsShape | src/Hutara.cpp:226 | A nonzero amount `a` gives `r + a·(0.5·shape − r)`, which is `(1−a)·r + a·0.5·shape`: it reaches half the shape at `a = 1` and leaves a raw value equal to half the shape where it is |
| OscillatorCore.SineAmountScalesKnob | src/Hutara.cpp:183-188 | The sine amount is `sineParam·(1 + allCV·knob)`: the all-oscillator CV only scales the sine knob, so it has no effect with that knob at 0 |
| OscillatorCore.SawAmount | src/Hutara.cpp:240-241 | The saw amount is the saw's own knob and CV when the psychedelic knob or the all-oscillator CV is 0; with a non-negative knob the all-oscillator CV moves it in the CV's direction |
| OscillatorCore.SawShapeBounded | src/Hutara.cpp:107-109 | `sawWaveshaper` stays within ±1.6 when `sin` and `cos` stay within [−1, 1], and is 0.8 at x = 0 for an exact `sin(0)`/`cos(0)` |
| OscillatorCore.VoltageScales | src/Hutara.cpp:211 | A named output `5·volume·value` is silent iff the volume or the value is 0, and lies within ±5 V for a volume in [0,1] and a value in [−1,1] |
| OscillatorCore.ZeroAmountBypassesShapers | src/Hutara.cpp:209-246 | With amount 0 the shaped triangle, sine and saw are the raw waves, for any phase and any `sin`/`cos` |
| OscillatorCore.BypassedShapesStayInRange | src/Hutara.cpp:243-245 | Bypassed and inside the cycle, the triangle stays in [−1,1] and the saw in [0,2) |
| Resampler.Sinc | src/Hutara.cpp:128-131 | `sinc(0)` is exactly 1 |
| Resampler.ReferenceSample | src/Hutara.cpp:138-140 | Every reference-table entry is +1 or −1 |
| Resampler.ReferenceSampleAlternates | src/Hutara.cpp:138-140 | On the 8 entries the table is +1 exactly at the even indices and −1 at the odd ones, as the fill loop writes it |
| Resampler.Resampled | src/Hutara.cpp:134-161 | The method with both loops returns `0.4 + Σ weight(i)·table[i0+i]` over the taps −4..4 with `0 ≤ i0+i < 8`, in the loop's order, where `index = (x+1)·0.5·7·(0.5+cv)` and `i0 = floor(index)` |
| Resampler.TapPrefixIsSegment | src/Hutara.cpp:150-157 | The taps that pass the range test form one contiguous run of offsets, from `max(−4, −i0)` to `min(n, 8−i0)` |
| Resampler.TableSumIsSegment | src/Hutara.cpp:150-157 | Walking the table and keeping the entries within four places of `i0` gives a run of offsets with the same bounds |
| Resampler.TapsCoverTableNeighbourhood | src/Hutara.cpp:150-157 | Skipping the out-of-range taps, with no zero padding, adds exactly the table entries within four places of `i0`, each once |
| Resampler.NoTapInReach | src/Hutara.cpp:143-157 | When `i0 < −4` or `i0 ≥ 12` no tap is read and `resampled` returns the bare 0.4 bias |
| Resampler.LowInputReadsTableStart | src/Hutara.cpp:143-157 | For x = −1, index = 0, i0 = 0 and frac = 0. Only offsets 0..4 contribute, and the centre tap weighs its window exactly since sinc(0) = 1 |
| Resampler.HighInputUnitRateReadsTableEnd | src/Hutara.cpp:143-157 | For x = 1 and cv = 0.5 the read position is 7. Only offsets −4..0 contribute, and the centre tap reads the last (−1) entry |
| Resampler.LowInputWithExactSinc | src/Hutara.cpp:128-157 | With `sin(πk) = 0` for k = 1..4, every off-centre tap weighs 0 and x = −1 resamples to `0.4 + window(0)` |
| Resampler.HighInputWithExactSinc | src/Hutara.cpp:128-157 | With `sin(−πk) = 0` for k = 1..4, x = 1 at cv = 0.5 resamples to `0.4 − window(0)` |
| ResamplingOperator.OscExponentClosedForm | src/Hutara.cpp:197-199 | Each exponent is `pitchParam + pitchCV + pitchAll + (fm + k²·fmCV)·fmIn`, the pitch sum alone with no FM input; the same form is at lines 214-216, 230-232 and 249-251 |
| ResamplingOperator.TriangleAmountInverted | src/Hutara.cpp:169-202 | The triangle amount is `triParam + triCV − allCV·knob²`, so a positive all-CV never raises it and a negative one never lowers it |
| ResamplingOperator.TriangleAmountAgainstSaw | src/Hutara.cpp:201-202 | The triangle's all-CV term is minus the knob times the saw's all-CV term (lines 240-241): the same CV, negated and scaled by the knob once more |
| ResamplingOperator.FinalMixSilence | src/Hutara.cpp:273-279 | The final output `5·additive·resampled·factor` is silent iff one of the three factors is 0 |
| ResamplingOperator.ResampleSquares | src/Hutara.cpp:267-278 | The four `resampled` calls, each on its oscillator's updated-phase square, are scaled by their own volumes and summed into the resampled mix |
| ResamplingOperator.FmOperator.constructor | src/Hutara.cpp:6-15 | The phases and the latched knob start at 0 and the phases start in [0,1) |
| ResamplingOperator.FmOperator.Process | src/Hutara.cpp:162-290 | One sample advances every phase by `AdvancePhase` with `FREQ_C4·2^exponent·sampleTime`, latches the knob, and writes each output as `Voltage(volume, shaped wave)`. The square's sign comes from the phase before the update. The final output is the `FinalMix` of the named outputs with the resampled squares of the updated phases. Phases in [0,1) stay there for increments in [0,1) |
| ResamplingOperator.FmOperator.RunOscillators | src/Hutara.cpp:196-265 | The four oscillator sections in order, with their phases and outputs as in `Process` |
| ResamplingOperator.FmOperator.RunTriangle | src/Hutara.cpp:196-211 | The triangle phase advances once, and the output is the blended triangle of the updated phase with the inverted amount |
| ResamplingOperator.FmOperator.RunSine | src/Hutara.cpp:213-227 | The sine phase advances once, and the output is the blended sine of the updated phase |
| ResamplingOperator.FmOperator.RunSaw | src/Hutara.cpp:229-246 | The saw phase advances once, and the output is the saw-shaped saw of the updated phase |
| ResamplingOperator.FmOperator.RunSquare | src/Hutara.cpp:248-265 | The square phase advances once, and the output is `±5·volume` with the sign taken from the phase before the update |
| ResamplingOperator.FmOperator.MixDown | src/Hutara.cpp:267-279 | The final output is `FinalMix` of the four output voltages and the resampled mix |
| ResamplingOperator.FinalOutputIsUnclamped | src/Hutara.cpp:273-279 | No clamping: with all volumes at 1, all outputs at +5 V and resample CV 10 V against knob 0.8, each resampled square is the 0.4 bias and the final output is 1280 V |
| WavefoldingOperator.OscExponentClosedForm | Hutara.cpp:178-180 | Without pitch-for-all, each exponent is `pitchParam + pitchCV + (fm + k²·fmCV)·fmIn` |
| WavefoldingOperator.TriangleAmount | Hutara.cpp:182-183 | The triangle's all-CV term is `+allCV·knob`, not inverted and applied once, the same term the saw receives |
| WavefoldingOperator.WavefoldThresholdCountsKnobTwice | Hutara.cpp:171-176 | The threshold passed at line 235 is `p + (p + cv·p) = p·(2 + cv)`: twice the knob with the CV unplugged, 1 at the default knob 0.5, and non-negative for a knob in [0,1] and a CV ≥ −2 |
| WavefoldingOperator.Wavefolding | Hutara.cpp:130-144 | Without modulation the result is the fold of x, so a value within [−amount, amount] comes back unchanged; a bent value not below −amount never ends above amount |
| WavefoldingOperator.FoldKeepsInside | Hutara.cpp:130-144 | A folded value within [−t, t] is returned exactly |
| WavefoldingOperator.FoldReflects | Hutara.cpp:137-141 | Above t the result is as far below t (`2t − f`). For t ≥ 0, below −t it is as far above −t (`−2t − f`). For t < 0 every value above t, including those between t and −t, is reflected about t: 0 folded at −1 gives −2 |
| WavefoldingOperator.FoldBounded | Hutara.cpp:137-141 | Each reflection is one-sided: `f ≥ −t` ends at most t and `f ≤ t` ends at least −t, so `|f| ≤ 3t` ends within [−t, t] |
| WavefoldingOperator.FoldIsOdd | Hutara.cpp:137-141 | For t ≥ 0, folding −f gives minus the fold of f |
| WavefoldingOperator.FoldMayLeaveRange | Hutara.cpp:137-141 | Only one pass is made: 1 folded at 0.1 gives −0.8, outside [−0.1, 0.1] |
| WavefoldingOperator.UnmodulatedFoldScenario | Hutara.cpp:130-144 | Without modulation a +1 square folded at 0.5 gives 0, which a knob of 0.25 with the CV unplugged produces |
| WavefoldingOperator.ModulationInertOnSquare | Hutara.cpp:134 | With `sin(±2π) = 0`, the modulation term cannot bend a ±1 square at any depth |
| WavefoldingOperator.SquareFoldLevels | Hutara.cpp:233-235 | With an exact sine, a threshold ≥ 1 leaves the updated-phase square alone, one in [0,1) gives `±(2t−1)`, and one ≥ 1/3 keeps it within [−t, t] |
| WavefoldingOperator.DefaultKnobLeavesSquare | Hutara.cpp:171-176 | At the default wavefold knob 0.5 with the CV unplugged, the square passes the fold untouched |
| WavefoldingOperator.FmOperator.constructor | Hutara.cpp:7-19 | The phases and the latched knob start at 0 and the phases start in [0,1) |
| WavefoldingOperator.FmOperator.Process | Hutara.cpp:146-257 | One sample advances every phase by `AdvancePhase`, latches the knob, and writes each output as `Voltage(volume, shaped wave)`. The square is folded at `p·(2+cv)` from its updated phase. The final output is the plain, unclamped sum of the four outputs. Phases in [0,1) stay there for increments in [0,1) |
| WavefoldingOperator.FmOperator.RunOscillators | Hutara.cpp:177-237 | The four oscillator sections in order, with their phases and outputs as in `Process` |
| WavefoldingOperator.FmOperator.RunTriangle | Hutara.cpp:177-191 | The triangle phase advances once, and the output is the blended triangle of the updated phase with the non-inverted amount |
| WavefoldingOperator.FmOperator.RunSine | Hutara.cpp:193-205 | The sine phase advances once, and the output is the blended sine of the updated phase |
| WavefoldingOperator.FmOperator.RunSaw | Hutara.cpp:207-221 | The saw phase advances once, and the output is the saw-shaped saw of the updated phase |
| WavefoldingOperator.FmOperator.RunSquare | Hutara.cpp:223-237 | The square phase advances first. The level and the modulation `sin(2π·phase)` are read from the updated phase, and the level is folded at the threshold |
| WavefoldingOperator.FmOperator.MixDown | Hutara.cpp:240-246 | The final output is the sum of the four named outputs |
| RandomCv.Clamp | src/Random.cpp:131-133 | `min(max(v, lo), hi)` lies in [lo, hi] when lo ≤ hi. It is the identity on that range and the nearer bound outside it, and with lo > hi the upper bound wins |
| RandomCv.RoundHalfAway | src/Random.cpp:66 | `round` gives the integer within one half of x, with halves rounded away from zero |
| RandomCv.SampleValueInRange | src/Random.cpp:96-103 | For V ≥ 0 the S&H value lies in [offset−V, offset+V] bipolar and [offset, offset+V] unipolar, for any draw and strength |
| RandomCv.UnitScaleIsNotClamped | src/Random.cpp:96-103 | For V ≥ 0, when draw·strength is in [−1, 1] the clamp does nothing, and the output is the scaled value plus the offset |
| RandomCv.StrengthDrivesIntoClamp | src/Random.cpp:96-103 | At the default 5 V and strength 5, a draw of 0.5 scales to 12.5 V and is clamped to 5 V, and a unipolar draw of −0.5 is clamped to 0 |
| RandomCv.DrawValue | src/Random.cpp:96-103 | The value steps compute `SampleValue`: the scaled draw, clamped to [−V, V] or [0, V], plus the offset |
| RandomCv.RandomGate | src/Random.cpp:107-118 | The gate is 0 or 10. On settings 1–3 it is open iff the redraw is below the setting's threshold, otherwise iff the first draw is below the gate length |
| RandomCv.DrawGate | src/Random.cpp:107-118 | The draw-then-switch steps compute `RandomGate` |
| RandomCv.FirstGateDrawDiscarded | src/Random.cpp:107-118 | On settings 1–3 the first draw has no effect on the gate, and on other settings the redraw has none |
| RandomCv.GateSettingsOrdered | src/Random.cpp:107-118 | For a gate length ≥ 0 the thresholds order settings 2 ≤ 1 ≤ 3 ≤ other. With the same redraw, a gate open on setting 2 is open on 1, and one open on 1 is open on 3 |
| RandomCv.NextLatch | src/Random.cpp:95-126 | After a call the latch is set exactly when the input is at or above 1 V |
| RandomCv.SampleFlags | src/Random.cpp:95-126 | Over a stream of input voltages, one sample flag is produced per call |
| RandomCv.SamplesAreRisingEdges | src/Random.cpp:95-126 | Call i samples iff its input is ≥ 1 V and the previous input was < 1 V (for the first call, iff the latch was clear) |
| RandomCv.HeldHighSamplesOnce | src/Random.cpp:124-126 | An input held at or above 1 V over several calls samples at most on the first of them |
| RandomCv.SamplesAreSeparatedByLowInput | src/Random.cpp:124-126 | Between two samples, the call just before the later one read an input below 1 V |
| RandomCv.RandomCv.constructor | src/Random.cpp:10-14 | The latch starts clear and the mode starts bipolar |
| RandomCv.RandomCv.Process | src/Random.cpp:61-127 | The latch becomes `NextLatch`. When `Takes` holds (input ≥ 1 V, latch clear) the S&H output is `SampleValue`, the gate is `RandomGate` of the rounded speed switch, and the inverted gate is `10 − gate`. Otherwise the three outputs keep their voltages |

## Left out

- Floating point: everything is over `real`, so rounding, `float`/`double` mixing, NaN and infinities are not modelled.
- `sin`, `cos`, `pow` and `FREQ_C4` are uninterpreted fields of `Maths`. Facts that need their values (`sin(±2π) = 0`, `sin(πk) = 0` at the integers, which makes `sinc` vanish there) appear only as explicit preconditions, in `SquareFoldLevels`, `LowInputWithExactSinc` and similar lemmas.
- The `try`/`catch` around both `process` functions and its `std::cerr` logging are I/O. `process` is modelled as total.
- `std::mt19937` and `std::random_device`: each `generateRandomFloat()` draw is a field of `Draws`. Its range [−1, 1) is not required by any member, since no property here needs it.
- Widgets, panels, lights and parameter/port registration (`configParam` ranges, jack labels).
- Dead code in both FmOperator variants: `frequencyWaveshaper`, `wavetable`, `triangleWaveshaper`, `sineWaveshaper`, `fmScale`, `lpFilter*`, `distortionGain`, and the `psychedelicCVAll` updates (src/Hutara.cpp:172, Hutara.cpp:152-153) whose result is never read.
- Random CV dead code: the `gateSpeed` computation (src/Random.cpp:70-93), and with it `triggerDivisionDivider`, reaches no output. The `phase` and `freq` fields are never read.
- `static_cast<int>` of an out-of-range `floor(index)` in `resampled` is undefined behaviour in C++. The model uses the mathematical floor.
- `process` is split into one method per oscillator section. In the resampling variant the four `resampled` calls, which read no state, are made after the sections, on the same updated phases.
- Resampler.ReferenceSample: defined by an explicit even-entry test. It agrees with the fill loop's `i % 2 == 0` rule on the 8 table entries (`ReferenceSampleAlternates`), which are the only indices the tap loop reads.
- `psychedelicCVKnobScale` (5, src/Hutara.cpp:14 and Hutara.cpp:18) is read only at src/Hutara.cpp:172 and Hutara.cpp:153, whose results are never used, so no blend amount in the model is scaled by 5.
