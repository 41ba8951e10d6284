/**
 * What the two FmOperator variants share: the FM depth, the pitch-to-frequency
 * law, the single-subtraction phase accumulator, the four raw waveforms, the
 * "psychedelic" waveshaper blend with its exact-zero bypass, and the sine and
 * saw blend amounts (composed the same way in both variants).
 */
module OscillatorCore {
  import opened Transcendental

  /** FM depth shared by all four oscillators: `fmParam + fmAmountParam * (fmAmountIn * fmAmountParam)`. */
  function FmAmount(fmParam: real, fmAmountParam: real, fmAmountIn: real): real
  {
    var fmAmountCV := fmAmountIn * fmAmountParam;
    fmParam + fmAmountParam * fmAmountCV
  }

  /**
   * The FM-amount CV is scaled by the FM-amount knob when it is read and then
   * by the knob once more: its contribution is the CV times the knob squared,
   * so it vanishes with the knob at zero and carries the CV's sign whatever the
   * knob's sign.
   */
  lemma FmAmountCompounds(fmParam: real, fmAmountParam: real, fmAmountIn: real)
    ensures FmAmount(fmParam, fmAmountParam, fmAmountIn) == fmParam + fmAmountParam * fmAmountParam * fmAmountIn
    ensures fmAmountParam == 0.0 ==> FmAmount(fmParam, fmAmountParam, fmAmountIn) == fmParam
    ensures fmAmountIn >= 0.0 ==> FmAmount(fmParam, fmAmountParam, fmAmountIn) >= fmParam
    ensures fmAmountIn <= 0.0 ==> FmAmount(fmParam, fmAmountParam, fmAmountIn) <= fmParam
  {
    var k2 := fmAmountParam * fmAmountParam;
    assert fmAmountParam * (fmAmountIn * fmAmountParam) == k2 * fmAmountIn;
    SquareNonNegative(fmAmountParam);
    if fmAmountIn >= 0.0 {
      MulNonNegative(k2, fmAmountIn);
    } else {
      MulNonNegative(k2, -fmAmountIn);
    }
  }

  /** Exponent handed to `pow(2, _)`: the oscillator's pitch plus FM depth times the FM input. */
  function Exponent(pitch: real, fmAmount: real, fmIn: real): real
  {
    pitch + fmAmount * fmIn
  }

  /** `FREQ_C4 * pow(2, exponent)`: equal temperament referenced to middle C, one volt per octave. */
  function Frequency(m: Maths, exponent: real): real
  {
    m.freqC4 * m.pow(2.0, exponent)
  }

  /** Phase increment of one sample: frequency times the sample period. */
  function Increment(m: Maths, exponent: real, sampleTime: real): real
  {
    Frequency(m, exponent) * sampleTime
  }

  /** A phase inside one cycle, [0, 1). */
  predicate InCycle(phase: real)
  {
    0.0 <= phase < 1.0
  }

  /** Phase advance of one sample: `phase += inc; if (phase >= 1) phase -= 1;`. */
  function AdvancePhase(phase: real, inc: real): (r: real)
    ensures r == phase + inc || r == phase + inc - 1.0
    ensures r == phase + inc - 1.0 <==> phase + inc >= 1.0
    ensures InCycle(phase) && InCycle(inc) ==> InCycle(r)
  {
    var next := phase + inc;
    if next >= 1.0 then next - 1.0 else next
  }

  /**
   * The in-place accumulator step each oscillator runs,
   * `phase += inc; if (phase >= 1) phase -= 1;`, on the phase value.
   */
  method Wrap(phase: real, inc: real) returns (next: real)
    ensures next == AdvancePhase(phase, inc)
    ensures InCycle(phase) && InCycle(inc) ==> InCycle(next)
  {
    next := phase + inc;
    if next >= 1.0 {
      next := next - 1.0;
    }
  }

  /**
   * Within range, the single subtraction computes the phase modulo one: the
   * accumulator agrees with the fractional part of phase + increment.
   */
  lemma AdvanceIsFraction(phase: real, inc: real)
    requires 0.0 <= phase < 1.0 && 0.0 <= inc < 1.0
    ensures AdvancePhase(phase, inc) == Fraction(phase + inc)
  {
    var s := phase + inc;
    if s >= 1.0 {
      assert (s - 1.0).Floor == 0;
      assert s.Floor == 1;
    } else {
      assert s.Floor == 0;
    }
  }

  /**
   * The wrap subtracts one only once: the phase stays at or above one exactly
   * when `phase + inc` is at least two, e.g. 0.5 advanced by 1.5.
   */
  lemma AdvanceMayStayOutOfRange(phase: real, inc: real)
    ensures AdvancePhase(phase, inc) >= 1.0 <==> phase + inc >= 2.0
    ensures AdvancePhase(0.5, 1.5) == 1.0
    ensures AdvancePhase(0.75, 2.5) >= 1.0
  {
  }

  /** Raw triangle `2 * (|2 * phase - 1| - 0.5)`: falls from 1 to -1 over the first half cycle, rises back over the second. */
  function TriangleWave(phase: real): (r: real)
    ensures phase <= 0.5 ==> r == 1.0 - 4.0 * phase
    ensures phase >= 0.5 ==> r == 4.0 * phase - 3.0
    ensures 0.0 <= phase <= 1.0 ==> -1.0 <= r <= 1.0
  {
    2.0 * (Abs(2.0 * phase - 1.0) - 0.5)
  }

  /** Raw sine `sin(2 * pi * phase)`. */
  function SineWave(m: Maths, phase: real): real
  {
    m.sin(2.0 * Pi * phase)
  }

  /** Raw saw `2 * (phase - floor(phase))`: a ramp over [0, 2), not centred on zero. */
  function SawWave(phase: real): (r: real)
    ensures 0.0 <= r < 2.0
    ensures 0.0 <= phase < 1.0 ==> r == 2.0 * phase
  {
    2.0 * Fraction(phase)
  }

  /** The square level a phase selects: -1 on the first half cycle, +1 on the second. */
  function SquareLevel(phase: real): (r: real)
    ensures r == -1.0 || r == 1.0
    ensures r == -1.0 <==> phase < 0.5
  {
    if phase < 0.5 then -1.0 else 1.0
  }

  /** Target shape of the triangle and sine blends: `sin(3 pi r) + cos(5 pi r)`. */
  function PsychedelicShape(m: Maths, r: real): real
  {
    m.sin(3.0 * Pi * r) + m.cos(5.0 * Pi * r)
  }

  /** `sawWaveshaper`: `0.8 * (sin(4 pi x) + cos(6 pi x))`. */
  function SawShape(m: Maths, x: real): real
  {
    0.8 * (m.sin(4.0 * Pi * x) + m.cos(6.0 * Pi * x))
  }

  /**
   * With `sin` and `cos` in [-1, 1] the saw shape stays within ±1.6; at x = 0,
   * where `sin(0) = 0` and `cos(0) = 1`, it is 0.8.
   */
  lemma SawShapeBounded(m: Maths, x: real)
    ensures -1.0 <= m.sin(4.0 * Pi * x) <= 1.0 && -1.0 <= m.cos(6.0 * Pi * x) <= 1.0 ==> -1.6 <= SawShape(m, x) <= 1.6
    ensures m.sin(0.0) == 0.0 && m.cos(0.0) == 1.0 ==> SawShape(m, 0.0) == 0.8
  {
    if m.sin(0.0) == 0.0 && m.cos(0.0) == 1.0 {
      assert 4.0 * Pi * 0.0 == 0.0 && 6.0 * Pi * 0.0 == 0.0;
      assert m.sin(4.0 * Pi * 0.0) + m.cos(6.0 * Pi * 0.0) == 1.0;
    }
  }

  /**
   * The waveshaper blend `a == 0 ? raw : (1 - a) * raw + a * 0.5 * shape`: an
   * amount of exactly zero takes the bypass branch and returns the raw value.
   */
  function Blend(raw: real, amount: real, shape: real): (r: real)
    ensures amount == 0.0 ==> r == raw
  {
    if amount == 0.0 then raw else (1.0 - amount) * raw + amount * 0.5 * shape
  }

  /**
   * Any amount moves the raw value towards half the shape by the fraction `a`:
   * it reaches it at `a == 1`, overshoots beyond, and leaves a raw value that
   * already equals half the shape where it is.
   */
  lemma BlendMovesTowardsShape(raw: real, amount: real, shape: real)
    ensures Blend(raw, amount, shape) == raw + amount * (0.5 * shape - raw)
    ensures amount == 1.0 ==> Blend(raw, amount, shape) == 0.5 * shape
    ensures raw == 0.5 * shape ==> Blend(raw, amount, shape) == raw
  {
    if amount != 0.0 {
      assert (1.0 - amount) * raw + amount * 0.5 * shape == raw + amount * (0.5 * shape - raw);
    }
  }

  /** Sine blend amount: `sineParam + psyAllIn * sineParam * psyKnob`. */
  function SineAmount(sineParam: real, psyKnob: real, psyAllIn: real): real
  {
    var sineCV := psyAllIn * sineParam * psyKnob;
    sineParam + sineCV
  }

  /**
   * The sine has no CV jack of its own: the all-oscillator CV, scaled by the
   * psychedelic knob, scales the sine knob's amount, so with the sine knob at
   * zero the CV has no effect at all.
   */
  lemma SineAmountScalesKnob(sineParam: real, psyKnob: real, psyAllIn: real)
    ensures SineAmount(sineParam, psyKnob, psyAllIn) == sineParam * (1.0 + psyAllIn * psyKnob)
    ensures sineParam == 0.0 ==> SineAmount(sineParam, psyKnob, psyAllIn) == 0.0
  {
    assert psyAllIn * sineParam * psyKnob == sineParam * (psyAllIn * psyKnob);
  }

  /**
   * Saw blend amount: the saw knob plus the saw CV plus the all-oscillator CV
   * scaled once by the psychedelic knob. With the knob or the all-oscillator CV
   * at zero it is the saw's own knob and CV; with a non-negative knob the
   * all-oscillator CV moves it in the CV's own direction.
   */
  function SawAmount(sawParam: real, sawIn: real, psyKnob: real, psyAllIn: real): (a: real)
    ensures a - sawParam - sawIn == psyAllIn * psyKnob
    ensures psyKnob == 0.0 || psyAllIn == 0.0 ==> a == sawParam + sawIn
    ensures psyKnob >= 0.0 && psyAllIn >= 0.0 ==> a >= sawParam + sawIn
    ensures psyKnob >= 0.0 && psyAllIn <= 0.0 ==> a <= sawParam + sawIn
  {
    var sawCV := sawIn + psyAllIn * psyKnob;
    sawParam + sawCV
  }

  /** A named output's voltage: `5 * volume * value`. */
  function Voltage(volume: real, value: real): real
  {
    5.0 * volume * value
  }

  /**
   * A named output is silent exactly when its volume or its value is zero, and
   * a volume in [0, 1] keeps a value in [-1, 1] within the nominal 5 V.
   */
  lemma VoltageScales(volume: real, value: real)
    ensures Voltage(volume, value) == 0.0 <==> volume == 0.0 || value == 0.0
    ensures 0.0 <= volume <= 1.0 && -1.0 <= value <= 1.0 ==> -5.0 <= Voltage(volume, value) <= 5.0
  {
    MulZero(volume, value);
    assert 5.0 * volume * value == 5.0 * (volume * value);
    if 0.0 <= volume <= 1.0 && -1.0 <= value <= 1.0 {
      MulNonNegative(volume, 1.0 - value);
      MulNonNegative(volume, 1.0 + value);
      assert volume * (1.0 - value) == volume - volume * value;
      assert volume * (1.0 + value) == volume + volume * value;
      assert volume * value <= volume;
      assert -volume <= volume * value;
    }
  }

  /** Triangle value after the waveshaper blend with amount a. */
  function ShapedTriangle(m: Maths, a: real, phase: real): real
  {
    var raw := TriangleWave(phase);
    Blend(raw, a, PsychedelicShape(m, raw))
  }

  /** Sine value after the waveshaper blend with amount a. */
  function ShapedSine(m: Maths, a: real, phase: real): real
  {
    var raw := SineWave(m, phase);
    Blend(raw, a, PsychedelicShape(m, raw))
  }

  /** Saw value after the saw waveshaper blend with amount a. */
  function ShapedSaw(m: Maths, a: real, phase: real): real
  {
    var raw := SawWave(phase);
    Blend(raw, a, SawShape(m, raw))
  }

  /**
   * The exact-zero bypass on the three shaped waves: amount 0 hands the raw
   * wave through, for any phase and whatever the transcendental functions are.
   */
  lemma ZeroAmountBypassesShapers(m: Maths, phase: real)
    ensures ShapedTriangle(m, 0.0, phase) == TriangleWave(phase)
    ensures ShapedSine(m, 0.0, phase) == m.sin(2.0 * Pi * phase)
    ensures ShapedSaw(m, 0.0, phase) == SawWave(phase)
  {
  }

  /** With the amount at zero and a phase inside the cycle, the shaped triangle and saw stay in their raw ranges. */
  lemma BypassedShapesStayInRange(m: Maths, phase: real)
    requires InCycle(phase)
    ensures -1.0 <= ShapedTriangle(m, 0.0, phase) <= 1.0
    ensures 0.0 <= ShapedSaw(m, 0.0, phase) < 2.0
  {
  }
}
