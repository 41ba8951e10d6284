/**
 * The resampling FmOperator: four cross-modulated oscillators whose
 * thresholded phases are also read through the windowed-sinc resampler, the
 * final output multiplying the additive mix by the resampled mix.
 */
module ResamplingOperator {
  import opened Transcendental
  import opened OscillatorCore
  import Resampler

  /** Knob positions, `params[...]`. */
  datatype Params = Params(
    pitchSine: real, pitchSaw: real, pitchTriangle: real, pitchSquare: real,
    fm: real, sineShaper: real, sawShaper: real, triangleShaper: real,
    psyKnob: real, fmAmount: real,
    volumeSine: real, volumeSaw: real, volumeTriangle: real, volumeSquare: real,
    resample: real)

  /** Jack voltages, `inputs[...]`. */
  datatype Inputs = Inputs(
    pitchSine: real, pitchSaw: real, pitchTriangle: real, pitchSquare: real,
    fm: real, fmAmount: real, sawShaper: real, psyAll: real, triangleShaper: real,
    resample: real, pitchAll: real)

  /** FM depth of this variant: FM knob plus the FM-amount CV scaled twice by the FM-amount knob. */
  function FmDepth(p: Params, v: Inputs): real
  {
    FmAmount(p.fm, p.fmAmount, v.fmAmount)
  }

  /** Exponent of one oscillator's frequency: its pitch knob, its pitch CV and the pitch-for-all CV, plus FM depth times the FM input. */
  function OscExponent(p: Params, v: Inputs, pitchParam: real, pitchIn: real): real
  {
    var pitch := pitchParam + pitchIn + v.pitchAll;
    Exponent(pitch, FmDepth(p, v), v.fm)
  }

  /**
   * Every oscillator of this variant hears the pitch-for-all CV and the same
   * FM term, whose FM-amount CV is weighted by the FM-amount knob squared.
   */
  lemma OscExponentClosedForm(p: Params, v: Inputs, pitchParam: real, pitchIn: real)
    ensures OscExponent(p, v, pitchParam, pitchIn)
            == pitchParam + pitchIn + v.pitchAll + (p.fm + p.fmAmount * p.fmAmount * v.fmAmount) * v.fm
    ensures v.fm == 0.0 ==> OscExponent(p, v, pitchParam, pitchIn) == pitchParam + pitchIn + v.pitchAll
  {
    FmAmountCompounds(p.fm, p.fmAmount, v.fmAmount);
  }

  /** Triangle blend amount of this variant: the all-oscillator CV times the psychedelic knob, negated, times the knob again. */
  function TriangleAmount(p: Params, v: Inputs): real
  {
    var psychedelicCVAll := v.psyAll * p.psyKnob;
    var inverted := -psychedelicCVAll;
    var psychedelicCVTriangle := v.triangleShaper + inverted * p.psyKnob;
    p.triangleShaper + psychedelicCVTriangle
  }

  /**
   * The inverted all-oscillator CV enters the triangle amount weighted by the
   * knob squared, so a positive CV always pulls the amount down and a negative
   * one pushes it up, whatever the knob's sign.
   */
  lemma TriangleAmountInverted(p: Params, v: Inputs)
    ensures TriangleAmount(p, v) == p.triangleShaper + v.triangleShaper - v.psyAll * p.psyKnob * p.psyKnob
    ensures v.psyAll >= 0.0 ==> TriangleAmount(p, v) <= p.triangleShaper + v.triangleShaper
    ensures v.psyAll <= 0.0 ==> TriangleAmount(p, v) >= p.triangleShaper + v.triangleShaper
  {
    var k2 := p.psyKnob * p.psyKnob;
    assert -(v.psyAll * p.psyKnob) * p.psyKnob == -(v.psyAll * k2);
    SquareNonNegative(p.psyKnob);
    if v.psyAll >= 0.0 {
      MulNonNegative(v.psyAll, k2);
    } else {
      MulNonNegative(-v.psyAll, k2);
    }
  }

  /**
   * Against the saw, which hears the all-oscillator CV as `+allCV·knob`, the
   * triangle hears the same term negated and scaled by the knob once more.
   */
  lemma TriangleAmountAgainstSaw(p: Params, v: Inputs)
    ensures TriangleAmount(p, v) - p.triangleShaper - v.triangleShaper
            == -p.psyKnob * (SawAmount(p.sawShaper, v.sawShaper, p.psyKnob, v.psyAll) - p.sawShaper - v.sawShaper)
  {
    TriangleAmountInverted(p, v);
  }

  /** `resamplingFactor`: resample CV times the resample knob; it is also the CV handed to every `resampled` call. */
  function ResampleFactor(p: Params, v: Inputs): real
  {
    v.resample * p.resample
  }

  /**
   * Volume-weighted sum of the four resampled squares. Each oscillator's
   * square is read from its phase after this sample's update.
   */
  function ResampledMix(m: Maths, p: Params, factor: real,
                        phaseTriangle: real, phaseSine: real, phaseSaw: real, phaseSquare: real): real
  {
    Scaled(Resampler.ResampledValue(m, SquareLevel(phaseTriangle), factor), p.volumeTriangle)
    + Scaled(Resampler.ResampledValue(m, SquareLevel(phaseSine), factor), p.volumeSine)
    + Scaled(Resampler.ResampledValue(m, SquareLevel(phaseSaw), factor), p.volumeSaw)
    + Scaled(Resampler.ResampledValue(m, SquareLevel(phaseSquare), factor), p.volumeSquare)
  }

  /** A resampled value scaled by its own oscillator's volume. */
  function Scaled(value: real, volume: real): real
  {
    value * volume
  }

  /** Final output: five times the sum of the four named outputs times the resampled mix times the resample factor, unclamped. */
  function FinalMix(additive: real, resampledMix: real, factor: real): real
  {
    5.0 * additive * resampledMix * factor
  }

  /**
   * The final output is a product: it is silent exactly when the additive mix,
   * the resampled mix or the resample factor is zero.
   */
  lemma FinalMixSilence(additive: real, resampledMix: real, factor: real)
    ensures FinalMix(additive, resampledMix, factor) == 0.0 <==> additive == 0.0 || resampledMix == 0.0 || factor == 0.0
  {
    MulZero(additive, resampledMix);
    MulZero(additive * resampledMix, factor);
    assert 5.0 * additive * resampledMix * factor == 5.0 * ((additive * resampledMix) * factor);
  }

  /**
   * The four `resampled` calls of one sample, each on the square its
   * oscillator's updated phase selects, scaled by that oscillator's volume and
   * summed. The calls read no state, so they are gathered here in the order
   * the oscillators run.
   */
  method ResampleSquares(m: Maths, p: Params, factor: real,
                         phaseTriangle: real, phaseSine: real, phaseSaw: real, phaseSquare: real)
    returns (summedValues: real)
    ensures summedValues == ResampledMix(m, p, factor, phaseTriangle, phaseSine, phaseSaw, phaseSquare)
  {
    var resampledTriangleValue := Resampler.Resampled(m, SquareLevel(phaseTriangle), factor);
    var resampledSineValue := Resampler.Resampled(m, SquareLevel(phaseSine), factor);
    var resampledSawValue := Resampler.Resampled(m, SquareLevel(phaseSaw), factor);
    var resampledSquareValue := Resampler.Resampled(m, SquareLevel(phaseSquare), factor);
    resampledSawValue := Scaled(resampledSawValue, p.volumeSaw);
    resampledSineValue := Scaled(resampledSineValue, p.volumeSine);
    resampledSquareValue := Scaled(resampledSquareValue, p.volumeSquare);
    resampledTriangleValue := Scaled(resampledTriangleValue, p.volumeTriangle);
    summedValues := resampledTriangleValue + resampledSineValue + resampledSawValue + resampledSquareValue;
  }

  /** The per-instance state: four phases, the latched psychedelic knob, and the five output voltages last written. */
  class FmOperator {
    var phaseSine: real
    var phaseSaw: real
    var phaseTriangle: real
    var phaseSquare: real
    var psychedelicKnobValue: real

    var sineOut: real
    var sawOut: real
    var triangleOut: real
    var squareOut: real
    var finalOut: real

    /** Every phase lies inside one cycle. */
    ghost predicate Valid()
      reads this
    {
      InCycle(phaseSine) && InCycle(phaseSaw) && InCycle(phaseTriangle) && InCycle(phaseSquare)
    }

    constructor ()
      ensures Valid()
      ensures phaseSine == 0.0 && phaseSaw == 0.0 && phaseTriangle == 0.0 && phaseSquare == 0.0
      ensures psychedelicKnobValue == 0.0
      ensures sineOut == 0.0 && sawOut == 0.0 && triangleOut == 0.0 && squareOut == 0.0 && finalOut == 0.0
    {
      phaseSine, phaseSaw, phaseTriangle, phaseSquare := 0.0, 0.0, 0.0, 0.0;
      psychedelicKnobValue := 0.0;
      sineOut, sawOut, triangleOut, squareOut, finalOut := 0.0, 0.0, 0.0, 0.0, 0.0;
    }

    /**
     * `process`: one sample. Each phase advances once with a single-subtraction
     * wrap; each named output is five times its volume times its shaped wave;
     * the square output takes its sign from the phase before the update while
     * the resampled square reads the updated one.
     */
    method Process(m: Maths, p: Params, v: Inputs, sampleTime: real)
      modifies this
      ensures finalOut == FinalMix(triangleOut + sineOut + sawOut + squareOut,
                                   ResampledMix(m, p, ResampleFactor(p, v), phaseTriangle, phaseSine, phaseSaw, phaseSquare),
                                   ResampleFactor(p, v))
      ensures psychedelicKnobValue == p.psyKnob
      ensures phaseTriangle == AdvancePhase(old(phaseTriangle), Increment(m, OscExponent(p, v, p.pitchTriangle, v.pitchTriangle), sampleTime))
      ensures triangleOut == Voltage(p.volumeTriangle, ShapedTriangle(m, TriangleAmount(p, v), phaseTriangle))
      ensures phaseSine == AdvancePhase(old(phaseSine), Increment(m, OscExponent(p, v, p.pitchSine, v.pitchSine), sampleTime))
      ensures sineOut == Voltage(p.volumeSine, ShapedSine(m, SineAmount(p.sineShaper, p.psyKnob, v.psyAll), phaseSine))
      ensures phaseSaw == AdvancePhase(old(phaseSaw), Increment(m, OscExponent(p, v, p.pitchSaw, v.pitchSaw), sampleTime))
      ensures sawOut == Voltage(p.volumeSaw, ShapedSaw(m, SawAmount(p.sawShaper, v.sawShaper, p.psyKnob, v.psyAll), phaseSaw))
      ensures phaseSquare == AdvancePhase(old(phaseSquare), Increment(m, OscExponent(p, v, p.pitchSquare, v.pitchSquare), sampleTime))
      ensures squareOut == Voltage(p.volumeSquare, SquareLevel(old(phaseSquare)))
      ensures old(Valid())
              && 0.0 <= Increment(m, OscExponent(p, v, p.pitchTriangle, v.pitchTriangle), sampleTime) < 1.0
              && 0.0 <= Increment(m, OscExponent(p, v, p.pitchSine, v.pitchSine), sampleTime) < 1.0
              && 0.0 <= Increment(m, OscExponent(p, v, p.pitchSaw, v.pitchSaw), sampleTime) < 1.0
              && 0.0 <= Increment(m, OscExponent(p, v, p.pitchSquare, v.pitchSquare), sampleTime) < 1.0
              ==> Valid()
    {
      RunOscillators(m, p, v, sampleTime);
      MixDown(m, p, v);
    }

    /** The four oscillator sections of `process`, in the order they run. */
    method RunOscillators(m: Maths, p: Params, v: Inputs, sampleTime: real)
      modifies this`phaseTriangle, this`triangleOut, this`phaseSine, this`sineOut
      modifies this`phaseSaw, this`sawOut, this`phaseSquare, this`squareOut, this`psychedelicKnobValue
      ensures psychedelicKnobValue == p.psyKnob
      ensures phaseTriangle == AdvancePhase(old(phaseTriangle), Increment(m, OscExponent(p, v, p.pitchTriangle, v.pitchTriangle), sampleTime))
      ensures triangleOut == Voltage(p.volumeTriangle, ShapedTriangle(m, TriangleAmount(p, v), phaseTriangle))
      ensures phaseSine == AdvancePhase(old(phaseSine), Increment(m, OscExponent(p, v, p.pitchSine, v.pitchSine), sampleTime))
      ensures sineOut == Voltage(p.volumeSine, ShapedSine(m, SineAmount(p.sineShaper, p.psyKnob, v.psyAll), phaseSine))
      ensures phaseSaw == AdvancePhase(old(phaseSaw), Increment(m, OscExponent(p, v, p.pitchSaw, v.pitchSaw), sampleTime))
      ensures sawOut == Voltage(p.volumeSaw, ShapedSaw(m, SawAmount(p.sawShaper, v.sawShaper, p.psyKnob, v.psyAll), phaseSaw))
      ensures phaseSquare == AdvancePhase(old(phaseSquare), Increment(m, OscExponent(p, v, p.pitchSquare, v.pitchSquare), sampleTime))
      ensures squareOut == Voltage(p.volumeSquare, SquareLevel(old(phaseSquare)))
    {
      psychedelicKnobValue := p.psyKnob;
      RunTriangle(m, p, v, sampleTime);
      RunSine(m, p, v, sampleTime);
      RunSaw(m, p, v, sampleTime);
      RunSquare(m, p, v, sampleTime);
    }

    /** The triangle section of `process`: advance its phase, blend the triangle it reads, write the output. */
    method RunTriangle(m: Maths, p: Params, v: Inputs, sampleTime: real)
      modifies this`phaseTriangle, this`triangleOut
      ensures phaseTriangle == AdvancePhase(old(phaseTriangle), Increment(m, OscExponent(p, v, p.pitchTriangle, v.pitchTriangle), sampleTime))
      ensures triangleOut == Voltage(p.volumeTriangle, ShapedTriangle(m, TriangleAmount(p, v), phaseTriangle))
    {
      var incTriangle := Increment(m, OscExponent(p, v, p.pitchTriangle, v.pitchTriangle), sampleTime);
      var psychedelicParamTriangle := TriangleAmount(p, v);
      phaseTriangle := Wrap(phaseTriangle, incTriangle);
      triangleOut := Voltage(p.volumeTriangle, ShapedTriangle(m, psychedelicParamTriangle, phaseTriangle));
    }

    /** The sine section of `process`. */
    method RunSine(m: Maths, p: Params, v: Inputs, sampleTime: real)
      modifies this`phaseSine, this`sineOut
      ensures phaseSine == AdvancePhase(old(phaseSine), Increment(m, OscExponent(p, v, p.pitchSine, v.pitchSine), sampleTime))
      ensures sineOut == Voltage(p.volumeSine, ShapedSine(m, SineAmount(p.sineShaper, p.psyKnob, v.psyAll), phaseSine))
    {
      var sineWaveshaperAmount := SineAmount(p.sineShaper, p.psyKnob, v.psyAll);
      var incSine := Increment(m, OscExponent(p, v, p.pitchSine, v.pitchSine), sampleTime);
      phaseSine := Wrap(phaseSine, incSine);
      sineOut := Voltage(p.volumeSine, ShapedSine(m, sineWaveshaperAmount, phaseSine));
    }

    /** The saw section of `process`. */
    method RunSaw(m: Maths, p: Params, v: Inputs, sampleTime: real)
      modifies this`phaseSaw, this`sawOut
      ensures phaseSaw == AdvancePhase(old(phaseSaw), Increment(m, OscExponent(p, v, p.pitchSaw, v.pitchSaw), sampleTime))
      ensures sawOut == Voltage(p.volumeSaw, ShapedSaw(m, SawAmount(p.sawShaper, v.sawShaper, p.psyKnob, v.psyAll), phaseSaw))
    {
      var incSaw := Increment(m, OscExponent(p, v, p.pitchSaw, v.pitchSaw), sampleTime);
      phaseSaw := Wrap(phaseSaw, incSaw);
      var sawWaveshaperAmount := SawAmount(p.sawShaper, v.sawShaper, p.psyKnob, v.psyAll);
      sawOut := Voltage(p.volumeSaw, ShapedSaw(m, sawWaveshaperAmount, phaseSaw));
    }

    /** The square section of `process`: the output's sign is taken from the phase before it moves. */
    method RunSquare(m: Maths, p: Params, v: Inputs, sampleTime: real)
      modifies this`phaseSquare, this`squareOut
      ensures phaseSquare == AdvancePhase(old(phaseSquare), Increment(m, OscExponent(p, v, p.pitchSquare, v.pitchSquare), sampleTime))
      ensures squareOut == Voltage(p.volumeSquare, SquareLevel(old(phaseSquare)))
    {
      var incSquare := Increment(m, OscExponent(p, v, p.pitchSquare, v.pitchSquare), sampleTime);
      var isNegative := phaseSquare < 0.5;
      phaseSquare := Wrap(phaseSquare, incSquare);
      var square := if isNegative then -1.0 else 1.0;
      squareOut := Voltage(p.volumeSquare, square);
    }

    /**
     * The end of `process`: the four resampled squares, read at the updated
     * phases, and the unclamped final output.
     */
    method MixDown(m: Maths, p: Params, v: Inputs)
      modifies this`finalOut
      ensures finalOut == FinalMix(triangleOut + sineOut + sawOut + squareOut,
                                   ResampledMix(m, p, ResampleFactor(p, v), phaseTriangle, phaseSine, phaseSaw, phaseSquare),
                                   ResampleFactor(p, v))
    {
      var resamplingFactor := ResampleFactor(p, v);
      var summedValues := ResampleSquares(m, p, resamplingFactor, phaseTriangle, phaseSine, phaseSaw, phaseSquare);
      var finalOutput := triangleOut + sineOut + sawOut + squareOut;
      finalOut := FinalMix(finalOutput, summedValues, resamplingFactor);
    }
  }

  /**
   * The final output is not clamped: with every volume up, every phase in the
   * upper half cycle, all four outputs at +5 V and the resample CV at 10 V
   * against a knob at 0.8, the read position runs past the table, each
   * resampled square is the bare 0.4 bias, and the final output is 1280 V.
   */
  lemma FinalOutputIsUnclamped(m: Maths, p: Params, v: Inputs)
    requires p.volumeTriangle == 1.0 && p.volumeSine == 1.0 && p.volumeSaw == 1.0 && p.volumeSquare == 1.0
    requires p.resample == 0.8 && v.resample == 10.0
    ensures FinalMix(20.0, ResampledMix(m, p, ResampleFactor(p, v), 0.75, 0.75, 0.75, 0.75), ResampleFactor(p, v)) == 1280.0
  {
    assert ResampleFactor(p, v) == 8.0;
    assert Resampler.ReadIndex(1.0, 8.0) == 59.5;
    assert (59.5).Floor == 59;
    Resampler.NoTapInReach(m, 1.0, 8.0);
  }
}
