/**
 * The wavefolding FmOperator: the same four cross-modulated oscillators as
 * the resampling variant, without the pitch-for-all input and the resampler;
 * its square is folded at a knob-and-CV threshold, and the final output is
 * the plain sum of the four named outputs.
 */
module WavefoldingOperator {
  import opened Transcendental
  import opened OscillatorCore

  /** Knob positions, `params[...]`. */
  datatype Params = Params(
    pitchSine: real, pitchSaw: real, pitchTriangle: real, pitchSquare: real,
    fm: real, sineShaper: real, sawShaper: real, triangleShaper: real,
    psyKnob: real, fmAmount: real,
    volumeSine: real, volumeSaw: real, volumeTriangle: real, volumeSquare: real,
    wavefold: real)

  /** Jack voltages, `inputs[...]`. */
  datatype Inputs = Inputs(
    pitchSine: real, pitchSaw: real, pitchTriangle: real, pitchSquare: real,
    fm: real, fmAmount: real, sawShaper: real, psyAll: real, triangleShaper: real,
    wavefold: real)

  /** Exponent of one oscillator's frequency: its pitch knob and pitch CV, plus FM depth times the FM input. */
  function OscExponent(p: Params, v: Inputs, pitchParam: real, pitchIn: real): real
  {
    Exponent(pitchParam + pitchIn, FmAmount(p.fm, p.fmAmount, v.fmAmount), v.fm)
  }

  /**
   * This variant has no pitch-for-all input: an oscillator's exponent is its
   * own pitch plus the shared FM term, and with the FM input at zero it is the
   * pitch alone.
   */
  lemma OscExponentClosedForm(p: Params, v: Inputs, pitchParam: real, pitchIn: real)
    ensures OscExponent(p, v, pitchParam, pitchIn)
            == pitchParam + pitchIn + (p.fm + p.fmAmount * p.fmAmount * v.fmAmount) * v.fm
    ensures v.fm == 0.0 ==> OscExponent(p, v, pitchParam, pitchIn) == pitchParam + pitchIn
  {
    FmAmountCompounds(p.fm, p.fmAmount, v.fmAmount);
  }

  /**
   * Triangle blend amount of this variant: the triangle knob, the triangle CV
   * and the all-oscillator CV scaled once by the psychedelic knob, not
   * inverted, the same CV term the saw receives.
   */
  function TriangleAmount(p: Params, v: Inputs): (a: real)
    ensures a - p.triangleShaper - v.triangleShaper
            == SawAmount(p.sawShaper, v.sawShaper, p.psyKnob, v.psyAll) - p.sawShaper - v.sawShaper
  {
    var psychedelicCVTriangle := v.triangleShaper + v.psyAll * p.psyKnob;
    p.triangleShaper + psychedelicCVTriangle
  }

  /**
   * The fold threshold handed to `wavefolding`: the wavefold knob plus
   * `squareWavefoldCV`, which itself already holds the knob plus the CV scaled
   * by the knob.
   */
  function WavefoldThreshold(p: Params, v: Inputs): real
  {
    var squareWavefoldCVInput := v.wavefold * p.wavefold;
    var squareWavefoldCV := p.wavefold + squareWavefoldCVInput;
    p.wavefold + squareWavefoldCV
  }

  /**
   * The knob enters the threshold twice: the threshold is the knob times
   * `2 + cv`, twice the knob with the CV unplugged, so the default knob
   * position 0.5 gives a threshold of 1; a knob in [0, 1] and a CV of at least
   * -2 keep it non-negative.
   */
  lemma WavefoldThresholdCountsKnobTwice(p: Params, v: Inputs)
    ensures WavefoldThreshold(p, v) == p.wavefold * (2.0 + v.wavefold)
    ensures v.wavefold == 0.0 ==> WavefoldThreshold(p, v) == 2.0 * p.wavefold
    ensures 0.0 <= p.wavefold <= 1.0 && v.wavefold >= -2.0 ==> WavefoldThreshold(p, v) >= 0.0
  {
    if 0.0 <= p.wavefold <= 1.0 && v.wavefold >= -2.0 {
      MulNonNegative(p.wavefold, 2.0 + v.wavefold);
    }
  }

  /** The clip of `wavefolding`: reflect once about the threshold t, or about -t. */
  function Fold(folded: real, t: real): real
  {
    if folded > t then t - (folded - t)
    else if folded < -t then -t - (folded + t)
    else folded
  }

  /**
   * `wavefolding(x, amount, modulation)`: bend x by `modulation * sin(2 pi x)`,
   * then fold at `amount`. Without modulation it is the fold of x itself, so a
   * value within the threshold comes back unchanged; a bent value not below
   * -amount never ends above the threshold, whatever its sign.
   */
  function Wavefolding(m: Maths, x: real, amount: real, modulation: real): (r: real)
    ensures modulation == 0.0 ==> r == Fold(x, amount)
    ensures modulation == 0.0 && -amount <= x <= amount ==> r == x
    ensures x + modulation * m.sin(2.0 * Pi * x) >= -amount ==> r <= amount
  {
    Fold(x + modulation * m.sin(2.0 * Pi * x), amount)
  }

  /** A value already within the threshold passes through unchanged. */
  lemma FoldKeepsInside(f: real, t: real)
    requires -t <= f <= t
    ensures Fold(f, t) == f
  {
  }

  /**
   * A reflected value keeps its distance to the threshold it crossed: above t
   * it lands as far below t; for t >= 0, below -t it lands as far above -t.
   * For a negative threshold the test against t comes first, so a value
   * between t and -t is reflected about t, e.g. 0 folded at -1 gives -2.
   */
  lemma FoldReflects(f: real, t: real)
    ensures f > t ==> Fold(f, t) < t && t - Fold(f, t) == f - t
    ensures f < -t && -t <= t ==> Fold(f, t) > -t && Fold(f, t) + t == -t - f
    ensures t < 0.0 && t < f ==> Fold(f, t) == 2.0 * t - f
    ensures Fold(0.0, -1.0) == -2.0
  {
  }

  /**
   * Each side of the fold is one-sided: anything not below -t ends at most t,
   * anything not above t ends at least -t, whatever the sign of t; so for
   * t >= 0 a value within three thresholds of zero ends within [-t, t].
   */
  lemma FoldBounded(f: real, t: real)
    ensures f >= -t ==> Fold(f, t) <= t
    ensures f <= t ==> Fold(f, t) >= -t
    ensures t >= 0.0 && -3.0 * t <= f <= 3.0 * t ==> -t <= Fold(f, t) <= t
  {
  }

  /** For a non-negative threshold the fold is odd: folding -f gives minus the fold of f. */
  lemma FoldIsOdd(f: real, t: real)
    requires t >= 0.0
    ensures Fold(-f, t) == -Fold(f, t)
  {
  }

  /**
   * The fold reflects only once: a value more than three thresholds away is
   * thrown past the other threshold, e.g. 1 folded at 0.1 gives -0.8.
   */
  lemma FoldMayLeaveRange()
    ensures Fold(1.0, 0.1) == -0.8
    ensures Fold(-1.0, 0.1) == 0.8
    ensures !(-0.1 <= Fold(1.0, 0.1) <= 0.1)
  {
  }

  /**
   * Without modulation a +1 square folded at 0.5 lands on 0.5 - (1 - 0.5) = 0;
   * the knob reaches that threshold at 0.25 with the CV unplugged.
   */
  lemma UnmodulatedFoldScenario(m: Maths, p: Params, v: Inputs)
    ensures Wavefolding(m, 1.0, 0.5, 0.0) == 0.0
    ensures p.wavefold == 0.25 && v.wavefold == 0.0 ==> Wavefolding(m, 1.0, WavefoldThreshold(p, v), 0.0) == 0.0
  {
    assert 0.0 * m.sin(2.0 * Pi * 1.0) == 0.0;
  }

  /**
   * With an exact sine, `sin(2 pi x)` vanishes at x = 1 and x = -1, so the
   * modulation cannot bend the ±1 square at all: whatever its depth, the square
   * is folded as it is.
   */
  lemma ModulationInertOnSquare(m: Maths, x: real, amount: real, modulation: real)
    requires m.sin(2.0 * Pi) == 0.0 && m.sin(-2.0 * Pi) == 0.0
    requires x == 1.0 || x == -1.0
    ensures Wavefolding(m, x, amount, modulation) == Fold(x, amount)
  {
    if x == 1.0 {
      assert 2.0 * Pi * x == 2.0 * Pi;
    } else {
      assert 2.0 * Pi * x == -2.0 * Pi;
    }
  }

  /** The folded square of this variant, read from the updated square phase. */
  function SquareFolded(m: Maths, threshold: real, phase: real): real
  {
    var modulation := m.sin(2.0 * Pi * phase);
    Wavefolding(m, SquareLevel(phase), threshold, modulation)
  }

  /**
   * What the fold does to the square with an exact sine: a threshold of at
   * least 1 leaves the ±1 level alone, a threshold in [0, 1) pulls it in to
   * `±(2t - 1)`, and a threshold of at least 1/3 keeps it inside [-t, t].
   */
  lemma SquareFoldLevels(m: Maths, t: real, phase: real)
    requires m.sin(2.0 * Pi) == 0.0 && m.sin(-2.0 * Pi) == 0.0
    ensures t >= 1.0 ==> SquareFolded(m, t, phase) == SquareLevel(phase)
    ensures 0.0 <= t < 1.0 ==> SquareFolded(m, t, phase) == SquareLevel(phase) * (2.0 * t - 1.0)
    ensures t >= 1.0 / 3.0 ==> -t <= SquareFolded(m, t, phase) <= t
  {
    ModulationInertOnSquare(m, SquareLevel(phase), t, m.sin(2.0 * Pi * phase));
    if phase < 0.5 {
      assert SquareFolded(m, t, phase) == Fold(-1.0, t);
    } else {
      assert SquareFolded(m, t, phase) == Fold(1.0, t);
    }
  }

  /** With the knob at its default 0.5 and the CV unplugged the threshold is 1, which leaves the square untouched. */
  lemma DefaultKnobLeavesSquare(m: Maths, p: Params, v: Inputs, phase: real)
    requires m.sin(2.0 * Pi) == 0.0 && m.sin(-2.0 * Pi) == 0.0
    requires p.wavefold == 0.5 && v.wavefold == 0.0
    ensures SquareFolded(m, WavefoldThreshold(p, v), phase) == SquareLevel(phase)
  {
    SquareFoldLevels(m, WavefoldThreshold(p, v), phase);
  }

  /** The per-instance state: four phases, the latched psychedelic knob, and the five output voltages last written. */
  class FmOperator {
    var phaseSine: real
    var phaseSaw: real
    var phaseTriangle: real
    var phaseSquare: real
    var psychedelicKnobValue: real

    var sineOut: real
    var sawOut: real
    var triangleOut: real
    var squareOut: real
    var finalOut: real

    /** Every phase lies inside one cycle. */
    ghost predicate Valid()
      reads this
    {
      InCycle(phaseSine) && InCycle(phaseSaw) && InCycle(phaseTriangle) && InCycle(phaseSquare)
    }

    constructor ()
      ensures Valid()
      ensures phaseSine == 0.0 && phaseSaw == 0.0 && phaseTriangle == 0.0 && phaseSquare == 0.0
      ensures psychedelicKnobValue == 0.0
      ensures sineOut == 0.0 && sawOut == 0.0 && triangleOut == 0.0 && squareOut == 0.0 && finalOut == 0.0
    {
      phaseSine, phaseSaw, phaseTriangle, phaseSquare := 0.0, 0.0, 0.0, 0.0;
      psychedelicKnobValue := 0.0;
      sineOut, sawOut, triangleOut, squareOut, finalOut := 0.0, 0.0, 0.0, 0.0, 0.0;
    }

    /**
     * `process`: one sample. Each phase advances once with a single-subtraction
     * wrap; each named output is five times its volume times its shaped wave,
     * all read from the updated phases, the square folded; the final output is
     * the sum of the four.
     */
    method Process(m: Maths, p: Params, v: Inputs, sampleTime: real)
      modifies this
      ensures psychedelicKnobValue == p.psyKnob
      ensures phaseTriangle == AdvancePhase(old(phaseTriangle), Increment(m, OscExponent(p, v, p.pitchTriangle, v.pitchTriangle), sampleTime))
      ensures phaseSine == AdvancePhase(old(phaseSine), Increment(m, OscExponent(p, v, p.pitchSine, v.pitchSine), sampleTime))
      ensures phaseSaw == AdvancePhase(old(phaseSaw), Increment(m, OscExponent(p, v, p.pitchSaw, v.pitchSaw), sampleTime))
      ensures phaseSquare == AdvancePhase(old(phaseSquare), Increment(m, OscExponent(p, v, p.pitchSquare, v.pitchSquare), sampleTime))
      ensures old(Valid())
              && 0.0 <= Increment(m, OscExponent(p, v, p.pitchTriangle, v.pitchTriangle), sampleTime) < 1.0
              && 0.0 <= Increment(m, OscExponent(p, v, p.pitchSine, v.pitchSine), sampleTime) < 1.0
              && 0.0 <= Increment(m, OscExponent(p, v, p.pitchSaw, v.pitchSaw), sampleTime) < 1.0
              && 0.0 <= Increment(m, OscExponent(p, v, p.pitchSquare, v.pitchSquare), sampleTime) < 1.0
              ==> Valid()
      ensures triangleOut == Voltage(p.volumeTriangle, ShapedTriangle(m, TriangleAmount(p, v), phaseTriangle))
      ensures sineOut == Voltage(p.volumeSine, ShapedSine(m, SineAmount(p.sineShaper, p.psyKnob, v.psyAll), phaseSine))
      ensures sawOut == Voltage(p.volumeSaw, ShapedSaw(m, SawAmount(p.sawShaper, v.sawShaper, p.psyKnob, v.psyAll), phaseSaw))
      ensures squareOut == Voltage(p.volumeSquare, SquareFolded(m, WavefoldThreshold(p, v), phaseSquare))
      ensures finalOut == triangleOut + sineOut + sawOut + squareOut
    {
      RunOscillators(m, p, v, sampleTime);
      MixDown();
    }

    /** The four oscillator sections of `process`, in the order they run. */
    method RunOscillators(m: Maths, p: Params, v: Inputs, sampleTime: real)
      modifies this`phaseTriangle, this`triangleOut, this`phaseSine, this`sineOut
      modifies this`phaseSaw, this`sawOut, this`phaseSquare, this`squareOut, this`psychedelicKnobValue
      ensures psychedelicKnobValue == p.psyKnob
      ensures phaseTriangle == AdvancePhase(old(phaseTriangle), Increment(m, OscExponent(p, v, p.pitchTriangle, v.pitchTriangle), sampleTime))
      ensures triangleOut == Voltage(p.volumeTriangle, ShapedTriangle(m, TriangleAmount(p, v), phaseTriangle))
      ensures phaseSine == AdvancePhase(old(phaseSine), Increment(m, OscExponent(p, v, p.pitchSine, v.pitchSine), sampleTime))
      ensures sineOut == Voltage(p.volumeSine, ShapedSine(m, SineAmount(p.sineShaper, p.psyKnob, v.psyAll), phaseSine))
      ensures phaseSaw == AdvancePhase(old(phaseSaw), Increment(m, OscExponent(p, v, p.pitchSaw, v.pitchSaw), sampleTime))
      ensures sawOut == Voltage(p.volumeSaw, ShapedSaw(m, SawAmount(p.sawShaper, v.sawShaper, p.psyKnob, v.psyAll), phaseSaw))
      ensures phaseSquare == AdvancePhase(old(phaseSquare), Increment(m, OscExponent(p, v, p.pitchSquare, v.pitchSquare), sampleTime))
      ensures squareOut == Voltage(p.volumeSquare, SquareFolded(m, WavefoldThreshold(p, v), phaseSquare))
    {
      psychedelicKnobValue := p.psyKnob;
      RunTriangle(m, p, v, sampleTime);
      RunSine(m, p, v, sampleTime);
      RunSaw(m, p, v, sampleTime);
      RunSquare(m, p, v, sampleTime);
    }

    /** The triangle section of `process`: advance its phase, blend the triangle it reads, write the output. */
    method RunTriangle(m: Maths, p: Params, v: Inputs, sampleTime: real)
      modifies this`phaseTriangle, this`triangleOut
      ensures phaseTriangle == AdvancePhase(old(phaseTriangle), Increment(m, OscExponent(p, v, p.pitchTriangle, v.pitchTriangle), sampleTime))
      ensures triangleOut == Voltage(p.volumeTriangle, ShapedTriangle(m, TriangleAmount(p, v), phaseTriangle))
    {
      var incTriangle := Increment(m, OscExponent(p, v, p.pitchTriangle, v.pitchTriangle), sampleTime);
      var psychedelicParamTriangle := TriangleAmount(p, v);
      phaseTriangle := Wrap(phaseTriangle, incTriangle);
      triangleOut := Voltage(p.volumeTriangle, ShapedTriangle(m, psychedelicParamTriangle, phaseTriangle));
    }

    /** The sine section of `process`. */
    method RunSine(m: Maths, p: Params, v: Inputs, sampleTime: real)
      modifies this`phaseSine, this`sineOut
      ensures phaseSine == AdvancePhase(old(phaseSine), Increment(m, OscExponent(p, v, p.pitchSine, v.pitchSine), sampleTime))
      ensures sineOut == Voltage(p.volumeSine, ShapedSine(m, SineAmount(p.sineShaper, p.psyKnob, v.psyAll), phaseSine))
    {
      var sineWaveshaperAmount := SineAmount(p.sineShaper, p.psyKnob, v.psyAll);
      var incSine := Increment(m, OscExponent(p, v, p.pitchSine, v.pitchSine), sampleTime);
      phaseSine := Wrap(phaseSine, incSine);
      sineOut := Voltage(p.volumeSine, ShapedSine(m, sineWaveshaperAmount, phaseSine));
    }

    /** The saw section of `process`. */
    method RunSaw(m: Maths, p: Params, v: Inputs, sampleTime: real)
      modifies this`phaseSaw, this`sawOut
      ensures phaseSaw == AdvancePhase(old(phaseSaw), Increment(m, OscExponent(p, v, p.pitchSaw, v.pitchSaw), sampleTime))
      ensures sawOut == Voltage(p.volumeSaw, ShapedSaw(m, SawAmount(p.sawShaper, v.sawShaper, p.psyKnob, v.psyAll), phaseSaw))
    {
      var incSaw := Increment(m, OscExponent(p, v, p.pitchSaw, v.pitchSaw), sampleTime);
      phaseSaw := Wrap(phaseSaw, incSaw);
      var sawWaveshaperAmount := SawAmount(p.sawShaper, v.sawShaper, p.psyKnob, v.psyAll);
      sawOut := Voltage(p.volumeSaw, ShapedSaw(m, sawWaveshaperAmount, phaseSaw));
    }

    /**
     * The square section of `process`: the phase moves first, then the level
     * and the modulation are read from the updated phase and the level is
     * folded.
     */
    method RunSquare(m: Maths, p: Params, v: Inputs, sampleTime: real)
      modifies this`phaseSquare, this`squareOut
      ensures phaseSquare == AdvancePhase(old(phaseSquare), Increment(m, OscExponent(p, v, p.pitchSquare, v.pitchSquare), sampleTime))
      ensures squareOut == Voltage(p.volumeSquare, SquareFolded(m, WavefoldThreshold(p, v), phaseSquare))
    {
      var incSquare := Increment(m, OscExponent(p, v, p.pitchSquare, v.pitchSquare), sampleTime);
      phaseSquare := Wrap(phaseSquare, incSquare);
      var modulation := m.sin(2.0 * Pi * phaseSquare);
      var square := if phaseSquare < 0.5 then -1.0 else 1.0;
      square := Wavefolding(m, square, WavefoldThreshold(p, v), modulation);
      squareOut := Voltage(p.volumeSquare, square);
    }

    /** The end of `process`: the final output is the plain sum of the four named outputs. */
    method MixDown()
      modifies this`finalOut
      ensures finalOut == triangleOut + sineOut + sawOut + squareOut
    {
      finalOut := triangleOut + sineOut + sawOut + squareOut;
    }
  }
}
