/**
 * Hutara_Random_CV: an edge-triggered sample-and-hold. A `sampleNext` latch
 * arms when the ON input reaches 1 V and disarms when it falls below; each
 * arming takes one random sample, scaled bipolar or unipolar and clamped, and
 * draws a random gate with its complement. The random draws are parameters.
 */
module RandomCv {
  import opened Transcendental

  /** Gate voltage when open. */
  const GateHigh: real := 10.0

  /** The ON input level at or above which the latch arms. */
  const TriggerLevel: real := 1.0

  /**
   * `clamp(value, min, max) = min(max(value, min), max)`: within [lo, hi]
   * whenever lo <= hi, the identity on that range, the nearer bound outside
   * it; with lo > hi the upper bound wins.
   */
  function Clamp(value: real, lo: real, hi: real): (r: real)
    ensures lo <= hi ==> lo <= r <= hi
    ensures lo <= value <= hi ==> r == value
    ensures value < lo <= hi ==> r == lo
    ensures value > hi ==> r == hi
    ensures lo > hi ==> r == hi
  {
    var atLeastLo := if value < lo then lo else value;
    if hi < atLeastLo then hi else atLeastLo
  }

  /** `round`: to the nearest integer, halves away from zero. */
  function RoundHalfAway(x: real): (n: int)
    ensures x >= 0.0 ==> x - 0.5 < n as real <= x + 0.5
    ensures x < 0.0 ==> x - 0.5 <= n as real < x + 0.5
  {
    if x >= 0.0 then (x + 0.5).Floor else -((-x + 0.5).Floor)
  }

  /** Knob positions, `params[...]`. */
  datatype Params = Params(
    outputVoltage: real, bipolar: real, strength: real, gateSpeed: real,
    gateLength: real, offset: real)

  /** The `generateRandomFloat()` draws one sample may use; each is meant to lie in [-1, 1), which is not constrained here. */
  datatype Draws = Draws(value: real, gate: real, gateRedraw: real)

  /** The bipolar switch: `param > 0.5`. */
  predicate IsBipolar(param: real)
  {
    param > 0.5
  }

  /** The sampled value before the clamp: `r * strength * V` bipolar, `(r * strength + 1) * 0.5 * V` unipolar. */
  function ScaledValue(draw: real, strength: real, v: real, bipolar: bool): real
  {
    var randomValue := draw * strength;
    if bipolar then randomValue * v else (randomValue + 1.0) * 0.5 * v
  }

  /** The lower clamp bound: `-V` bipolar, `0` unipolar. */
  function LowerBound(v: real, bipolar: bool): real
  {
    if bipolar then -v else 0.0
  }

  /** The S&H output of one sample: the scaled value clamped to its range, then the offset added. */
  function SampleValue(draw: real, strength: real, v: real, bipolar: bool, offset: real): real
  {
    Clamp(ScaledValue(draw, strength, v, bipolar), LowerBound(v, bipolar), v) + offset
  }

  /**
   * With a non-negative voltage knob the S&H output lies in [offset - V,
   * offset + V] bipolar and [offset, offset + V] unipolar, whatever the draw
   * and the strength.
   */
  lemma SampleValueInRange(draw: real, strength: real, v: real, bipolar: bool, offset: real)
    requires v >= 0.0
    ensures offset + LowerBound(v, bipolar) <= SampleValue(draw, strength, v, bipolar, offset) <= offset + v
    ensures bipolar ==> offset - v <= SampleValue(draw, strength, v, bipolar, offset)
    ensures !bipolar ==> offset <= SampleValue(draw, strength, v, bipolar, offset)
  {
  }

  /**
   * The clamp only bites beyond unit scale: when the draw times the strength
   * lies in [-1, 1], the scaled value is already in range and reaches the output
   * unclamped.
   */
  lemma UnitScaleIsNotClamped(draw: real, strength: real, v: real, bipolar: bool, offset: real)
    requires v >= 0.0
    requires -1.0 <= draw * strength <= 1.0
    ensures SampleValue(draw, strength, v, bipolar, offset) == ScaledValue(draw, strength, v, bipolar) + offset
  {
    var x := draw * strength;
    MulNonNegative(v, 1.0 - x);
    MulNonNegative(v, 1.0 + x);
    if bipolar {
      assert v * (1.0 - x) == v - x * v;
      assert v * (1.0 + x) == v + x * v;
    } else {
      assert (x + 1.0) * 0.5 * v == 0.5 * (v * (1.0 + x));
      assert v * (1.0 - x) == v - (x + 1.0) * v + v;
    }
  }

  /**
   * At the default knobs (strength 5, 5 V) a draw of 0.5 scales to 12.5 V and
   * is clamped to 5 V: the strength knob drives the value into the clamp.
   */
  lemma StrengthDrivesIntoClamp()
    ensures ScaledValue(0.5, 5.0, 5.0, true) == 12.5
    ensures SampleValue(0.5, 5.0, 5.0, true, 0.0) == 5.0
    ensures SampleValue(-0.5, 5.0, 5.0, false, 0.0) == 0.0
  {
  }

  /** The gate threshold the speed switch selects: 1 → len/4, 2 → len/8, 3 → 5 len/8, otherwise len. */
  function GateThreshold(speed: int, gateLength: real): real
  {
    if speed == 1 then gateLength * 0.25
    else if speed == 2 then gateLength * 0.125
    else if speed == 3 then gateLength * 0.625
    else gateLength
  }

  /**
   * The random gate: open (10 V) exactly when the draw falls below the
   * selected threshold. Settings 1 to 3 redraw and so discard the first draw;
   * any other setting keeps it.
   */
  function RandomGate(speed: int, gateLength: real, d: Draws): (g: real)
    ensures g == 0.0 || g == GateHigh
    ensures speed in {1, 2, 3} ==> (g == GateHigh <==> d.gateRedraw < GateThreshold(speed, gateLength))
    ensures !(speed in {1, 2, 3}) ==> (g == GateHigh <==> d.gate < gateLength)
  {
    var randomGate := if d.gate < gateLength then GateHigh else 0.0;
    if speed == 1 || speed == 2 || speed == 3 then
      (if d.gateRedraw < GateThreshold(speed, gateLength) then GateHigh else 0.0)
    else randomGate
  }

  /** On settings 1 to 3 the first gate draw has no effect at all; on the others the second has none. */
  lemma FirstGateDrawDiscarded(speed: int, gateLength: real, d: Draws, e: Draws)
    ensures speed in {1, 2, 3} && d.gateRedraw == e.gateRedraw ==> RandomGate(speed, gateLength, d) == RandomGate(speed, gateLength, e)
    ensures !(speed in {1, 2, 3}) && d.gate == e.gate ==> RandomGate(speed, gateLength, d) == RandomGate(speed, gateLength, e)
  {
  }

  /**
   * For a non-negative gate length the settings order the thresholds
   * 2 (len/8) <= 1 (len/4) <= 3 (5 len/8) <= other (len): with the same redraw,
   * a gate open on a lower setting is open on every higher one.
   */
  lemma GateSettingsOrdered(gateLength: real, d: Draws)
    requires gateLength >= 0.0
    ensures GateThreshold(2, gateLength) <= GateThreshold(1, gateLength) <= GateThreshold(3, gateLength) <= GateThreshold(0, gateLength)
    ensures RandomGate(2, gateLength, d) == GateHigh ==> RandomGate(1, gateLength, d) == GateHigh
    ensures RandomGate(1, gateLength, d) == GateHigh ==> RandomGate(3, gateLength, d) == GateHigh
  {
  }

  // ---------------------------------------------------------------------------
  // The trigger latch, as a function of the input voltage stream.

  /** A sample is taken when the input is at or above 1 V and the latch is not set. */
  predicate Takes(sampleNext: bool, onVoltage: real)
  {
    onVoltage >= TriggerLevel && !sampleNext
  }

  /** The latch after one call: set by a sample, cleared by an input below 1 V, otherwise kept. */
  function NextLatch(sampleNext: bool, onVoltage: real): (r: bool)
    ensures r <==> onVoltage >= TriggerLevel
  {
    if Takes(sampleNext, onVoltage) then true
    else if onVoltage < TriggerLevel && sampleNext then false
    else sampleNext
  }

  /** Which calls of a run over the input voltages `vs` take a sample, starting from latch `sampleNext`. */
  function SampleFlags(sampleNext: bool, vs: seq<real>): (flags: seq<bool>)
    ensures |flags| == |vs|
    decreases |vs|
  {
    if |vs| == 0 then []
    else [Takes(sampleNext, vs[0])] + SampleFlags(NextLatch(sampleNext, vs[0]), vs[1..])
  }

  /**
   * A sample is taken exactly on a rising crossing of 1 V: call i samples iff
   * its input is at or above 1 V and the previous call's input was below 1 V
   * (for the first call: the latch was clear).
   */
  lemma {:induction false} SamplesAreRisingEdges(sampleNext: bool, vs: seq<real>, i: int)
    requires 0 <= i < |vs|
    ensures SampleFlags(sampleNext, vs)[i]
        <==> vs[i] >= TriggerLevel && (if i == 0 then !sampleNext else vs[i - 1] < TriggerLevel)
    decreases i
  {
    if i > 0 {
      SamplesAreRisingEdges(NextLatch(sampleNext, vs[0]), vs[1..], i - 1);
      if i == 1 {
        assert vs[1..][0] == vs[1];
      } else {
        assert vs[1..][i - 2] == vs[i - 1];
      }
      assert vs[1..][i - 1] == vs[i];
    }
  }

  /** An input held at or above 1 V over calls i .. j - 1 takes no sample after call i. */
  lemma HeldHighSamplesOnce(sampleNext: bool, vs: seq<real>, i: int, j: int)
    requires 0 <= i < j <= |vs|
    requires forall k :: i <= k < j ==> vs[k] >= TriggerLevel
    ensures forall k :: i < k < j ==> !SampleFlags(sampleNext, vs)[k]
  {
    forall k | i < k < j
      ensures !SampleFlags(sampleNext, vs)[k]
    {
      SamplesAreRisingEdges(sampleNext, vs, k);
    }
  }

  /** Between two samples the input has dropped below 1 V: the call just before the later one reads a low input. */
  lemma SamplesAreSeparatedByLowInput(sampleNext: bool, vs: seq<real>, i: int, j: int)
    requires 0 <= i < j < |vs|
    requires SampleFlags(sampleNext, vs)[i] && SampleFlags(sampleNext, vs)[j]
    ensures i < j - 1 && vs[j - 1] < TriggerLevel
  {
    SamplesAreRisingEdges(sampleNext, vs, i);
    SamplesAreRisingEdges(sampleNext, vs, j);
  }

  /** The value half of a sample: scale the draw by the strength, then bipolar or unipolar, clamp, add the offset. */
  method DrawValue(draw: real, strength: real, outputVoltage: real, bipolarOutput: bool, offset: real)
    returns (randomValue: real)
    ensures randomValue == SampleValue(draw, strength, outputVoltage, bipolarOutput, offset)
  {
    randomValue := draw * strength;
    if bipolarOutput {
      randomValue := randomValue * outputVoltage;
    } else {
      randomValue := (randomValue + 1.0) * 0.5 * outputVoltage;
    }
    randomValue := Clamp(randomValue, if bipolarOutput then -outputVoltage else 0.0, outputVoltage);
    randomValue := randomValue + offset;
  }

  /** The gate half of a sample: draw against the gate length, then redraw against the setting's threshold on settings 1 to 3. */
  method DrawGate(gateSpeedParam: int, gateLength: real, d: Draws) returns (randomGate: real)
    ensures randomGate == RandomGate(gateSpeedParam, gateLength, d)
  {
    randomGate := if d.gate < gateLength then GateHigh else 0.0;
    if gateSpeedParam == 1 {
      randomGate := if d.gateRedraw < gateLength * 0.25 then GateHigh else 0.0;
    } else if gateSpeedParam == 2 {
      randomGate := if d.gateRedraw < gateLength * 0.125 then GateHigh else 0.0;
    } else if gateSpeedParam == 3 {
      randomGate := if d.gateRedraw < gateLength * 0.625 then GateHigh else 0.0;
    }
  }

  /** The module's state: the latch, the knob values it keeps, and the three output voltages last written. */
  class RandomCv {
    var outputVoltage: real
    var bipolarOutput: bool
    var sampleNext: bool

    var sampleHoldOut: real
    var gateOut: real
    var gateInvertedOut: real

    constructor ()
      ensures outputVoltage == 0.0 && bipolarOutput && !sampleNext
      ensures sampleHoldOut == 0.0 && gateOut == 0.0 && gateInvertedOut == 0.0
    {
      outputVoltage := 0.0;
      bipolarOutput := true;
      sampleNext := false;
      sampleHoldOut, gateOut, gateInvertedOut := 0.0, 0.0, 0.0;
    }

    /**
     * `process`: one call with ON input voltage `onVoltage` and the draws `d`.
     * On a rising crossing it writes a new S&H value and a gate with its
     * complement; otherwise the three outputs keep their voltages. The latch
     * ends mirroring the input level.
     */
    method Process(p: Params, onVoltage: real, d: Draws)
      modifies this
      ensures outputVoltage == p.outputVoltage
      ensures bipolarOutput == IsBipolar(p.bipolar)
      ensures sampleNext == NextLatch(old(sampleNext), onVoltage)
      ensures Takes(old(sampleNext), onVoltage) ==>
                sampleHoldOut == SampleValue(d.value, p.strength, p.outputVoltage, IsBipolar(p.bipolar), p.offset)
                && gateOut == RandomGate(RoundHalfAway(p.gateSpeed), p.gateLength, d)
                && gateInvertedOut == GateHigh - gateOut
      ensures !Takes(old(sampleNext), onVoltage) ==>
                sampleHoldOut == old(sampleHoldOut) && gateOut == old(gateOut) && gateInvertedOut == old(gateInvertedOut)
    {
      outputVoltage := p.outputVoltage;
      bipolarOutput := p.bipolar > 0.5;
      var strength := p.strength;
      var gateLength := p.gateLength;
      var gateSpeedParam := RoundHalfAway(p.gateSpeed);
      var offset := p.offset;

      if onVoltage >= TriggerLevel && !sampleNext {
        var randomValue := DrawValue(d.value, strength, outputVoltage, bipolarOutput, offset);
        sampleNext := true;
        sampleHoldOut := randomValue;

        var randomGate := DrawGate(gateSpeedParam, gateLength, d);
        gateOut := randomGate;
        gateInvertedOut := GateHigh - randomGate;
      }

      if onVoltage < TriggerLevel && sampleNext {
        sampleNext := false;
      }
    }
  }
}
