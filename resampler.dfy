/**
 * The resampling stage of the resampling FmOperator: an 8-entry alternating
 * reference square read back through a 9-tap Hamming-windowed sinc kernel.
 */
module Resampler {
  import opened Transcendental

  /** Length of the reference table. */
  const TableSize: int := 8

  /** Constant the tap sum starts from. */
  const Bias: real := 0.4

  /** `sinc`: exactly 1 at zero, `sin(pi x) / (pi x)` elsewhere. */
  function Sinc(m: Maths, x: real): (r: real)
    ensures x == 0.0 ==> r == 1.0
  {
    if x == 0.0 then 1.0 else m.sin(Pi * x) / (Pi * x)
  }

  /** Hamming window of tap offset i: `0.54 - 0.46 cos(2 pi i / 8)`. */
  function Window(m: Maths, i: int): real
  {
    0.54 - 0.46 * m.cos(2.0 * Pi * i as real / 8.0)
  }

  /** Entry idx of the 8-entry reference square: +1 at the even entries, -1 at the odd ones. */
  function ReferenceSample(idx: int): (s: real)
    ensures s == 1.0 || s == -1.0
  {
    if idx == 0 || idx == 2 || idx == 4 || idx == 6 then 1.0 else -1.0
  }

  /** The table alternates as `resampled` fills it: +1 exactly at the even indices. */
  lemma ReferenceSampleAlternates(idx: int)
    requires 0 <= idx < TableSize
    ensures ReferenceSample(idx) == 1.0 <==> idx % 2 == 0
    ensures ReferenceSample(idx) == (if idx % 2 == 0 then 1.0 else -1.0)
  {
  }

  /** Resampling rate `0.5 + cv`. */
  function Rate(cv: real): real
  {
    0.5 + cv
  }

  /** Read position in the table at a given rate: `(x + 1) * 0.5 * (8 - 1) * rate`. */
  function ReadPosition(x: real, rate: real): real
  {
    (x + 1.0) * 0.5 * (TableSize - 1) as real * rate
  }

  /** Read position for input x and resample CV cv. */
  function ReadIndex(x: real, cv: real): real
  {
    ReadPosition(x, Rate(cv))
  }

  /** Kernel weight of tap offset i: `sinc(i - frac) * window(i)`. */
  function Weight(m: Maths, frac: real, i: int): real
  {
    Sinc(m, i as real - frac) * Window(m, i)
  }

  /** Weighted contribution of tap offset i around base i0 with fractional offset frac. */
  function TapTerm(m: Maths, i0: int, frac: real, i: int): real
  {
    Weight(m, frac, i) * ReferenceSample(i0 + i)
  }

  /** What tap i adds: its term when `0 <= i0 + i < 8`, nothing otherwise (no zero padding is read). */
  function Tap(m: Maths, i0: int, frac: real, i: int): real
  {
    if 0 <= i0 + i < TableSize then TapTerm(m, i0, frac, i) else 0.0
  }

  /** Sum of the taps -4 .. n - 1, added up in the order the tap loop adds them. */
  function TapPrefix(m: Maths, i0: int, frac: real, n: int): real
    requires -4 <= n <= 5
    decreases n + 4
  {
    if n == -4 then 0.0 else TapPrefix(m, i0, frac, n - 1) + Tap(m, i0, frac, n - 1)
  }

  /** The value `resampled(x, cv)` returns. */
  function ResampledValue(m: Maths, x: real, cv: real): real
  {
    var index := ReadIndex(x, cv);
    var i0 := index.Floor;
    Bias + TapPrefix(m, i0, index - i0 as real, 5)
  }

  /**
   * `resampled`: fills the reference table, locates the read position and adds
   * up the in-range windowed-sinc taps onto the bias.
   */
  method Resampled(m: Maths, x: real, cvInput: real) returns (value: real)
    ensures value == ResampledValue(m, x, cvInput)
  {
    var waveSamples := new real[TableSize];
    for i := 0 to TableSize
      invariant forall k :: 0 <= k < i ==> waveSamples[k] == ReferenceSample(k)
    {
      waveSamples[i] := if i % 2 == 0 then 1.0 else -1.0;
    }

    var resamplingRate := Rate(cvInput);
    var index := ReadPosition(x, resamplingRate);
    assert index == ReadIndex(x, cvInput);
    var i0 := index.Floor;
    var frac := index - i0 as real;

    value := Bias;
    for i := -4 to 5
      invariant forall k :: 0 <= k < TableSize ==> waveSamples[k] == ReferenceSample(k)
      invariant value == Bias + TapPrefix(m, i0, frac, i)
    {
      var idx := i0 + i;
      if 0 <= idx < TableSize {
        var weight := Weight(m, frac, i);
        assert weight * waveSamples[idx] == TapTerm(m, i0, frac, i);
        value := value + weight * waveSamples[idx];
      }
    }
  }

  // ---------------------------------------------------------------------------
  // An independent reading of the tap sum: walk the table instead of the taps.

  /** Unguarded sum of the terms of offsets lo .. hi - 1. */
  function Segment(m: Maths, i0: int, frac: real, lo: int, hi: int): real
    decreases hi - lo
  {
    if hi <= lo then 0.0 else Segment(m, i0, frac, lo, hi - 1) + TapTerm(m, i0, frac, hi - 1)
  }

  /** Sum over table entries 0 .. n - 1 of each entry's weight, for entries within four places of i0. */
  function TableSum(m: Maths, i0: int, frac: real, n: int): real
    requires 0 <= n <= TableSize
  {
    if n == 0 then 0.0
    else
      var j := n - 1;
      TableSum(m, i0, frac, n - 1) + (if -4 <= j - i0 <= 4 then TapTerm(m, i0, frac, j - i0) else 0.0)
  }

  function Max(a: int, b: int): int { if a < b then b else a }
  function Min(a: int, b: int): int { if a < b then a else b }

  /** The taps -4 .. n - 1 that fall in the table form one contiguous run of offsets. */
  lemma {:induction false} TapPrefixIsSegment(m: Maths, i0: int, frac: real, n: int)
    requires -4 <= n <= 5
    decreases n + 4
    ensures var lo := Max(-4, -i0);
            TapPrefix(m, i0, frac, n) == Segment(m, i0, frac, lo, Max(lo, Min(n, TableSize - i0)))
  {
    var lo := Max(-4, -i0);
    if n > -4 {
      TapPrefixIsSegment(m, i0, frac, n - 1);
    }
  }

  /** The table entries 0 .. n - 1 within reach of i0 form the same kind of run. */
  lemma {:induction false} TableSumIsSegment(m: Maths, i0: int, frac: real, n: int)
    requires 0 <= n <= TableSize
    ensures var lo := Max(-4, -i0);
            TableSum(m, i0, frac, n) == Segment(m, i0, frac, lo, Max(lo, Min(n - i0, 5)))
  {
    if n > 0 {
      TableSumIsSegment(m, i0, frac, n - 1);
    }
  }

  /**
   * Reading the taps around i0 and skipping those outside the table adds up
   * exactly the table entries within four places of i0, each once.
   */
  lemma TapsCoverTableNeighbourhood(m: Maths, i0: int, frac: real)
    ensures TapPrefix(m, i0, frac, 5) == TableSum(m, i0, frac, TableSize)
  {
    TapPrefixIsSegment(m, i0, frac, 5);
    TableSumIsSegment(m, i0, frac, TableSize);
  }

  /** When i0 is more than four places outside the table, no tap is read and only the bias is left. */
  lemma NoTapInReach(m: Maths, x: real, cv: real)
    requires ReadIndex(x, cv).Floor < -4 || ReadIndex(x, cv).Floor >= TableSize + 4
    ensures ResampledValue(m, x, cv) == Bias
  {
    var index := ReadIndex(x, cv);
    TapPrefixIsSegment(m, index.Floor, index - index.Floor as real, 5);
  }

  /**
   * A low input (x = -1) reads position 0: i0 = 0 and frac = 0, so only the
   * offsets 0 .. 4 fall in the table, and the centre tap weighs exactly its
   * window since sinc(0) = 1.
   */
  lemma LowInputReadsTableStart(m: Maths, cv: real)
    ensures ReadIndex(-1.0, cv) == 0.0
    ensures ResampledValue(m, -1.0, cv)
         == Bias + Window(m, 0)
          - Sinc(m, 1.0) * Window(m, 1) + Sinc(m, 2.0) * Window(m, 2)
          - Sinc(m, 3.0) * Window(m, 3) + Sinc(m, 4.0) * Window(m, 4)
  {
    assert ReadIndex(-1.0, cv) == 0.0;
    assert (0.0).Floor == 0;
    assert TapPrefix(m, 0, 0.0, 0) == 0.0 by {
      assert TapPrefix(m, 0, 0.0, -3) == 0.0;
      assert TapPrefix(m, 0, 0.0, -2) == 0.0;
      assert TapPrefix(m, 0, 0.0, -1) == 0.0;
    }
    assert TapPrefix(m, 0, 0.0, 3) == Window(m, 0) - Sinc(m, 1.0) * Window(m, 1) + Sinc(m, 2.0) * Window(m, 2) by {
      assert TapPrefix(m, 0, 0.0, 1) == Window(m, 0);
      assert TapPrefix(m, 0, 0.0, 2) == Window(m, 0) - Sinc(m, 1.0) * Window(m, 1);
    }
  }

  /**
   * A high input (x = 1) with resample CV 0.5 reads position 7, the last
   * entry: i0 = 7, frac = 0, only the offsets -4 .. 0 fall in the table, and
   * the centre tap reads the final -1 entry at its full window weight.
   */
  lemma HighInputUnitRateReadsTableEnd(m: Maths)
    ensures ReadIndex(1.0, 0.5) == 7.0
    ensures ResampledValue(m, 1.0, 0.5)
         == Bias - Sinc(m, -4.0) * Window(m, -4) + Sinc(m, -3.0) * Window(m, -3)
          - Sinc(m, -2.0) * Window(m, -2) + Sinc(m, -1.0) * Window(m, -1)
          - Window(m, 0)
  {
    assert ReadIndex(1.0, 0.5) == 7.0;
    assert (7.0).Floor == 7;
    assert TapPrefix(m, 7, 0.0, -2) == -Sinc(m, -4.0) * Window(m, -4) + Sinc(m, -3.0) * Window(m, -3);
    assert TapPrefix(m, 7, 0.0, 1)
        == -Sinc(m, -4.0) * Window(m, -4) + Sinc(m, -3.0) * Window(m, -3)
           - Sinc(m, -2.0) * Window(m, -2) + Sinc(m, -1.0) * Window(m, -1) - Window(m, 0);
  }

  /**
   * With an exact sine, `sin(pi k) = 0` at the integers k = 1 .. 4, so every
   * off-centre tap of a read at position 0 weighs nothing and the low input
   * resamples to the bias plus the centre window.
   */
  lemma LowInputWithExactSinc(m: Maths, cv: real)
    requires m.sin(Pi * 1.0) == 0.0 && m.sin(Pi * 2.0) == 0.0 && m.sin(Pi * 3.0) == 0.0 && m.sin(Pi * 4.0) == 0.0
    ensures ResampledValue(m, -1.0, cv) == Bias + Window(m, 0)
  {
    LowInputReadsTableStart(m, cv);
    assert Sinc(m, 1.0) == 0.0 && Sinc(m, 2.0) == 0.0 && Sinc(m, 3.0) == 0.0 && Sinc(m, 4.0) == 0.0;
  }

  /**
   * Likewise at position 7: with `sin(-pi k) = 0` for k = 1 .. 4 only the
   * centre tap weighs, on the final -1 entry, so the high input resamples to
   * the bias minus the centre window.
   */
  lemma HighInputWithExactSinc(m: Maths)
    requires m.sin(Pi * -1.0) == 0.0 && m.sin(Pi * -2.0) == 0.0 && m.sin(Pi * -3.0) == 0.0 && m.sin(Pi * -4.0) == 0.0
    ensures ResampledValue(m, 1.0, 0.5) == Bias - Window(m, 0)
  {
    HighInputUnitRateReadsTableEnd(m);
    assert Sinc(m, -1.0) == 0.0 && Sinc(m, -2.0) == 0.0 && Sinc(m, -3.0) == 0.0 && Sinc(m, -4.0) == 0.0;
  }
}
