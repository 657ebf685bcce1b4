/**
 * The waterfall display's procedural LOFAR line: a noise floor with each
 * detected target's engine line and harmonics merged in by maximum, and
 * the bounded history of lines the display scrolls through. `noise[i]`
 * is the `Math.random()` value drawn for bin i.
 */
module Waterfall {
  import opened SonarTypes
  import SonarStore

  const FftSize: nat := 512
  /** Bins per line, FFT_SIZE / 2. */
  const Bins: nat := 256
  const HistorySize: nat := 200
  /** Frequency span the bins cover, in Hz. */
  const SpanHz: real := 2000.0

  /** `Math.floor(freq * FFT_SIZE / 2000)`. */
  function Bin(freq: real): int
  {
    (freq * FftSize as real / SpanHz).Floor
  }

  /** The waterfall's own SNR model: 40 dB falling 0.05 dB per metre, floored at 0. */
  function WaterfallSnr(distance: real): real
  {
    Max(0.0, 40.0 - distance * 0.05)
  }

  /** The background: bin i holds -80 + 10 · noise[i] dB. */
  function NoiseLine(noise: seq<real>): (r: seq<real>)
    ensures |r| == |noise|
  {
    seq(|noise|, i requires 0 <= i < |noise| => -80.0 + noise[i] * 10.0)
  }

  /** `data[i] = Math.max(data[i], v)`, applied only to a bin that exists. */
  function MaxInto(line: seq<real>, i: int, v: real): (r: seq<real>)
    ensures |r| == |line|
    ensures forall k :: 0 <= k < |line| ==> line[k] <= r[k]
    ensures forall k :: 0 <= k < |line| && k != i ==> r[k] == line[k]
    ensures 0 <= i < |line| ==> r[i] == Max(line[i], v)
  {
    if 0 <= i < |line| then line[i := Max(line[i], v)] else line
  }

  /** The engine line at `bin` and its two neighbours, when `bin` is below the line length. */
  function AddFundamental(line: seq<real>, bin: int, snr: real): (r: seq<real>)
    ensures |r| == |line|
  {
    if bin < |line| then
      MaxInto(MaxInto(MaxInto(line, bin, -40.0 + snr), bin - 1, -45.0 + snr * 0.8), bin + 1, -45.0 + snr * 0.8)
    else line
  }

  /** Harmonic `idx` (from 0) adds -50 + 0.7 · snr / (idx + 1) dB at its bin. */
  function HarmonicLevel(snr: real, idx: nat): real
  {
    -50.0 + snr * 0.7 / (idx + 1) as real
  }

  function AddHarmonics(line: seq<real>, harmonics: seq<real>, snr: real): (r: seq<real>)
    ensures |r| == |line|
  {
    if harmonics == [] then line
    else
      var idx := |harmonics| - 1;
      MaxInto(AddHarmonics(line, harmonics[..idx], snr), Bin(harmonics[idx]), HarmonicLevel(snr, idx))
  }

  /** One target's contribution to the line. */
  function AddTargetLine(line: seq<real>, t: Target, listener: Vec3, m: MathLib): (r: seq<real>)
    requires m.Valid()
    ensures |r| == |line|
  {
    if !t.detected then line
    else
      var snr := WaterfallSnr(m.sqrt(SonarStore.RangeSquared(listener, t.position)));
      if snr > 5.0 then
        AddHarmonics(AddFundamental(line, Bin(t.signature.engineFreq), snr), t.signature.harmonics, snr)
      else line
  }

  function FoldTargets(line: seq<real>, ts: seq<Target>, listener: Vec3, m: MathLib): (r: seq<real>)
    requires m.Valid()
    ensures |r| == |line|
  {
    if ts == [] then line
    else AddTargetLine(FoldTargets(line, ts[..|ts| - 1], listener, m), ts[|ts| - 1], listener, m)
  }

  /** The line `generateFFTData` returns. */
  function Spectrum(ts: seq<Target>, listener: Vec3, noise: seq<real>, m: MathLib): (r: seq<real>)
    requires m.Valid() && |noise| == Bins
    ensures |r| == Bins
  {
    FoldTargets(NoiseLine(noise), ts, listener, m)
  }

  // ---------------------------------------------------------------------
  // The line generator
  // ---------------------------------------------------------------------

  method MaxIntoArray(data: array<real>, i: int, v: real)
    modifies data
    ensures data[..] == MaxInto(old(data[..]), i, v)
  {
    if 0 <= i < data.Length {
      data[i] := Max(data[i], v);
    }
  }

  /** Merges one target's engine line and harmonics into `data`. */
  method AddTargetSignal(data: array<real>, t: Target, listener: Vec3, m: MathLib)
    requires m.Valid()
    modifies data
    ensures data[..] == AddTargetLine(old(data[..]), t, listener, m)
  {
    if !t.detected {
      return;
    }
    var distance := m.sqrt(SonarStore.RangeSquared(listener, t.position));
    var snr := WaterfallSnr(distance);
    if snr > 5.0 {
      AddFundamentalArray(data, Bin(t.signature.engineFreq), snr);
      AddHarmonicsArray(data, t.signature.harmonics, snr);
    }
  }

  /** The fundamental and its two neighbours, written when the bin is on the line. */
  method AddFundamentalArray(data: array<real>, fundBin: int, snr: real)
    modifies data
    ensures data[..] == AddFundamental(old(data[..]), fundBin, snr)
  {
    if fundBin < data.Length {
      MaxIntoArray(data, fundBin, -40.0 + snr);
      MaxIntoArray(data, fundBin - 1, -45.0 + snr * 0.8);
      MaxIntoArray(data, fundBin + 1, -45.0 + snr * 0.8);
    }
  }

  /** The harmonics loop: harmonic `idx` merged in at its bin. */
  method AddHarmonicsArray(data: array<real>, hs: seq<real>, snr: real)
    modifies data
    ensures data[..] == AddHarmonics(old(data[..]), hs, snr)
  {
    var idx := 0;
    while idx < |hs|
      invariant 0 <= idx <= |hs|
      invariant data[..] == AddHarmonics(old(data[..]), hs[..idx], snr)
    {
      var harmBin := Bin(hs[idx]);
      if harmBin < data.Length {
        MaxIntoArray(data, harmBin, HarmonicLevel(snr, idx));
      }
      assert hs[..idx + 1][..idx] == hs[..idx];
      idx := idx + 1;
    }
    assert hs[..|hs|] == hs;
  }

  /** `generateFFTData`: noise floor, then every target merged in order. */
  method GenerateFFTData(ts: seq<Target>, listener: Vec3, noise: seq<real>, m: MathLib)
      returns (line: seq<real>)
    requires m.Valid() && |noise| == Bins
    ensures line == Spectrum(ts, listener, noise, m)
  {
    var data := new real[Bins](_ => 0.0);
    var i := 0;
    while i < data.Length
      invariant 0 <= i <= data.Length
      invariant forall k :: 0 <= k < i ==> data[k] == -80.0 + noise[k] * 10.0
    {
      data[i] := -80.0 + noise[i] * 10.0;
      i := i + 1;
    }
    assert data[..] == NoiseLine(noise);
    var n := 0;
    while n < |ts|
      invariant 0 <= n <= |ts|
      invariant data[..] == FoldTargets(NoiseLine(noise), ts[..n], listener, m)
    {
      AddTargetSignal(data, ts[n], listener, m);
      assert ts[..n + 1][..n] == ts[..n];
      n := n + 1;
    }
    assert ts[..|ts|] == ts;
    line := data[..];
  }

  // ---------------------------------------------------------------------
  // The scrolling history
  // ---------------------------------------------------------------------

  class WaterfallHistory {
    var history: seq<seq<real>>

    ghost predicate Valid()
      reads this
    {
      |history| <= HistorySize
    }

    constructor ()
      ensures Valid() && history == []
    {
      history := [];
    }

    /** One frame of `draw`: a new line is pushed and the oldest dropped past 200. */
    method Draw(ts: seq<Target>, listener: Vec3, noise: seq<real>, m: MathLib)
      requires Valid() && m.Valid() && |noise| == Bins
      modifies this
      ensures Valid()
      ensures history == LastN(old(history) + [Spectrum(ts, listener, noise, m)], HistorySize)
    {
      var newLine := GenerateFFTData(ts, listener, noise, m);
      history := history + [newLine];
      if |history| > HistorySize {
        history := history[1..];
      }
    }
  }

  // ---------------------------------------------------------------------
  // Properties
  // ---------------------------------------------------------------------

  /** With noise draws in [0, 1), every bin starts in the noise floor [-80, -70) dB. */
  lemma NoiseFloorRange(noise: seq<real>)
    requires forall i :: 0 <= i < |noise| ==> 0.0 <= noise[i] < 1.0
    ensures forall i :: 0 <= i < |noise| ==> -80.0 <= NoiseLine(noise)[i] < -70.0
  {
  }

  /** A target's engine line is drawn only below 1000 Hz (for non-negative frequencies). */
  lemma BinInRange(freq: real)
    requires 0.0 <= freq
    ensures 0 <= Bin(freq)
    ensures Bin(freq) < Bins <==> freq < 1000.0
  {
  }

  /** The waterfall draws a detected target only when it is closer than 700 m. */
  lemma WaterfallSnrThreshold(distance: real)
    ensures WaterfallSnr(distance) > 5.0 <==> distance < 700.0
  {
  }

  /** Undetected targets and targets at 700 m or more leave the line untouched. */
  lemma QuietTargetLeavesLine(line: seq<real>, t: Target, listener: Vec3, m: MathLib)
    requires m.Valid()
    requires !t.detected || m.sqrt(SonarStore.RangeSquared(listener, t.position)) >= 700.0
    ensures AddTargetLine(line, t, listener, m) == line
  {
    WaterfallSnrThreshold(m.sqrt(SonarStore.RangeSquared(listener, t.position)));
  }

  /**
   * The engine line sets its bin to at least -40 + snr and the existing
   * neighbours to at least -45 + 0.8 · snr; all three only rise.
   */
  lemma FundamentalLevels(line: seq<real>, bin: int, snr: real)
    requires 0 <= bin < |line|
    ensures var r := AddFundamental(line, bin, snr);
            && r[bin] == Max(line[bin], -40.0 + snr)
            && (bin >= 1 ==> r[bin - 1] == Max(line[bin - 1], -45.0 + snr * 0.8))
            && (bin + 1 < |line| ==> r[bin + 1] == Max(line[bin + 1], -45.0 + snr * 0.8))
            && (forall k :: 0 <= k < |line| && (k < bin - 1 || k > bin + 1) ==> r[k] == line[k])
  {
  }

  /** Merging harmonics never lowers a bin. */
  lemma {:induction false} HarmonicsNeverLower(line: seq<real>, hs: seq<real>, snr: real)
    ensures forall k :: 0 <= k < |line| ==> line[k] <= AddHarmonics(line, hs, snr)[k]
  {
    if hs != [] {
      HarmonicsNeverLower(line, hs[..|hs| - 1], snr);
    }
  }

  /**
   * Harmonic `idx` whose bin is on the line lifts that bin to at least
   * -50 + 0.7 · snr / (idx + 1) dB; later harmonics can only raise it further.
   */
  lemma {:induction false} HarmonicLevelReached(line: seq<real>, hs: seq<real>, snr: real, idx: nat)
    requires idx < |hs| && 0 <= Bin(hs[idx]) < |line|
    ensures AddHarmonics(line, hs, snr)[Bin(hs[idx])] >= HarmonicLevel(snr, idx)
  {
    var last := |hs| - 1;
    var front := hs[..last];
    if idx < last {
      assert front[idx] == hs[idx];
      HarmonicLevelReached(line, front, snr, idx);
    }
  }

  /** Folding in targets never lowers a bin: the line only rises above the noise floor. */
  lemma {:induction false} FoldNeverLowers(line: seq<real>, ts: seq<Target>, listener: Vec3, m: MathLib)
    requires m.Valid()
    ensures forall k :: 0 <= k < |line| ==> line[k] <= FoldTargets(line, ts, listener, m)[k]
  {
    if ts != [] {
      var t := ts[|ts| - 1];
      var prev := FoldTargets(line, ts[..|ts| - 1], listener, m);
      FoldNeverLowers(line, ts[..|ts| - 1], listener, m);
      if t.detected {
        var snr := WaterfallSnr(m.sqrt(SonarStore.RangeSquared(listener, t.position)));
        if snr > 5.0 {
          HarmonicsNeverLower(AddFundamental(prev, Bin(t.signature.engineFreq), snr), t.signature.harmonics, snr);
        }
      }
    }
  }

  // ---------------------------------------------------------------------
  // The fundamental spread as written
  // ---------------------------------------------------------------------

  /** A JavaScript array element: a number, or NaN from `Math.max(undefined, v)`. */
  datatype Level = Db(db: real) | NaN

  /**
   * `data[i] = Math.max(data[i], v)` on a JavaScript array: an element is
   * raised; writing at index `length` appends NaN (reading past the end is
   * undefined); a negative index sets a named property, not an element.
   */
  function MaxIntoAsWritten(line: seq<Level>, i: int, v: real): seq<Level>
  {
    if 0 <= i < |line| then
      line[i := match line[i] case Db(x) => Db(Max(x, v)) case NaN => NaN]
    else if i == |line| then line + [NaN]
    else line
  }

  /** The fundamental and its spread as the code writes them, guarded only by `fundBin < data.length`. */
  function AddFundamentalAsWritten(line: seq<Level>, bin: int, snr: real): seq<Level>
  {
    if bin < |line| then
      MaxIntoAsWritten(MaxIntoAsWritten(MaxIntoAsWritten(line, bin, -40.0 + snr), bin - 1, -45.0 + snr * 0.8),
                       bin + 1, -45.0 + snr * 0.8)
    else line
  }

  /**
   * A 997 Hz engine lands in the top bin 255, so the spread writes
   * `data[256]`: the line grows to 257 entries ending in NaN.
   */
  lemma TopBinSpreadGrowsLine()
    ensures Bin(997.0) == Bins - 1
    ensures var r := AddFundamentalAsWritten(seq(Bins, _ => Db(-80.0)), Bin(997.0), 30.0);
            |r| == Bins + 1 && r[Bins] == NaN
  {
    assert 255.0 <= 997.0 * 512.0 / 2000.0 < 256.0;
  }

  /** With every write guarded, the same engine keeps the line at 256 bins. */
  lemma TopBinSpreadKeepsLength(line: seq<real>, snr: real)
    requires |line| == Bins
    ensures |AddFundamental(line, Bin(997.0), snr)| == Bins
    ensures AddFundamental(line, Bin(997.0), snr)[Bins - 1] == Max(line[Bins - 1], -40.0 + snr)
  {
    assert 255.0 <= 997.0 * 512.0 / 2000.0 < 256.0;
    FundamentalLevels(line, Bins - 1, snr);
  }
}
