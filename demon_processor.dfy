/**
 * DEMON analysis of the envelope signal: a circular sample buffer, peak
 * picking against half the buffer maximum, a blade-rate estimate from the
 * mean peak spacing, and a confidence value from the waveform's spread.
 * The analyser's waveform and the audio context's sample rate are inputs.
 */
module Demon {
  import opened SonarTypes

  /** Buffer length used when the constructor is given none. */
  const DefaultBufferSize: nat := 4096

  // ---------------------------------------------------------------------
  // Specification of the circular buffer
  // ---------------------------------------------------------------------

  /** Where the k-th sample of a write starting at `idx` lands. */
  function Slot(idx: nat, k: nat, size: nat): nat
    requires size > 0
  {
    (idx + k) % size
  }

  /**
   * The buffer after writing `w` sample by sample starting at index `idx`,
   * wrapping to 0 at the end. A zero-length buffer takes no writes.
   */
  function RingWrite(buf: seq<real>, idx: nat, w: seq<real>): (r: seq<real>)
    requires |buf| == 0 || idx < |buf|
    ensures |r| == |buf|
  {
    if |buf| == 0 || w == [] then buf
    else RingWrite(buf, idx, w[..|w| - 1])[Slot(idx, |w| - 1, |buf|) := w[|w| - 1]]
  }

  // ---------------------------------------------------------------------
  // Specification of peak picking
  // ---------------------------------------------------------------------

  /** `Math.max(...data)` for a non-empty array. */
  function SeqMax(data: seq<real>): (r: real)
    requires |data| > 0
    ensures forall i :: 0 <= i < |data| ==> data[i] <= r
    ensures exists i :: 0 <= i < |data| && data[i] == r
  {
    if |data| == 1 then data[0]
    else
      var m := SeqMax(data[..|data| - 1]);
      assert forall i :: 0 <= i < |data| - 1 ==> data[..|data| - 1][i] == data[i];
      Max(m, data[|data| - 1])
  }

  /** Index `i` is a strict local maximum above half the overall maximum. */
  predicate IsPeak(data: seq<real>, i: int)
  {
    && 1 <= i < |data| - 1
    && data[i] > data[i - 1]
    && data[i] > data[i + 1]
    && data[i] > SeqMax(data) * 0.5
  }

  /** The peaks among indices 1 .. n-1, in increasing order. */
  function PeaksBelow(data: seq<real>, n: nat): (r: seq<nat>)
    ensures forall a :: 0 <= a < |r| ==> r[a] < n && IsPeak(data, r[a])
  {
    if n <= 1 then []
    else PeaksBelow(data, n - 1) + (if IsPeak(data, n - 1) then [n - 1] else [])
  }

  /** Every interior peak of `data`, in increasing order. */
  function Peaks(data: seq<real>): (r: seq<nat>)
    ensures forall a :: 0 <= a < |r| ==> IsPeak(data, r[a])
  {
    if |data| < 3 then [] else PeaksBelow(data, |data| - 1)
  }

  // ---------------------------------------------------------------------
  // Specification of the frequency estimate
  // ---------------------------------------------------------------------

  /**
   * Blade rate from peak indices in closed form: the mean spacing
   * telescopes to (last - first) / (n - 1), so the rate is
   * sampleRate · (n - 1) / (last - first); no spacing gives 0.
   */
  function PeakRate(peaks: seq<int>, sampleRate: real): (r: real)
    ensures sampleRate > 0.0 ==> r >= 0.0
  {
    if |peaks| >= 2 && peaks[|peaks| - 1] > peaks[0] then
      sampleRate * (|peaks| - 1) as real / (peaks[|peaks| - 1] - peaks[0]) as real
    else 0.0
  }

  // ---------------------------------------------------------------------
  // Confidence
  // ---------------------------------------------------------------------

  /** `waveform.reduce((a, b) => a + b, 0)`. */
  function Sum(w: seq<real>): real
  {
    if w == [] then 0.0 else Sum(w[..|w| - 1]) + w[|w| - 1]
  }

  /** `waveform.reduce((a, b) => a + (b - mean) ** 2, 0)`. */
  function SumSquaredDeviation(w: seq<real>, mean: real): (r: real)
    ensures 0.0 <= r
  {
    if w == [] then 0.0
    else
      var d := w[|w| - 1] - mean;
      SquareNonNegative(d);
      SumSquaredDeviation(w[..|w| - 1], mean) + d * d
  }

  /** `calculateConfidence`: min(1, 5 · standard deviation) of a non-empty waveform. */
  function Confidence(w: seq<real>, m: MathLib): (r: real)
    requires |w| > 0 && m.Valid()
    ensures 0.0 <= r <= 1.0
  {
    var mean := Sum(w) / |w| as real;
    var variance := SumSquaredDeviation(w, mean) / |w| as real;
    Min(1.0, m.sqrt(variance) * 5.0)
  }

  // ---------------------------------------------------------------------
  // The processor object
  // ---------------------------------------------------------------------

  class DemonProcessor {
    const bufferSize: nat
    const buffer: array<real>
    var bufferIndex: nat

    ghost predicate Valid()
      reads this
    {
      && buffer.Length == bufferSize
      && (if bufferSize == 0 then bufferIndex == 0 else bufferIndex < bufferSize)
    }

    /** A zeroed buffer of the given size with the write index at 0. */
    constructor (size: nat := DefaultBufferSize)
      ensures Valid() && bufferSize == size && bufferIndex == 0
      ensures fresh(buffer) && forall i :: 0 <= i < size ==> buffer[i] == 0.0
    {
      bufferSize := size;
      buffer := new real[size](_ => 0.0);
      bufferIndex := 0;
    }

    /**
     * One analysis step on the analyser's current `waveform`: the samples
     * go into the ring buffer, the peaks of the whole buffer give the blade
     * rate, and the waveform itself gives the confidence.
     */
    method Process(waveform: seq<real>, sampleRate: real, m: MathLib)
        returns (envelope: seq<real>, bladeRate: real, confidence: real)
      requires Valid() && m.Valid()
      requires |waveform| > 0 && sampleRate > 0.0
      modifies this`bufferIndex, buffer
      ensures Valid()
      ensures bufferSize > 0 ==> bufferIndex == (old(bufferIndex) + |waveform|) % bufferSize
      ensures buffer[..] == RingWrite(old(buffer[..]), old(bufferIndex), waveform)
      ensures envelope == waveform
      ensures bladeRate == PeakRate(Peaks(buffer[..]), sampleRate)
      ensures |Peaks(buffer[..])| <= 1 ==> bladeRate == 0.0
      ensures 0.0 <= bladeRate
      ensures confidence == Confidence(waveform, m)
    {
      WriteSamples(waveform);
      var peaks := FindPeaks(buffer[..]);
      if |peaks| > 1 {
        assert buffer.Length >= 3;
        bladeRate := EstimateFrequencyFromPeaks(peaks, sampleRate);
      } else {
        bladeRate := 0.0;
      }
      PeakRateNonNegative(peaks, sampleRate);
      confidence := Confidence(waveform, m);
      envelope := waveform;
    }

    /**
     * The buffer-filling loop of `process`: each sample goes to the write
     * index, which wraps to 0 at the end of the buffer. The loop's second
     * guard only stops it for a zero-length buffer.
     */
    method WriteSamples(waveform: seq<real>)
      requires Valid()
      modifies this`bufferIndex, buffer
      ensures Valid()
      ensures bufferSize > 0 ==> bufferIndex == (old(bufferIndex) + |waveform|) % bufferSize
      ensures buffer[..] == RingWrite(old(buffer[..]), old(bufferIndex), waveform)
    {
      ghost var b0, idx0 := buffer[..], bufferIndex;
      var i := 0;
      while i < |waveform| && bufferIndex < bufferSize
        invariant Valid()
        invariant 0 <= i <= |waveform|
        invariant buffer[..] == RingWrite(b0, idx0, waveform[..i])
        invariant bufferSize > 0 ==> bufferIndex == (idx0 + i) % bufferSize
        invariant bufferSize == 0 ==> i == 0
      {
        ModStep(idx0 + i, bufferSize);
        buffer[bufferIndex] := waveform[i];
        bufferIndex := bufferIndex + 1;
        if bufferIndex >= bufferSize {
          bufferIndex := 0;
        }
        assert waveform[..i + 1][..i] == waveform[..i];
        i := i + 1;
      }
      assert bufferSize > 0 ==> waveform[..i] == waveform;
    }

    /** Strict local maxima above half the maximum, collected left to right. */
    static method FindPeaks(data: seq<real>) returns (peaks: seq<nat>)
      ensures peaks == Peaks(data)
    {
      peaks := [];
      if |data| == 0 {
        return;
      }
      var threshold := SeqMax(data) * 0.5;
      var i := 1;
      while i < |data| - 1
        invariant 1 <= i && (i == 1 || i <= |data| - 1)
        invariant peaks == PeaksBelow(data, i)
      {
        if data[i] > data[i - 1] && data[i] > data[i + 1] && data[i] > threshold {
          peaks := peaks + [i];
        }
        i := i + 1;
      }
    }

    /**
     * Mean peak spacing in samples, turned into a rate. Fewer than two
     * peaks, or no positive spacing, give 0.
     */
    method EstimateFrequencyFromPeaks(peaks: seq<nat>, sampleRate: real) returns (f: real)
      requires bufferSize > 0 && sampleRate > 0.0
      ensures f == PeakRate(peaks, sampleRate)
    {
      if |peaks| < 2 {
        return 0.0;
      }
      var totalDiff := 0.0;
      var i := 1;
      while i < |peaks|
        invariant 1 <= i <= |peaks|
        invariant totalDiff == (peaks[i - 1] as int - peaks[0] as int) as real
      {
        totalDiff := totalDiff + (peaks[i] as int - peaks[i - 1] as int) as real;
        i := i + 1;
      }
      var n1 := (|peaks| - 1) as real;
      var avgSamples := totalDiff / n1;
      var bufferDuration := bufferSize as real / sampleRate;
      if avgSamples > 0.0 {
        RateAlgebra(totalDiff, n1, sampleRate, bufferSize as real);
        f := 1.0 / (avgSamples * bufferDuration / bufferSize as real);
      } else {
        NonPositiveMean(totalDiff, n1);
        f := 0.0;
      }
    }
  }

  // ---------------------------------------------------------------------
  // Properties
  // ---------------------------------------------------------------------

  /**
   * The ring keeps the most recent samples: each of the last |buf| samples
   * of `w` sits at (idx + k) mod |buf|, and a slot no sample maps to keeps
   * its old value.
   */
  lemma {:induction false} RingWriteHoldsLatest(buf: seq<real>, idx: nat, w: seq<real>, k: nat)
    requires 0 < |buf| && idx < |buf|
    requires k < |w| && |w| - |buf| <= k
    ensures RingWrite(buf, idx, w)[Slot(idx, k, |buf|)] == w[k]
  {
    var n := |w|;
    var w' := w[..n - 1];
    if k < n - 1 {
      RingWriteHoldsLatest(buf, idx, w', k);
      ModDistinct(idx + k, idx + n - 1, |buf|);
    }
  }

  lemma {:induction false} RingWriteKeepsUntouched(buf: seq<real>, idx: nat, w: seq<real>, j: nat)
    requires 0 < |buf| && idx < |buf| && j < |buf|
    requires forall k :: 0 <= k < |w| ==> Slot(idx, k, |buf|) != j
    ensures RingWrite(buf, idx, w)[j] == buf[j]
  {
    if w != [] {
      RingWriteKeepsUntouched(buf, idx, w[..|w| - 1], j);
    }
  }

  /** Two indices less than `s` apart never share a residue modulo `s`. */
  lemma ModDistinct(a: nat, b: nat, s: nat)
    requires 0 < s && a < b < a + s
    ensures a % s != b % s
  {
    var d, q, r := b - a, a / s, a % s;
    if r + d < s {
      ModUnique(b, s, q, r + d);
    } else {
      ModUnique(b, s, q + 1, r + d - s);
    }
  }

  /** Advancing an index by one and wrapping at `s` is adding one modulo `s`. */
  lemma ModStep(x: nat, s: nat)
    requires 0 < s
    ensures (x + 1) % s == if x % s + 1 == s then 0 else x % s + 1
  {
    if x % s + 1 == s {
      ModUnique(x + 1, s, x / s + 1, 0);
    } else {
      ModUnique(x + 1, s, x / s, x % s + 1);
    }
  }

  predicate Increasing(p: seq<int>)
  {
    forall a, b :: 0 <= a < b < |p| ==> p[a] < p[b]
  }

  /**
   * `findPeaks` is sound and complete: its result is strictly increasing,
   * every index lies in [1, len - 2], and an index is listed exactly when
   * it is a strict local maximum above half the maximum.
   */
  lemma PeaksShape(data: seq<real>)
    ensures Increasing(Peaks(data))
    ensures forall a :: 0 <= a < |Peaks(data)| ==> 1 <= Peaks(data)[a] <= |data| - 2
    ensures forall i :: 0 <= i < |data| ==> (i in Peaks(data) <==> IsPeak(data, i))
  {
    if |data| >= 3 {
      var p := Peaks(data);
      PeaksBelowShape(data, |data| - 1);
      forall i | 0 <= i < |data| && i in p
        ensures IsPeak(data, i)
      {
        var a :| 0 <= a < |p| && p[a] == i;
      }
    }
  }

  lemma {:induction false} PeaksBelowShape(data: seq<real>, n: nat)
    requires n <= |data|
    ensures Increasing(PeaksBelow(data, n))
    ensures forall a :: 0 <= a < |PeaksBelow(data, n)| ==>
              1 <= PeaksBelow(data, n)[a] < n && IsPeak(data, PeaksBelow(data, n)[a])
    ensures forall i :: 1 <= i < n && IsPeak(data, i) ==> i in PeaksBelow(data, n)
  {
    if n > 1 {
      PeaksBelowShape(data, n - 1);
      var p', p := PeaksBelow(data, n - 1), PeaksBelow(data, n);
      if IsPeak(data, n - 1) {
        assert p == p' + [n - 1];
        forall a, b | 0 <= a < b < |p|
          ensures p[a] < p[b]
        {
          assert p[a] == p'[a];
        }
      } else {
        assert p == p';
      }
    }
  }

  /** With a non-positive maximum nothing exceeds half of it, so there are no peaks. */
  lemma NoPeaksWithoutPositiveMaximum(data: seq<real>)
    requires |data| > 0 && SeqMax(data) <= 0.0
    ensures Peaks(data) == []
  {
    forall i
      ensures !IsPeak(data, i)
    {
      if 1 <= i < |data| - 1 {
        assert data[i] <= SeqMax(data);
      }
    }
    if |data| >= 3 {
      NoPeaksBelow(data, |data| - 1);
    }
  }

  lemma {:induction false} NoPeaksBelow(data: seq<real>, n: nat)
    requires forall i :: !IsPeak(data, i)
    ensures PeaksBelow(data, n) == []
  {
    if n > 1 {
      NoPeaksBelow(data, n - 1);
    }
  }

  /**
   * For at least two strictly increasing peaks the estimate is positive
   * and does not depend on the buffer size.
   */
  lemma PeakRatePositive(peaks: seq<int>, sampleRate: real)
    requires |peaks| >= 2 && sampleRate > 0.0
    requires forall a, b :: 0 <= a < b < |peaks| ==> peaks[a] < peaks[b]
    ensures PeakRate(peaks, sampleRate) > 0.0
  {
    assert peaks[0] < peaks[|peaks| - 1];
    var n1 := (|peaks| - 1) as real;
    var d := (peaks[|peaks| - 1] - peaks[0]) as real;
    MulPositive(sampleRate, n1);
    DivPositive(sampleRate * n1, d);
  }

  /** The estimate is never negative. */
  lemma PeakRateNonNegative(peaks: seq<int>, sampleRate: real)
    requires sampleRate > 0.0
    ensures PeakRate(peaks, sampleRate) >= 0.0
  {
    if |peaks| >= 2 && peaks[|peaks| - 1] > peaks[0] {
      var n1 := (|peaks| - 1) as real;
      var d := (peaks[|peaks| - 1] - peaks[0]) as real;
      MulPositive(sampleRate, n1);
      DivPositive(sampleRate * n1, d);
    }
  }

  /** A flat waveform carries no modulation: its confidence is 0. */
  lemma ConstantWaveformHasNoConfidence(w: seq<real>, c: real, m: MathLib)
    requires |w| > 0 && m.Valid()
    requires forall i :: 0 <= i < |w| ==> w[i] == c
    ensures Confidence(w, m) == 0.0
  {
    SumOfConstant(w, c);
    var n := |w| as real;
    assert Sum(w) / n == c;
    DeviationOfConstant(w, c);
    SqrtOfSquare(m, 0.0);
  }

  lemma {:induction false} SumOfConstant(w: seq<real>, c: real)
    requires forall i :: 0 <= i < |w| ==> w[i] == c
    ensures Sum(w) == |w| as real * c
  {
    if w != [] {
      SumOfConstant(w[..|w| - 1], c);
    }
  }

  lemma {:induction false} DeviationOfConstant(w: seq<real>, c: real)
    requires forall i :: 0 <= i < |w| ==> w[i] == c
    ensures SumSquaredDeviation(w, c) == 0.0
  {
    if w != [] {
      DeviationOfConstant(w[..|w| - 1], c);
    }
  }

  // ---- real arithmetic for the estimate ----

  lemma RateAlgebra(total: real, n1: real, sr: real, size: real)
    requires total > 0.0 && n1 > 0.0 && sr > 0.0 && size > 0.0
    ensures 1.0 / ((total / n1) * (size / sr) / size) == sr * n1 / total
  {
    var avg := total / n1;
    var dur := size / sr;
    var x := avg * dur / size;
    assert avg * n1 == total;
    assert dur * sr == size;
    assert x * size == avg * dur;
    assert x * sr == avg by {
      assert x * size * sr == avg * dur * sr;
      assert avg * dur * sr == avg * size;
    }
    assert x * sr * n1 == total;
    assert x * (sr * n1 / total) == 1.0;
  }

  lemma NonPositiveMean(total: real, n1: real)
    requires n1 > 0.0 && total / n1 <= 0.0
    ensures total <= 0.0
  {
    assert total == (total / n1) * n1;
    MulLe(total / n1, 0.0, n1);
  }

  lemma MulPositive(a: real, b: real)
    requires a > 0.0 && b > 0.0
    ensures a * b > 0.0
  {
    MulLt(0.0, a, b);
  }

  lemma DivPositive(a: real, b: real)
    requires a > 0.0 && b > 0.0
    ensures a / b > 0.0
  {
    DivLt(a, b, 0.0);
  }
}
