/**
 * The LOFAR processor's read side: the analyser's spectrum (an input
 * sequence of magnitudes, one per bin) cut down to the band up to 1 kHz,
 * and the low quarter of the spectrum used as a waterfall line.
 */
module Lofar {
  import opened SonarTypes

  /** FFT size used when the constructor is given none. */
  const DefaultFftSize: nat := 2048
  /** Highest frequency kept for the sonar display, in Hz. */
  const BandLimit: real := 1000.0

  /** Centre frequency the processor assigns to bin `i` of `len` bins. */
  function BinFrequency(i: nat, sampleRate: real, len: nat): real
    requires len > 0
  {
    (i as real * sampleRate) / (2 * len) as real
  }

  /** The frequencies and magnitudes kept from the first `n` bins. */
  function BandUpTo(values: seq<real>, sampleRate: real, n: nat): (r: (seq<real>, seq<real>))
    requires n <= |values|
    ensures |r.0| == |r.1| <= n
    ensures forall j :: 0 <= j < |r.0| ==> r.0[j] <= BandLimit
  {
    if n == 0 then ([], [])
    else
      var (fs, ms) := BandUpTo(values, sampleRate, n - 1);
      var freq := BinFrequency(n - 1, sampleRate, |values|);
      if freq <= BandLimit then (fs + [freq], ms + [values[n - 1]]) else (fs, ms)
  }

  /** One more bin either extends both lists or leaves them as they were. */
  lemma BandUpToStep(values: seq<real>, sampleRate: real, i: nat)
    requires i < |values|
    ensures var (fs, ms) := BandUpTo(values, sampleRate, i);
            BandUpTo(values, sampleRate, i + 1)
              == if BinFrequency(i, sampleRate, |values|) <= BandLimit
                 then (fs + [BinFrequency(i, sampleRate, |values|)], ms + [values[i]])
                 else (fs, ms)
  {
  }

  class LofarProcessor {
    const fftSize: nat
    /** The audio context's sample rate, read once at construction. */
    const sampleRate: real

    constructor (contextSampleRate: real, size: nat := DefaultFftSize)
      ensures fftSize == size && sampleRate == contextSampleRate
    {
      fftSize := size;
      sampleRate := contextSampleRate;
    }

    /** Bins at or below 1 kHz, as parallel frequency and magnitude lists. */
    method GetFrequencyData(values: seq<real>) returns (frequencies: seq<real>, magnitudes: seq<real>)
      ensures (frequencies, magnitudes) == BandUpTo(values, sampleRate, |values|)
    {
      frequencies, magnitudes := [], [];
      var i := 0;
      while i < |values|
        invariant 0 <= i <= |values|
        invariant (frequencies, magnitudes) == BandUpTo(values, sampleRate, i)
      {
        BandUpToStep(values, sampleRate, i);
        var freq := BinFrequency(i, sampleRate, |values|);
        if freq <= BandLimit {
          frequencies := frequencies + [freq];
          magnitudes := magnitudes + [values[i]];
        }
        i := i + 1;
      }
    }
  }

  /** `values.slice(0, values.length / 4)`: the lowest quarter of the bins. */
  function WaterfallLine(values: seq<real>): (r: seq<real>)
    ensures |r| == |values| / 4
    ensures forall j :: 0 <= j < |r| ==> r[j] == values[j]
  {
    values[..|values| / 4]
  }

  // ---------------------------------------------------------------------
  // Properties
  // ---------------------------------------------------------------------

  /** With a positive sample rate, bin frequencies strictly increase with the bin index. */
  lemma BinFrequencyIncreasing(i: nat, j: nat, sampleRate: real, len: nat)
    requires len > 0 && sampleRate > 0.0 && i < j
    ensures BinFrequency(i, sampleRate, len) < BinFrequency(j, sampleRate, len)
  {
    var d := (2 * len) as real;
    var a, b := i as real * sampleRate, j as real * sampleRate;
    MulLt(i as real, j as real, sampleRate);
    var qa, qb := a / d, b / d;
    assert qa * d == a && qb * d == b;
    if qb <= qa {
      MulLe(qb, qa, d);
    }
  }

  /**
   * With a positive sample rate the kept bins are a prefix of the
   * spectrum: the magnitudes are the first k values, frequency j is bin
   * j's frequency, and bin i is kept exactly when its frequency is at most
   * 1 kHz.
   */
  lemma {:induction false} BandIsPrefix(values: seq<real>, sampleRate: real, n: nat)
    requires sampleRate > 0.0 && n <= |values|
    ensures var (fs, ms) := BandUpTo(values, sampleRate, n);
            && ms == values[..|ms|]
            && (forall j :: 0 <= j < |fs| ==> fs[j] == BinFrequency(j, sampleRate, |values|))
            && (forall i :: 0 <= i < n ==> (i < |ms| <==> BinFrequency(i, sampleRate, |values|) <= BandLimit))
  {
    if n > 0 {
      BandIsPrefix(values, sampleRate, n - 1);
      var (fs, ms) := BandUpTo(values, sampleRate, n - 1);
      if BinFrequency(n - 1, sampleRate, |values|) <= BandLimit {
        forall i | 0 <= i < n - 1
          ensures BinFrequency(i, sampleRate, |values|) <= BandLimit
        {
          BinFrequencyIncreasing(i, n - 1, sampleRate, |values|);
        }
        assert |ms| == n - 1;
        assert values[..n] == values[..n - 1] + [values[n - 1]];
      }
    }
  }

  /** The returned frequencies strictly increase, so the band reads low to high. */
  lemma BandIncreasing(values: seq<real>, sampleRate: real)
    requires sampleRate > 0.0
    ensures var fs := BandUpTo(values, sampleRate, |values|).0;
            forall a, b :: 0 <= a < b < |fs| ==> fs[a] < fs[b]
  {
    BandIsPrefix(values, sampleRate, |values|);
    var fs := BandUpTo(values, sampleRate, |values|).0;
    forall a, b | 0 <= a < b < |fs|
      ensures fs[a] < fs[b]
    {
      BinFrequencyIncreasing(a, b, sampleRate, |values|);
    }
  }
}
