// `analyzeFrequency`: the Harmonic Product Spectrum of the byte spectrum
// captured at the knock, the first maximum inside the 60-200 Hz band, and the
// conversion of that bin back to hertz.
module Spectrum {
  import opened Buffers
  import opened Pressure

  /** `harmonicsToProcess`: harmonics 2 to 5 are multiplied in. */
  const HarmonicsToProcess: nat := 5

  /** `relevantMinHz` and `relevantMaxHz`: the band a tyre knock resonates in. */
  const RelevantMinHz: real := 60.0
  const RelevantMaxHz: real := 200.0

  /** The factor harmonic `h` contributes to bin `i`: 1 once `i * h` is past the end. */
  function HarmonicFactor(frequencyData: seq<Byte>, i: nat, h: nat): Byte
  {
    if i * h < |frequencyData| then frequencyData[i * h] else 1
  }

  /** The product of the factors of harmonics 2 up to, but excluding, `top`. */
  function HarmonicProduct(frequencyData: seq<Byte>, i: nat, top: nat): nat
  {
    if top <= 2 then 1
    else HarmonicProduct(frequencyData, i, top - 1) * HarmonicFactor(frequencyData, i, top - 1)
  }

  /** The value bin `i` holds once harmonics 2 up to, but excluding, `top` are multiplied in. */
  function Stage(frequencyData: seq<Byte>, i: nat, top: nat): nat
    requires i < |frequencyData|
  {
    frequencyData[i] * HarmonicProduct(frequencyData, i, top)
  }

  /** The value the HPS holds at bin `i` once every harmonic is multiplied in. */
  function HpsAt(frequencyData: seq<Byte>, i: nat): nat
    requires i < |frequencyData|
  {
    Stage(frequencyData, i, HarmonicsToProcess + 1)
  }

  /** The whole HPS, bin by bin. */
  function Hps(frequencyData: seq<Byte>): seq<nat>
  {
    seq(|frequencyData|, i requires 0 <= i < |frequencyData| => HpsAt(frequencyData, i))
  }

  /**
   * The HPS at bin `i` is the bin's own magnitude times the magnitude at
   * `i * h` for each harmonic h from 2 to 5 whose bin exists.
   */
  lemma {:induction false} HpsProductFormula(frequencyData: seq<Byte>, i: nat)
    requires i < |frequencyData|
    ensures HpsAt(frequencyData, i)
      == (frequencyData[i] as int)
         * (if 2 * i < |frequencyData| then frequencyData[2 * i] else 1)
         * (if 3 * i < |frequencyData| then frequencyData[3 * i] else 1)
         * (if 4 * i < |frequencyData| then frequencyData[4 * i] else 1)
         * (if 5 * i < |frequencyData| then frequencyData[5 * i] else 1)
  {
    var f2: int := HarmonicFactor(frequencyData, i, 2);
    var f3: int := HarmonicFactor(frequencyData, i, 3);
    var f4: int := HarmonicFactor(frequencyData, i, 4);
    var f5: int := HarmonicFactor(frequencyData, i, 5);
    assert f2 == (if 2 * i < |frequencyData| then frequencyData[2 * i] else 1);
    assert f3 == (if 3 * i < |frequencyData| then frequencyData[3 * i] else 1);
    assert f4 == (if 4 * i < |frequencyData| then frequencyData[4 * i] else 1);
    assert f5 == (if 5 * i < |frequencyData| then frequencyData[5 * i] else 1);
    assert HarmonicProduct(frequencyData, i, 3) == f2;
    assert HarmonicProduct(frequencyData, i, 4) == f2 * f3;
    assert HarmonicProduct(frequencyData, i, 5) == f2 * f3 * f4;
    assert HarmonicProduct(frequencyData, i, 6) == f2 * f3 * f4 * f5;
    Regroup(frequencyData[i], f2, f3, f4, f5);
  }

  /** Multiplication regrouped from the product as accumulated to the product as written. */
  lemma Regroup(a: int, b: int, c: int, d: int, e: int)
    ensures a * (b * c * d * e) == a * b * c * d * e
  {
  }

  /** A bin whose own magnitude is 0 stays 0. */
  lemma ZeroBinStaysZero(frequencyData: seq<Byte>, i: nat)
    requires i < |frequencyData| && frequencyData[i] == 0
    ensures HpsAt(frequencyData, i) == 0
  {
  }

  /** Bins in the upper half have no harmonic inside the spectrum and keep their magnitude. */
  lemma UpperHalfUnchanged(frequencyData: seq<Byte>, i: nat)
    requires i < |frequencyData| && 2 * i >= |frequencyData|
    ensures HpsAt(frequencyData, i) == frequencyData[i]
  {
    HpsProductFormula(frequencyData, i);
  }

  /** `i < N / h` over the reals holds exactly when `i * h < N`. */
  lemma BelowQuotient(i: nat, n: nat, h: nat)
    requires h > 0
    ensures (i as real) < (n as real) / (h as real) <==> i * h < n
  {
    var q := (n as real) / (h as real);
    assert q * (h as real) == n as real;
    assert (i * h) as real == (i as real) * (h as real);
  }

  /** Past the last bin the loop for `h` reaches, harmonic `h` contributes nothing. */
  lemma PastHarmonicRange(frequencyData: seq<Byte>, i: nat, k: nat, h: nat)
    requires 2 <= h && i <= k < |frequencyData| && i * h >= |frequencyData|
    ensures Stage(frequencyData, k, h + 1) == Stage(frequencyData, k, h)
  {
    assert k * h >= i * h;
  }

  /** Multiplying in the factor of harmonic `h` moves a bin from stage `h` to stage `h + 1`. */
  lemma MultiplyStep(frequencyData: seq<Byte>, i: nat, h: nat, v: nat)
    requires 2 <= h && i * h < |frequencyData| && i < |frequencyData|
    requires v == Stage(frequencyData, i, h)
    ensures v * frequencyData[i * h] == Stage(frequencyData, i, h + 1)
    ensures v * frequencyData[i * h] >= 0
  {
    var p := HarmonicProduct(frequencyData, i, h);
    assert HarmonicProduct(frequencyData, i, h + 1) == p * frequencyData[i * h];
    assert v * frequencyData[i * h] == (frequencyData[i] as int) * (p * frequencyData[i * h]);
  }

  /**
   * One pass of the inner loop for harmonic `h`: every bin below N / h is
   * multiplied, in place, by the magnitude at `i * h`; the other bins are
   * left alone, and their factor for `h` is 1.
   */
  method MultiplyHarmonic(spectrum: array<nat>, frequencyData: seq<Byte>, h: nat)
    requires spectrum.Length == |frequencyData| && 2 <= h
    requires forall k :: 0 <= k < spectrum.Length ==> spectrum[k] == Stage(frequencyData, k, h)
    modifies spectrum
    ensures forall k :: 0 <= k < spectrum.Length ==> spectrum[k] == Stage(frequencyData, k, h + 1)
  {
    var n := |frequencyData|;
    var i := 0;
    BelowQuotient(i, n, h);
    while (i as real) < (n as real) / (h as real)
      invariant 0 <= i <= n
      invariant forall k :: 0 <= k < i ==> spectrum[k] == Stage(frequencyData, k, h + 1)
      invariant forall k :: i <= k < n ==> spectrum[k] == Stage(frequencyData, k, h)
      decreases n - i
    {
      BelowQuotient(i, n, h);
      MultiplyStep(frequencyData, i, h, spectrum[i]);
      spectrum[i] := spectrum[i] * frequencyData[i * h];
      assert spectrum[i] == Stage(frequencyData, i, h + 1);
      i := i + 1;
    }
    BelowQuotient(i, n, h);
    forall k | i <= k < n
      ensures Stage(frequencyData, k, h + 1) == Stage(frequencyData, k, h)
    {
      PastHarmonicRange(frequencyData, i, k, h);
    }
  }

  /**
   * The HPS loops: copy the spectrum into a working array, then for each
   * harmonic h from 2 to 5 multiply every bin below N / h by the magnitude at
   * `i * h`. Every index read is inside the spectrum.
   */
  method HarmonicProductSpectrum(frequencyData: seq<Byte>) returns (hps: seq<nat>)
    ensures hps == Hps(frequencyData)
  {
    var n := |frequencyData|;
    var spectrum := new nat[n];
    var i := 0;
    while i < n
      invariant 0 <= i <= n
      invariant forall k :: 0 <= k < i ==> spectrum[k] == frequencyData[k]
    {
      spectrum[i] := frequencyData[i];
      i := i + 1;
    }
    var h := 2;
    while h <= HarmonicsToProcess
      invariant 2 <= h <= HarmonicsToProcess + 1
      invariant forall k :: 0 <= k < n ==> spectrum[k] == Stage(frequencyData, k, h)
    {
      MultiplyHarmonic(spectrum, frequencyData, h);
      h := h + 1;
    }
    hps := spectrum[..];
  }

  /** `Math.round((hz / nyquist) * N)`: the bin nearest to `hz`, with `nyquist = sampleRate / 2`. */
  function BandIndex(hz: real, sampleRate: real, n: nat): int
    requires sampleRate > 0.0
  {
    RoundHalfUp(hz / (sampleRate / 2.0) * n as real)
  }

  /** A frequency from 0 up to the Nyquist frequency maps to a bin from 0 to N. */
  lemma BandIndexBounds(hz: real, sampleRate: real, n: nat)
    requires sampleRate > 0.0 && 0.0 <= hz
    ensures 0 <= BandIndex(hz, sampleRate, n)
    ensures hz <= sampleRate / 2.0 ==> BandIndex(hz, sampleRate, n) <= n
  {
    var ratio := hz / (sampleRate / 2.0);
    assert 0.0 <= ratio;
    assert hz <= sampleRate / 2.0 ==> ratio <= 1.0;
    assert 0.0 <= ratio * n as real;
    assert ratio <= 1.0 ==> ratio * n as real <= n as real;
  }

  /** A higher frequency never maps to a lower bin, so the band is never reversed. */
  lemma BandIndexMonotone(hz1: real, hz2: real, sampleRate: real, n: nat)
    requires sampleRate > 0.0 && hz1 <= hz2
    ensures BandIndex(hz1, sampleRate, n) <= BandIndex(hz2, sampleRate, n)
  {
    var nyquist := sampleRate / 2.0;
    assert hz1 / nyquist <= hz2 / nyquist;
    assert hz1 / nyquist * n as real <= hz2 / nyquist * n as real;
  }

  /** `maxBin * sampleRate / fftSize`: the centre frequency of a bin. */
  function BinToHz(bin: int, sampleRate: real, fftSize: nat): real
    requires fftSize > 0
  {
    bin as real * sampleRate / fftSize as real
  }

  /** With N = fftSize / 2 bins, bin b sits at b / N of the Nyquist frequency. */
  lemma BinToHzOfNyquist(bin: int, sampleRate: real, n: nat)
    requires n > 0
    ensures BinToHz(bin, sampleRate, 2 * n) == bin as real * (sampleRate / 2.0) / n as real
  {
  }

  /** More bins mean more hertz: the conversion is strictly increasing. */
  lemma BinToHzMonotone(bin1: int, bin2: int, sampleRate: real, fftSize: nat)
    requires fftSize > 0 && sampleRate > 0.0 && bin1 < bin2
    ensures BinToHz(bin1, sampleRate, fftSize) < BinToHz(bin2, sampleRate, fftSize)
  {
    var width := sampleRate / fftSize as real;
    assert width > 0.0;
    assert BinToHz(bin1, sampleRate, fftSize) == bin1 as real * width;
    assert BinToHz(bin2, sampleRate, fftSize) == bin2 as real * width;
    assert (bin2 as real - bin1 as real) * width > 0.0;
  }

  /**
   * Converting a frequency to its bin and the bin back to hertz lands within
   * half a bin width (`sampleRate / fftSize`) of where it started.
   */
  lemma BandIndexRoundTrip(hz: real, sampleRate: real, n: nat)
    requires sampleRate > 0.0 && n > 0
    ensures var back := BinToHz(BandIndex(hz, sampleRate, n), sampleRate, 2 * n);
      var halfWidth := sampleRate / (2 * n) as real / 2.0;
      hz - halfWidth < back <= hz + halfWidth
  {
    var r := BandIndex(hz, sampleRate, n);
    var x := hz / (sampleRate / 2.0) * n as real;
    var width := sampleRate / (2 * n) as real;
    assert width > 0.0;
    assert x * width == hz;
    assert BinToHz(r, sampleRate, 2 * n) == r as real * width;
    WithinHalfWidth(hz, x, r as real, width);
  }

  /** Scaling a rounding error below one half by a positive width. */
  lemma WithinHalfWidth(hz: real, x: real, r: real, width: real)
    requires width > 0.0 && x * width == hz && r - 0.5 <= x < r + 0.5
    ensures hz - width / 2.0 < r * width <= hz + width / 2.0
  {
    var d := r - x;
    assert -0.5 < d <= 0.5;
    assert d * width <= 0.5 * width;
    assert -0.5 * width < d * width;
    assert r * width == hz + d * width;
  }

  /** The band end the scan may use: `maxIndexBound`, cut at the end of the spectrum. */
  function Min(a: int, b: int): int
  {
    if a < b then a else b
  }

  /**
   * Bin `b` holds the first largest value of `hps` in `[lo, hi)`: nothing in
   * the range is larger, and everything before it in the range is smaller.
   */
  ghost predicate IsFirstMax(hps: seq<nat>, lo: int, hi: int, b: int)
  {
    && 0 <= lo <= b < hi <= |hps|
    && (forall j :: lo <= j < hi ==> hps[j] <= hps[b])
    && (forall j :: lo <= j < b ==> hps[j] < hps[b])
  }

  /** At most one bin is the first maximum of a range: the scan is deterministic. */
  lemma FirstMaxUnique(hps: seq<nat>, lo: int, hi: int, b1: int, b2: int)
    requires IsFirstMax(hps, lo, hi, b1) && IsFirstMax(hps, lo, hi, b2)
    ensures b1 == b2
  {
    // Each is as large as the other, and a strictly earlier one would be strictly smaller.
    assert hps[b1] <= hps[b2];
    assert hps[b2] <= hps[b1];
  }

  /**
   * The scan of `[minIndex, maxIndexBound)` from `maxVal = -1, maxBin = -1`
   * with a strict `>`. A bin past the end of the spectrum reads `undefined`,
   * which is never greater, so it is skipped. Because the values are never
   * negative, a non-empty range always selects a bin, even an all-zero one.
   */
  method PeakBin(hps: seq<nat>, minIndex: nat, maxIndexBound: nat) returns (maxBin: int)
    ensures var hi := Min(maxIndexBound, |hps|);
      && (minIndex < hi ==> IsFirstMax(hps, minIndex, hi, maxBin))
      && (minIndex >= hi ==> maxBin == -1)
  {
    var maxVal: int := -1;
    maxBin := -1;
    var i := minIndex;
    while i < maxIndexBound
      invariant minIndex <= i
      invariant i == minIndex || i <= maxIndexBound
      invariant minIndex < Min(i, |hps|) ==> IsFirstMax(hps, minIndex, Min(i, |hps|), maxBin) && maxVal == hps[maxBin]
      invariant minIndex >= Min(i, |hps|) ==> maxBin == -1 && maxVal == -1
    {
      if i < |hps| && hps[i] > maxVal {
        maxVal := hps[i];
        maxBin := i;
      }
      i := i + 1;
    }
  }

  /**
   * `analyzeFrequency` on the byte spectrum captured at the knock: the HPS,
   * the band 60-200 Hz as bin indices, the first maximum in it, its
   * frequency, and what `displayResult` shows for it.
   */
  method AnalyzeFrequency(frequencyData: seq<Byte>, sampleRate: real, fftSize: nat)
    returns (maxBin: int, peakFrequency: real, display: Display)
    requires sampleRate > 0.0 && fftSize > 0
    ensures var lo := BandIndex(RelevantMinHz, sampleRate, |frequencyData|);
      var hi := Min(BandIndex(RelevantMaxHz, sampleRate, |frequencyData|), |frequencyData|);
      && (lo < hi ==> IsFirstMax(Hps(frequencyData), lo, hi, maxBin))
      && (lo >= hi ==> maxBin == -1)
    ensures peakFrequency == BinToHz(maxBin, sampleRate, fftSize)
    ensures display == DisplayResult(peakFrequency)
  {
    var hps := HarmonicProductSpectrum(frequencyData);
    var n := |hps|;
    BandIndexBounds(RelevantMinHz, sampleRate, n);
    BandIndexBounds(RelevantMaxHz, sampleRate, n);
    var minIndex := BandIndex(RelevantMinHz, sampleRate, n);
    var maxIndexBound := BandIndex(RelevantMaxHz, sampleRate, n);
    maxBin := PeakBin(hps, minIndex, maxIndexBound);
    peakFrequency := BinToHz(maxBin, sampleRate, fftSize);
    display := DisplayResult(peakFrequency);
  }

  /**
   * An empty band leaves `maxBin` at -1; its negative frequency falls through
   * to the last branch and reads 30 PSI, underinflated.
   */
  lemma EmptyBandReads30(sampleRate: real, fftSize: nat)
    requires sampleRate > 0.0 && fftSize > 0
    ensures BinToHz(-1, sampleRate, fftSize) < 0.0
    ensures DisplayResult(BinToHz(-1, sampleRate, fftSize)).psiText == Psi(30)
    ensures DisplayResult(BinToHz(-1, sampleRate, fftSize)).status == Underinflated
  {
    var f := BinToHz(-1, sampleRate, fftSize);
    assert f == -(sampleRate / fftSize as real);
    LowFrequencyReads30(f);
  }
}
