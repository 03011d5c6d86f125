# Tyre-knock pressure estimator: a verified model

The tool listens to a knock on a tyre through the browser microphone and
estimates the tyre pressure in PSI. It works in four steps:

1. It calibrates against the ambient noise. The threshold is the mean of the
   calibration peaks times 1.5, plus 25.
2. It waits for a tick whose peak amplitude is strictly above that threshold.
3. It takes the Harmonic Product Spectrum (HPS) of the byte spectrum captured
   at the knock and picks the first strongest bin between 60 and 200 Hz.
4. It rounds that frequency and classifies it against an empirical
   frequency-to-PSI table: remeasure, "> 100 PSI", normal or underinflated.

This Dafny project models those four steps from `script.js`. The Web Audio
analyser's buffers, the sample rate and the FFT size become parameters.

Modules, leaf to root:

- `Buffers`: byte buffers (`Uint8Array`) and `Math.max(...buffer)`.
- `CalibrationTable`: the table `psiData` and `findNearestPSI`. The lookup
  is a `reduce` without an initial value and with a strict `<`, so the
  earliest of several equally close entries wins. It is modelled by the
  index of the accumulated entry.
- `KnockDetector`: calibration and the per-tick knock test. A class
  `Detector` holds `dynamicKnockThreshold`, the state the source updates in
  place.
- `Pressure`: `Math.round` and the branch structure of `displayResult`.
- `Spectrum`: `analyzeFrequency`. It has three parts:
  - the HPS loops, modelled as methods that work in place on an array;
  - the band limits;
  - the first-maximum scan and the conversion of a bin to hertz.

What each part is proved against:

- The HPS methods are proved to produce the function `Hps`.
- The scan method `PeakBin` is proved to return a bin satisfying the
  predicate `IsFirstMax` (the first largest value of the band).
- The lookup is a chain of functions (`ReduceNearest`, `NearestIndex`,
  `FindNearestPsi`), each with an ensures in terms of the predicate
  `IsFirstNearest` (the first closest entry of the table).

Lemmas then state what those specifications mean: the product formula, the
tie-breaking, the classification bands of this particular table, and the
boundary cases.

About rounding and the boundaries: `displayResult` rounds the frequency
before any comparison. So 125.0 Hz and 125.1 Hz both round to 125 and read
"> 100 PSI"; only 125.5 Hz and above asks to remeasure. Likewise 95.3 Hz
rounds to 95 Hz, whose nearest entry is 95.2 Hz (100 PSI), so it reads
normal; "> 100 PSI" starts at 95.5 Hz. The model follows the code, and
`Pressure.BoundaryCases` states these cases.

## Model

| member | source | states |
|---|---|---|
| Buffers.Max | script.js:115 | `Math.max` of a non-empty byte buffer is one of its bytes, and no byte is larger |
| CalibrationTable.ReduceNearest | script.js:53-54 | the `reduce` step (replace the accumulator only when the current entry is strictly closer) ends on the first nearest entry of the whole table, given that it was the first nearest of the prefix seen so far |
| CalibrationTable.NearestIndex | script.js:53-55 | a `reduce` seeded with the first entry returns a position that no entry is strictly closer than, and every earlier entry is strictly farther |
| CalibrationTable.PsiData | script.js:2-10 | the 18 entries of `psiData` in table order; a constant without ensures, described by `FindNearestPsi` and the table lemmas below |
| CalibrationTable.Distance | script.js:54 | `Math.abs(freq - f)`; a definition without ensures, used by `IsFirstNearest` |
| CalibrationTable.FindNearestPsi | script.js:52-56 | the answer is the PSI of the first nearest entry of `psiData`, so it lies between 20 and 105 |
| CalibrationTable.FirstNearestPrecedesTies | script.js:54 | because the comparison is strict, the entry found comes no later than any equally close entry |
| CalibrationTable.FirstNearestUnique | script.js:53-55 | only one position can be the first nearest, so the lookup is deterministic |
| CalibrationTable.NearestBefore | script.js:53-55 | if some entry is strictly closer than every entry from position `lo` on, the lookup answers before `lo` |
| CalibrationTable.NearestAfter | script.js:53-55 | if some entry is strictly closer than every entry before position `hi`, the lookup answers at `hi` or later |
| CalibrationTable.NeverAbove100Below96 | script.js:52-56 | below 96.6 Hz the lookup never answers 105 PSI |
| CalibrationTable.LowFrequencyIs30 | script.js:52-56 | at or below 64 Hz (negative frequencies included) the lookup settles on entry 15, the first of the three 64 Hz entries, and answers 30 PSI |
| CalibrationTable.NearestAround95 | script.js:52-56 | from 94.5 to 95.5 Hz the lookup answers 100 PSI |
| CalibrationTable.UnderinflatedBelow84 | script.js:52-56 | for a whole number of hertz up to 83 the lookup answers less than 80 PSI |
| CalibrationTable.NormalFrom84To95 | script.js:52-56 | from 84 to 95 Hz the lookup answers between 80 and 100 PSI |
| CalibrationTable.NormalBandOfTable | script.js:52-56 | for a whole number of hertz up to 95, the lookup answers 80 to 100 PSI exactly when the frequency is at least 84 Hz |
| KnockDetector.InitialKnockThreshold | script.js:30 | the threshold of 200 in force before calibration; a constant, used by `Detector.constructor` |
| KnockDetector.Peaks | script.js:88 | the peak of each calibration buffer, in order; a definition without ensures, the specification of `CollectSamples` |
| KnockDetector.Sum | script.js:93 | the left fold `reduce((a, b) => a + b, 0)`; a definition without ensures, described by `SumBetween` |
| KnockDetector.Mean | script.js:93 | the ambient level, the sum over the count; a definition without ensures, described by `MeanBetween` |
| KnockDetector.KnockThreshold | script.js:93-94 | the mean times 1.5 plus 25; a definition without ensures, described by `ThresholdOfConstant`, `ThresholdRange`, `LoudAmbientBlocksKnock` and `QuietRoomScenario` |
| KnockDetector.IsKnock | script.js:117 | the strict comparison of the peak with the threshold; a predicate without ensures, used by `Detector.CheckTick` and described by `QuietRoomScenario` and `LoudAmbientBlocksKnock` |
| KnockDetector.CollectSamples | script.js:84-89 | after one push per calibration buffer, sample k is the peak of buffer k, in order |
| KnockDetector.SumBetween | script.js:93 | the sum of the samples lies between n times the smallest and n times the largest possible sample |
| KnockDetector.MeanBetween | script.js:93 | the ambient level (the mean) lies between the bounds of the samples |
| KnockDetector.ThresholdOfConstant | script.js:93-94 | samples that all equal c give a threshold of exactly c * 1.5 + 25 |
| KnockDetector.ThresholdRange | script.js:93-94 | on 8-bit samples the threshold lies between 25 and 407.5 |
| KnockDetector.LoudAmbientBlocksKnock | script.js:93-117 | if every calibration sample is 154 or more, no later byte buffer can trigger a knock |
| KnockDetector.QuietRoomScenario | script.js:93-117 | samples of 50 give a threshold of 100: a peak of 101 is a knock; peaks of 100 and 99 are not, because the comparison is strict |
| KnockDetector.Detector.constructor | script.js:30 | the threshold starts at 200 |
| KnockDetector.Detector.Calibrate | script.js:80-98 | sets the threshold to the mean of the buffer peaks times 1.5 plus 25, which lies between 25 and 407.5 |
| KnockDetector.Detector.CheckTick | script.js:113-117 | a tick is a knock exactly when some byte of the buffer is strictly above the threshold |
| Pressure.MaxFreqLimit | script.js:29 | the 125 Hz limit above which the result asks to remeasure; a constant, described by `StatusByFrequency` and `BoundaryCases` |
| Pressure.RoundHalfUp | script.js:165 | `Math.round`: the result is within one half of the input, and halves round up |
| Pressure.DisplayResult | script.js:164-200 | the shown frequency is the rounded one; remeasure exactly when the PSI text is "-"; "> 100 PSI" exactly when the status is hard; a PSI number is the table lookup of the rounded frequency, between 20 and 100; normal means 80 to 100 PSI; underinflated means less than 80 |
| Pressure.StatusByFrequency | script.js:171-198 | with this table the status depends on the rounded frequency alone, and the four cases are exhaustive and exclusive: above 125 remeasure, 96 to 125 hard, 84 to 95 normal, 83 or less underinflated |
| Pressure.BoundaryCases | script.js:165-189 | 125.0 and 125.1 Hz read hard; 125.5 Hz remeasure; 95.2 and 95.3 Hz read 95 Hz, 100 PSI, normal; 95.5 Hz reads hard |
| Pressure.LowFrequencyReads30 | script.js:185-197 | every frequency that rounds to 64 Hz or less reads 30 PSI, underinflated |
| Spectrum.HarmonicsToProcess | script.js:132 | harmonics 2 to 5 are multiplied in; a constant, used by `HpsAt` and `HarmonicProductSpectrum` |
| Spectrum.Hps | script.js:134-142 | the HPS bin by bin; a definition without ensures, the specification of `HarmonicProductSpectrum`, described by `HpsProductFormula`, `ZeroBinStaysZero` and `UpperHalfUnchanged` |
| Spectrum.HpsProductFormula | script.js:134-142 | each HPS bin equals its own magnitude times the magnitude at i*h for each h from 2 to 5 with i*h inside the spectrum |
| Spectrum.ZeroBinStaysZero | script.js:138-142 | a bin of magnitude 0 stays 0 |
| Spectrum.UpperHalfUnchanged | script.js:138-142 | bins at or above N/2 keep their original magnitude |
| Spectrum.BelowQuotient | script.js:139 | the loop guard `i < N / h`, a real division, holds exactly when i*h < N, so every index read is inside the spectrum |
| Spectrum.PastHarmonicRange | script.js:139 | a bin the loop for h does not reach gets no factor for h |
| Spectrum.MultiplyStep | script.js:140 | one in-place multiplication takes a bin from the stage before harmonic h to the stage after it |
| Spectrum.MultiplyHarmonic | script.js:139-141 | one pass for harmonic h moves every bin of the array from the stage before h to the stage after h |
| Spectrum.HarmonicProductSpectrum | script.js:131-142 | the copy loop and the loops for harmonics 2 to 5 produce exactly the HPS |
| Spectrum.RelevantMinHz | script.js:144 | the 60 Hz lower end of the knock band; a constant, used by `AnalyzeFrequency` |
| Spectrum.RelevantMaxHz | script.js:145 | the 200 Hz upper end of the knock band; a constant, used by `AnalyzeFrequency` |
| Spectrum.BandIndex | script.js:147-148 | `Math.round((hz / nyquist) * N)`; a definition without ensures, described by `BandIndexBounds`, `BandIndexMonotone` and `BandIndexRoundTrip` |
| Spectrum.BinToHz | script.js:160 | `bin * sampleRate / fftSize`; a definition without ensures, described by `BinToHzOfNyquist`, `BinToHzMonotone` and `BandIndexRoundTrip` |
| Spectrum.BandIndexBounds | script.js:146-148 | a frequency between 0 and the Nyquist frequency maps to a bin index between 0 and N |
| Spectrum.BandIndexMonotone | script.js:147-148 | a higher frequency never maps to a lower bin index, so the 60 Hz index never exceeds the 200 Hz one |
| Spectrum.BinToHzOfNyquist | script.js:160 | with fftSize = 2N, `bin * sampleRate / fftSize` equals `bin * nyquist / N`, the inverse of the band-index scaling |
| Spectrum.BinToHzMonotone | script.js:160 | the conversion of a bin to hertz is strictly increasing in the bin |
| Spectrum.BandIndexRoundTrip | script.js:146-160 | a frequency converted to a bin index and back lands within half a bin width of where it started |
| Spectrum.FirstMaxUnique | script.js:153-158 | only one bin can be the first maximum of a range, so the scan is deterministic |
| Spectrum.PeakBin | script.js:150-158 | on a non-empty range the scan returns a bin inside it that no value in the range exceeds, and every earlier value in the range is strictly smaller; this holds even when the range is all zeros; on an empty range it returns -1 |
| Spectrum.AnalyzeFrequency | script.js:127-161 | the chosen bin is the first maximum of the HPS over the 60-200 Hz band, or -1 if the band is empty; the peak frequency is that bin in hertz; the display is `displayResult` of that frequency |
| Spectrum.EmptyBandReads30 | script.js:151-160 | an empty band gives bin -1 and a negative frequency, which reads 30 PSI, underinflated |

The table lemmas above rest on small facts read off the constant table, each
proved in isolation so that the lookup proofs stay cheap:
`CalibrationTable.NamedEntries` (the length and entries 0, 1, 6 and 15),
`FrequenciesFrom64`, `FrequenciesAround83`, `NormalEntries`,
`OnlyFirstEntryAbove100`, and the comparisons `SecondBeatsFirst`,
`SecondBeatsLater`, `FirstLowestBeatsBefore`, `Entry83BeatsBefore` and
`CloseNormalEntry` (which entry is strictly closer than which, over a range
of frequencies), all about script.js:2-10.

## Left out

- The page itself is not modelled: DOM lookups, styles, classes, texts, the
  volume bar, the Thai status strings, `updateUIMode` and the click handler.
  They change what is shown, not what is computed.
- Audio acquisition is not modelled: `AudioContext`, `getUserMedia`, the
  analyser, and its `getByte…Data` calls. The buffers, sample rate and FFT
  size they deliver are parameters.
- Scheduling is not modelled: `setInterval`, `setTimeout`,
  `requestAnimationFrame`, `cancelAnimationFrame`, `isListening`,
  `animationFrameId` and `stopListening`. The model keeps the decision one
  tick makes (`Detector.CheckTick`) and what the calibration timeout computes
  (`Detector.Calibrate`). That `stopListening` does not cancel a pending
  calibration timeout is timing behaviour and is not captured.
- Spectrum.HarmonicProductSpectrum: uses exact natural-number products. The
  source multiplies in a `Float32Array`, where products up to 255^5 lose
  precision; single-precision rounding is not modelled.
- Buffers.Max: requires a non-empty buffer. The analyser's buffers hold half
  the FFT size, so they are never empty; `Math.max()` of an empty list
  (-Infinity) is not modelled.
- KnockDetector.Detector.Calibrate: requires at least one calibration
  sample. The 100 ms interval fires before the 1000 ms timeout, and the
  source has no path for zero samples (its mean would be NaN).
- Spectrum.AnalyzeFrequency: does not tie the spectrum length to
  `fftSize / 2`. Both are parameters, as the analyser supplies them.
  `BinToHzOfNyquist` states the relation when it holds.
- Spectrum.PeakBin: when the band reaches past the end of the spectrum, the
  source reads `undefined`, which never compares greater. The model skips
  such bins rather than modelling `undefined`.
- Sample rate and frequencies are `real`. The band-index rounding is
  `Math.round` on exact reals, not on IEEE doubles.
