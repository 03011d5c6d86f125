// Ambient-noise calibration and the per-tick knock decision
// (`calibrateAndListen` and `detectKnock`), with the analyser's time-domain
// buffers passed in as parameters.
module KnockDetector {
  import opened Buffers

  /** The threshold in force before any calibration has finished. */
  const InitialKnockThreshold: real := 200.0

  /** `samples.reduce((a, b) => a + b, 0)`: a left fold from 0. */
  function Sum(samples: seq<int>): int
  {
    if |samples| == 0 then 0 else Sum(samples[..|samples| - 1]) + samples[|samples| - 1]
  }

  /** The ambient noise level: the mean of the calibration samples. */
  function Mean(samples: seq<int>): real
    requires |samples| > 0
  {
    Sum(samples) as real / |samples| as real
  }

  /** `dynamicKnockThreshold`: one and a half times the ambient level, plus 25. */
  function KnockThreshold(samples: seq<int>): real
    requires |samples| > 0
  {
    Mean(samples) * 1.5 + 25.0
  }

  /** A tick is a knock when its peak is strictly above the threshold. */
  predicate IsKnock(maxAmplitude: int, threshold: real)
  {
    maxAmplitude as real > threshold
  }

  /** The peak of every calibration buffer, in the order they were sampled. */
  function Peaks(buffers: seq<seq<Byte>>): seq<Byte>
    requires forall k :: 0 <= k < |buffers| ==> |buffers[k]| > 0
  {
    seq(|buffers|, k requires 0 <= k < |buffers| => Max(buffers[k]))
  }

  /**
   * The calibration interval: each tick pushes `Math.max` of the current
   * time-domain buffer onto `samples`.
   */
  method CollectSamples(buffers: seq<seq<Byte>>) returns (samples: seq<Byte>)
    requires forall k :: 0 <= k < |buffers| ==> |buffers[k]| > 0
    ensures |samples| == |buffers|
    ensures forall k :: 0 <= k < |buffers| ==> samples[k] == Max(buffers[k])
  {
    samples := [];
    var t := 0;
    while t < |buffers|
      invariant 0 <= t <= |buffers|
      invariant |samples| == t
      invariant forall k :: 0 <= k < t ==> samples[k] == Max(buffers[k])
    {
      samples := samples + [Max(buffers[t])];
      t := t + 1;
    }
  }

  /**
   * If every sample lies between `lo` and `hi`, the sum lies between
   * `lo` and `hi` times the number of samples.
   */
  lemma {:induction false} SumBetween(samples: seq<int>, lo: int, hi: int)
    requires forall k :: 0 <= k < |samples| ==> lo <= samples[k] <= hi
    ensures lo * |samples| <= Sum(samples) <= hi * |samples|
  {
    if |samples| > 0 {
      var n := |samples| - 1;
      SumBetween(samples[..n], lo, hi);
      assert lo * |samples| == lo * n + lo;
      assert hi * |samples| == hi * n + hi;
    }
  }

  /** The ambient level lies between the quietest and the loudest sample. */
  lemma MeanBetween(samples: seq<int>, lo: int, hi: int)
    requires |samples| > 0
    requires forall k :: 0 <= k < |samples| ==> lo <= samples[k] <= hi
    ensures lo as real <= Mean(samples) <= hi as real
  {
    SumBetween(samples, lo, hi);
    CastProduct(lo, |samples|);
    CastProduct(hi, |samples|);
    QuotientBetween(Sum(samples) as real, |samples| as real, lo as real, hi as real);
  }

  /** Casting a product of integers to a real multiplies the casts. */
  lemma CastProduct(a: int, b: int)
    ensures (a * b) as real == a as real * b as real
  {
  }

  /** Dividing by a positive count keeps a value between the same bounds. */
  lemma QuotientBetween(a: real, n: real, lo: real, hi: real)
    requires n > 0.0 && lo * n <= a <= hi * n
    ensures lo <= a / n <= hi
  {
    var q := a / n;
    assert q * n == a;
    assert (q - lo) * n >= 0.0;
    assert (hi - q) * n >= 0.0;
  }

  /** When every sample is `c`, the threshold is exactly `c * 1.5 + 25`. */
  lemma ThresholdOfConstant(samples: seq<int>, c: int)
    requires |samples| > 0
    requires forall k :: 0 <= k < |samples| ==> samples[k] == c
    ensures KnockThreshold(samples) == c as real * 1.5 + 25.0
  {
    MeanBetween(samples, c, c);
  }

  /** On 8-bit samples the threshold lies between 25 and 407.5. */
  lemma ThresholdRange(samples: seq<Byte>)
    requires |samples| > 0
    ensures 25.0 <= KnockThreshold(samples) <= 407.5
  {
    MeanBetween(samples, 0, 255);
  }

  /**
   * An ambient level of 154 or more on every sample puts the threshold above
   * 255, so no later tick can ever be a knock.
   */
  lemma LoudAmbientBlocksKnock(samples: seq<Byte>, timeDomainData: seq<Byte>)
    requires |samples| > 0 && |timeDomainData| > 0
    requires forall k :: 0 <= k < |samples| ==> samples[k] >= 154
    ensures !IsKnock(Max(timeDomainData), KnockThreshold(samples))
  {
    MeanBetween(samples, 154, 255);
  }

  /**
   * Calibration samples that all read 50 give an ambient level of 50 and a
   * threshold of 100: a peak of 101 is a knock, a peak of 100 or 99 is not.
   */
  lemma QuietRoomScenario(samples: seq<Byte>)
    requires |samples| > 0
    requires forall k :: 0 <= k < |samples| ==> samples[k] == 50
    ensures KnockThreshold(samples) == 100.0
    ensures IsKnock(101, KnockThreshold(samples))
    ensures !IsKnock(100, KnockThreshold(samples)) && !IsKnock(99, KnockThreshold(samples))
  {
    ThresholdOfConstant(samples, 50);
  }

  /** The module-level state that `calibrateAndListen` and `detectKnock` share. */
  class Detector {
    /** `dynamicKnockThreshold`. */
    var dynamicKnockThreshold: real

    constructor ()
      ensures dynamicKnockThreshold == InitialKnockThreshold
    {
      dynamicKnockThreshold := InitialKnockThreshold;
    }

    /**
     * `calibrateAndListen`: sample the peak of each calibration buffer, then
     * set the threshold from their mean. The timer collects at least one
     * sample before the timeout fires; with none the mean would be NaN.
     */
    method Calibrate(buffers: seq<seq<Byte>>)
      requires |buffers| > 0
      requires forall k :: 0 <= k < |buffers| ==> |buffers[k]| > 0
      modifies this
      ensures dynamicKnockThreshold == KnockThreshold(Peaks(buffers))
      ensures 25.0 <= dynamicKnockThreshold <= 407.5
    {
      var samples := CollectSamples(buffers);
      assert samples == Peaks(buffers);
      ThresholdRange(samples);
      dynamicKnockThreshold := KnockThreshold(samples);
    }

    /**
     * One tick of `detectKnock`'s `check`: the tick is a knock exactly when
     * some byte of the buffer is strictly above the threshold.
     */
    method CheckTick(timeDomainData: seq<Byte>) returns (knock: bool)
      requires |timeDomainData| > 0
      ensures knock == IsKnock(Max(timeDomainData), dynamicKnockThreshold)
      ensures knock <==> exists x :: x in timeDomainData && x as real > dynamicKnockThreshold
    {
      var maxAmplitude := Max(timeDomainData);
      knock := maxAmplitude as real > dynamicKnockThreshold;
    }
  }
}
