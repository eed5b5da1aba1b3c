/** Binned calibration error of win probabilities, as the benchmark and as the backtest compute it. */
module Calibration {
  import opened Common

  const CALIBRATION_BIN_COUNT := 10

  datatype Sample = Sample(probability: real, won: bool)

  // ---- Specification -------------------------------------------------------------------

  function Outcome(s: Sample): real {
    if s.won then 1.0 else 0.0
  }

  function Gap(s: Sample): real {
    s.probability - Outcome(s)
  }

  function AbsGap(s: Sample): real {
    Abs(Gap(s))
  }

  /** The bin of a probability; 1 belongs to the last bin. */
  function BinOf(s: Sample, bins: nat): int {
    Min((s.probability * bins as real).Floor, bins - 1)
  }

  function Bucket(samples: seq<Sample>, bins: nat, b: int): seq<Sample> {
    if samples == [] then []
    else
      var before, s := Bucket(samples[..|samples| - 1], bins, b), samples[|samples| - 1];
      if BinOf(s, bins) == b then before + [s] else before
  }

  function Probability(s: Sample): real {
    s.probability
  }

  function Mean(f: Sample -> real, samples: seq<Sample>): real
    requires samples != []
  {
    SumReal(f, samples) / |samples| as real
  }

  /** A bin's share of the error in the benchmark. */
  function Term(bucket: seq<Sample>, total: nat): real
    requires total > 0
  {
    if bucket == [] then 0.0
    else (|bucket| as real / total as real) * Abs(Mean(Probability, bucket) - Mean(Outcome, bucket))
  }

  function TermsUpTo(samples: seq<Sample>, bins: nat, end: nat): real
    requires samples != []
  {
    if end == 0 then 0.0
    else TermsUpTo(samples, bins, end - 1) + Term(Bucket(samples, bins, end - 1), |samples|)
  }

  function ExpectedCalibrationError(samples: seq<Sample>): Option<real> {
    if samples == [] then None else Some(TermsUpTo(samples, CALIBRATION_BIN_COUNT, CALIBRATION_BIN_COUNT))
  }

  /** A bin's share of the error in the backtest, before the division by the number of samples. */
  function WeightedGap(bucket: seq<Sample>): real {
    if bucket == [] then 0.0 else |bucket| as real * Abs(Mean(Outcome, bucket) - Mean(Probability, bucket))
  }

  function WeightedGapsUpTo(samples: seq<Sample>, bins: nat, end: nat): real {
    if end == 0 then 0.0
    else WeightedGapsUpTo(samples, bins, end - 1) + WeightedGap(Bucket(samples, bins, end - 1))
  }

  function Clamped(samples: seq<Sample>): seq<Sample> {
    seq(|samples|, i requires 0 <= i < |samples| =>
      samples[i].(probability := MinReal(MaxReal(samples[i].probability, 0.0), 1.0)))
  }

  /** The backtest's figure, rounded to six places by `round`. */
  function BacktestError(samples: seq<Sample>, bins: nat, round: real -> real): Option<real> {
    if samples == [] then None
    else Some(round(WeightedGapsUpTo(Clamped(samples), bins, bins) / |samples| as real))
  }

  predicate InUnit(samples: seq<Sample>) {
    forall i :: 0 <= i < |samples| ==> 0.0 <= samples[i].probability <= 1.0
  }

  /** What binning needs: a probability above 1 still lands in the last bin. */
  predicate NotNegative(samples: seq<Sample>) {
    forall i :: 0 <= i < |samples| ==> 0.0 <= samples[i].probability
  }

  // ---- The two loops -----------------------------------------------------------------------

  lemma BinInRange(s: Sample, bins: nat)
    requires 0.0 <= s.probability && bins > 0
    ensures 0 <= BinOf(s, bins) < bins
  {
    assert s.probability * bins as real >= 0.0;
  }

  /** A bin holds exactly the samples whose probability lies in its interval; the last one is open above. */
  lemma {:induction false} BinsAreIntervals(samples: seq<Sample>, bins: nat, b: int)
    requires NotNegative(samples) && 0 <= b < bins
    ensures forall s :: s in Bucket(samples, bins, b) <==>
              && s in samples && b as real <= s.probability * bins as real
              && (b < bins - 1 ==> s.probability * bins as real < (b + 1) as real)
  {
    if samples != [] {
      var n := |samples| - 1;
      BinsAreIntervals(samples[..n], bins, b);
      assert samples == samples[..n] + [samples[n]];
      BinIs(samples[n], bins, b);
    }
  }

  lemma BinIs(s: Sample, bins: nat, b: int)
    requires 0 <= b < bins
    ensures BinOf(s, bins) == b <==>
              && b as real <= s.probability * bins as real
              && (b < bins - 1 ==> s.probability * bins as real < (b + 1) as real)
  {
    var x := s.probability * bins as real;
    assert x.Floor as real <= x < (x.Floor + 1) as real;
  }

  method FillBins(samples: seq<Sample>, bins: nat) returns (buckets: seq<seq<Sample>>)
    requires bins > 0 && NotNegative(samples)
    ensures |buckets| == bins && forall b :: 0 <= b < bins ==> buckets[b] == Bucket(samples, bins, b)
  {
    buckets := seq(bins, i => []);
    for i := 0 to |samples|
      invariant |buckets| == bins
      invariant forall b :: 0 <= b < bins ==> buckets[b] == Bucket(samples[..i], bins, b)
    {
      assert samples[..i + 1][..i] == samples[..i];
      BinInRange(samples[i], bins);
      var index := Min((samples[i].probability * bins as real).Floor, bins - 1);
      buckets := buckets[index := buckets[index] + [samples[i]]];
    }
    assert samples[..|samples|] == samples;
  }

  method SumTerms(samples: seq<Sample>, buckets: seq<seq<Sample>>) returns (error: real)
    requires samples != [] && forall b :: 0 <= b < |buckets| ==> buckets[b] == Bucket(samples, |buckets|, b)
    ensures error == TermsUpTo(samples, |buckets|, |buckets|)
  {
    error := 0.0;
    for b := 0 to |buckets|
      invariant error == TermsUpTo(samples, |buckets|, b)
    {
      var bucket := buckets[b];
      if bucket != [] {
        var confidence, observed := Mean(Probability, bucket), Mean(Outcome, bucket);
        error := error + (|bucket| as real / |samples| as real) * Abs(confidence - observed);
      }
    }
  }

  method BenchmarkCalibrationError(samples: seq<Sample>) returns (r: Option<real>)
    requires NotNegative(samples)
    ensures r == ExpectedCalibrationError(samples)
  {
    if samples == [] {
      return None;
    }
    var buckets := FillBins(samples, CALIBRATION_BIN_COUNT);
    var error := SumTerms(samples, buckets);
    return Some(error);
  }

  method SumWeightedGaps(samples: seq<Sample>, buckets: seq<seq<Sample>>) returns (weighted: real)
    requires forall b :: 0 <= b < |buckets| ==> buckets[b] == Bucket(samples, |buckets|, b)
    ensures weighted == WeightedGapsUpTo(samples, |buckets|, |buckets|)
  {
    weighted := 0.0;
    for b := 0 to |buckets|
      invariant weighted == WeightedGapsUpTo(samples, |buckets|, b)
    {
      var bucket := buckets[b];
      if bucket != [] {
        var meanProbability, winRate := Mean(Probability, bucket), Mean(Outcome, bucket);
        weighted := weighted + |bucket| as real * Abs(winRate - meanProbability);
      }
    }
  }

  method BacktestCalibration(samples: seq<Sample>, bins: nat, round: real -> real) returns (r: Option<real>)
    requires bins > 0
    ensures r == BacktestError(samples, bins, round)
  {
    if samples == [] {
      return None;
    }
    var buckets := FillBins(Clamped(samples), bins);
    var weighted := SumWeightedGaps(Clamped(samples), buckets);
    return Some(round(weighted / |samples| as real));
  }

  // ---- Both are the sum of the bins' absolute gaps --------------------------------------------

  lemma {:induction false} GapIsDifference(samples: seq<Sample>)
    ensures SumReal(Gap, samples) == SumReal(Probability, samples) - SumReal(Outcome, samples)
  {
    if samples != [] {
      GapIsDifference(samples[..|samples| - 1]);
    }
  }

  lemma QuotientDifference(x: real, y: real, n: real)
    requires n > 0.0
    ensures x / n - y / n == (x - y) / n
  {
  }

  lemma QuotientSum(x: real, y: real, n: real)
    requires n > 0.0
    ensures x / n + y / n == (x + y) / n
  {
  }

  lemma AbsQuotient(x: real, n: real)
    requires n > 0.0
    ensures Abs(x / n) == Abs(x) / n
  {
    if x >= 0.0 {
      assert x / n >= 0.0;
    } else {
      assert x / n < 0.0;
      assert (-x) / n == -(x / n);
    }
  }

  lemma TimesQuotient(x: real, n: real)
    requires n > 0.0
    ensures n * (x / n) == x
  {
  }

  lemma ShareOfQuotient(x: real, n: real, total: real)
    requires n > 0.0 && total > 0.0
    ensures (n / total) * (x / n) == x / total
  {
    var q := x / n;
    assert q * n == x;
    assert (n / total) * q == (n * q) / total;
  }

  /** Size times the gap of means is the gap of sums. */
  lemma MeansGap(bucket: seq<Sample>)
    requires bucket != []
    ensures Abs(Mean(Probability, bucket) - Mean(Outcome, bucket)) == Abs(SumReal(Gap, bucket)) / |bucket| as real
    ensures Abs(Mean(Outcome, bucket) - Mean(Probability, bucket)) == Abs(SumReal(Gap, bucket)) / |bucket| as real
  {
    var p, o, n := SumReal(Probability, bucket), SumReal(Outcome, bucket), |bucket| as real;
    GapIsDifference(bucket);
    QuotientDifference(p, o, n);
    AbsQuotient(p - o, n);
  }

  lemma WeightedGapIs(bucket: seq<Sample>)
    ensures WeightedGap(bucket) == Abs(SumReal(Gap, bucket))
  {
    if bucket != [] {
      MeansGap(bucket);
      TimesQuotient(Abs(SumReal(Gap, bucket)), |bucket| as real);
    }
  }

  lemma TermIs(bucket: seq<Sample>, total: nat)
    requires total > 0
    ensures Term(bucket, total) == WeightedGap(bucket) / total as real
  {
    WeightedGapIs(bucket);
    if bucket != [] {
      MeansGap(bucket);
      ShareOfQuotient(Abs(SumReal(Gap, bucket)), |bucket| as real, total as real);
    }
  }

  /** Dividing bin by bin, as the benchmark does, or once at the end, as the backtest does, is the same. */
  lemma {:induction false} TermsAreWeightedGaps(samples: seq<Sample>, bins: nat, end: nat)
    requires samples != []
    ensures TermsUpTo(samples, bins, end) == WeightedGapsUpTo(samples, bins, end) / |samples| as real
  {
    if end > 0 {
      TermsAreWeightedGaps(samples, bins, end - 1);
      var bucket := Bucket(samples, bins, end - 1);
      TermIs(bucket, |samples|);
      QuotientSum(WeightedGapsUpTo(samples, bins, end - 1), WeightedGap(bucket), |samples| as real);
    }
  }

  /** On probabilities in [0, 1] the backtest's figure with ten bins is the benchmark's, rounded. */
  lemma BacktestAgrees(samples: seq<Sample>, round: real -> real)
    requires InUnit(samples)
    ensures BacktestError(samples, CALIBRATION_BIN_COUNT, round)
            == match ExpectedCalibrationError(samples) case None => None case Some(e) => Some(round(e))
  {
    assert Clamped(samples) == samples;
    if samples != [] {
      TermsAreWeightedGaps(samples, CALIBRATION_BIN_COUNT, CALIBRATION_BIN_COUNT);
    }
  }

  // ---- Bounds --------------------------------------------------------------------------------

  /** A sum over the samples taken bin by bin. */
  function BinSums(f: Sample -> real, samples: seq<Sample>, bins: nat, end: nat): real {
    if end == 0 then 0.0
    else BinSums(f, samples, bins, end - 1) + SumReal(f, Bucket(samples, bins, end - 1))
  }

  lemma {:induction false} BinSumsEmpty(f: Sample -> real, bins: nat, end: nat)
    ensures BinSums(f, [], bins, end) == 0.0
  {
    if end > 0 {
      BinSumsEmpty(f, bins, end - 1);
    }
  }

  lemma {:induction false} BinSumsSnoc(f: Sample -> real, samples: seq<Sample>, s: Sample, bins: nat, end: nat)
    ensures BinSums(f, samples + [s], bins, end)
            == BinSums(f, samples, bins, end) + if 0 <= BinOf(s, bins) < end then f(s) else 0.0
  {
    if end > 0 {
      BinSumsSnoc(f, samples, s, bins, end - 1);
      assert (samples + [s])[..|samples|] == samples;
      var bucket := Bucket(samples, bins, end - 1);
      assert (bucket + [s])[..|bucket|] == bucket;
    }
  }

  /** Every sample lands in exactly one bin, so summing bin by bin is summing. */
  lemma {:induction false} BinsPartition(f: Sample -> real, samples: seq<Sample>, bins: nat)
    requires bins > 0 && NotNegative(samples)
    ensures BinSums(f, samples, bins, bins) == SumReal(f, samples)
  {
    if samples == [] {
      BinSumsEmpty(f, bins, bins);
    } else {
      var init, s := samples[..|samples| - 1], samples[|samples| - 1];
      assert samples == init + [s];
      BinsPartition(f, init, bins);
      BinSumsSnoc(f, init, s, bins, bins);
      BinInRange(s, bins);
    }
  }

  lemma {:induction false} SumWithinAbs(samples: seq<Sample>)
    ensures Abs(SumReal(Gap, samples)) <= SumReal(AbsGap, samples)
  {
    if samples != [] {
      SumWithinAbs(samples[..|samples| - 1]);
    }
  }

  lemma {:induction false} WeightedGapsBetween(samples: seq<Sample>, bins: nat, end: nat)
    ensures Abs(BinSums(Gap, samples, bins, end)) <= WeightedGapsUpTo(samples, bins, end) <= BinSums(AbsGap, samples, bins, end)
  {
    if end > 0 {
      WeightedGapsBetween(samples, bins, end - 1);
      WeightedGapIs(Bucket(samples, bins, end - 1));
      SumWithinAbs(Bucket(samples, bins, end - 1));
    }
  }

  lemma QuotientMonotone(x: real, y: real, n: real)
    requires x <= y && n > 0.0
    ensures x / n <= y / n
  {
  }

  /**
   The calibration error lies between the gap of the overall means and the mean absolute error of the
   individual predictions.
   */
  lemma ErrorBetween(samples: seq<Sample>)
    requires NotNegative(samples) && samples != []
    ensures var e := ExpectedCalibrationError(samples).value;
            Abs(Mean(Probability, samples) - Mean(Outcome, samples)) <= e <= Mean(AbsGap, samples)
  {
    var bins, n := CALIBRATION_BIN_COUNT, |samples| as real;
    TermsAreWeightedGaps(samples, bins, bins);
    WeightedGapsBetween(samples, bins, bins);
    BinsPartition(Gap, samples, bins);
    BinsPartition(AbsGap, samples, bins);
    MeansGap(samples);
    var w := WeightedGapsUpTo(samples, bins, bins);
    QuotientMonotone(Abs(SumReal(Gap, samples)), w, n);
    QuotientMonotone(w, SumReal(AbsGap, samples), n);
  }
}
