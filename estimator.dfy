// The ML data-readiness estimator: sample-size thresholds, the
// class-balance and feature-quality scores, the clamped accuracy
// estimate, the collection forecast, the recommendation list and the
// assembly of the readiness report. Rows, the feature-coverage table,
// the recency score and the values of log10 and sqrt are inputs.
module Estimator {
  import opened Wrappers
  import opened Lists
  import opened Text

  /** Python's `int(x)` on a float: truncation toward zero. */
  function Trunc(x: real): (i: int)
    ensures x >= 0.0 ==> i as real <= x < i as real + 1.0
    ensures x < 0.0 ==> i as real - 1.0 < x <= i as real
  {
    if x >= 0.0 then x.Floor else -((-x).Floor)
  }

  /** `math.ceil`. */
  function Ceil(x: real): (c: int)
    ensures c as real >= x && (c - 1) as real < x
  {
    -((-x).Floor)
  }

  lemma TruncMono(x: real, y: real)
    requires 0.0 <= x <= y
    ensures Trunc(x) <= Trunc(y)
  {
  }

  // ---------------------------------------------------------------
  // Sample sizes
  // ---------------------------------------------------------------

  datatype SampleSizes = SampleSizes(minimum: int, recommended: int, optimal: int, perFeature: int, effectSize: real, power: real)

  /** `max(base_n, n_features * 15) * 1.4` with `base_n = 2 * ((z_alpha + z_power) / effect_size) ** 2`. */
  function AdjustedSize(effectSize: real, power: real, alpha: real, nFeatures: int): (n: real)
    requires effectSize != 0.0
    ensures n >= 0.0
  {
    var zAlpha := if alpha == 0.05 then 1.96 else 2.58;
    var zPower := if power == 0.80 then 0.84 else 1.28;
    var q := (zAlpha + zPower) / effectSize;
    var baseN := 2.0 * (q * q);
    var featureN := nFeatures as real * 15.0;
    (if baseN >= featureN then baseN else featureN) * 1.4
  }

  /**
   * `estimate_required_sample_size`: the floors 100, 500 and 1000 always
   * hold and the three thresholds are ordered; a zero effect size is the
   * ZeroDivisionError.
   */
  function RequiredSampleSize(effectSize: real, power: real, alpha: real, nFeatures: int): (r: Option<SampleSizes>)
    ensures r.None? <==> effectSize == 0.0
    ensures r.Some? ==>
      && 100 <= r.value.minimum <= r.value.recommended <= r.value.optimal
      && r.value.recommended >= 500 && r.value.optimal >= 1000
      && r.value.perFeature == 15
  {
    if effectSize == 0.0 then None
    else
      var n := AdjustedSize(effectSize, power, alpha, nFeatures);
      TruncMono(n * 0.5, n);
      TruncMono(n, n * 2.0);
      Some(SampleSizes(
        Max(100, Trunc(n * 0.5)), Max(500, Trunc(n)), Max(1000, Trunc(n * 2.0)), 15, effectSize, power))
  }

  function Max(a: int, b: int): int { if a >= b then a else b }

  /** With the defaults used by the readiness assessment the thresholds are 178, 500 and 1000. */
  lemma DefaultSampleSizes()
    ensures RequiredSampleSize(0.3, 0.80, 0.05, 17) == Some(SampleSizes(178, 500, 1000, 15, 0.3, 0.80))
  {
    var q := (1.96 + 0.84) / 0.3;
    assert q * q == 784.0 / 9.0;
    assert AdjustedSize(0.3, 0.80, 0.05, 17) == 357.0;
    assert Trunc(178.5) == 178;
    assert Trunc(357.0) == 357;
    assert Trunc(714.0) == 714;
  }

  // ---------------------------------------------------------------
  // Class balance
  // ---------------------------------------------------------------

  datatype Balance = Balance(score: int, name: string)

  /**
   * The balance bands of a failure rate: each lower score admits a wider
   * interval around the ideal 15-35 %.
   */
  function BalanceOfRate(rate: real): (b: Balance)
    ensures b.score in {20, 40, 60, 80, 100}
    ensures b.score == 100 <==> 0.15 <= rate <= 0.35
    ensures b.score >= 80 <==> 0.10 <= rate <= 0.45
    ensures b.score >= 60 <==> 0.05 <= rate <= 0.55
    ensures b.score >= 40 <==> 0.02 <= rate <= 0.70
  {
    if 0.15 <= rate <= 0.35 then Balance(100, "Excellent")
    else if 0.10 <= rate < 0.15 || 0.35 < rate <= 0.45 then Balance(80, "Good")
    else if 0.05 <= rate < 0.10 || 0.45 < rate <= 0.55 then Balance(60, "Acceptable")
    else if 0.02 <= rate < 0.05 || 0.55 < rate <= 0.70 then Balance(40, "Poor")
    else Balance(20, "Critical")
  }

  /** `compute_class_balance_score`: no jobs gives (0, "No data"), otherwise the band of the failure rate. */
  function ClassBalanceScore(nSuccess: nat, nFailure: nat): (b: Balance)
    ensures nSuccess + nFailure == 0 ==> b == Balance(0, "No data")
  {
    var total := nSuccess + nFailure;
    if total == 0 then Balance(0, "No data")
    else BalanceOfRate(nFailure as real / total as real)
  }

  /**
   * Only the failure rate matters: two job populations with the same
   * failure rate (f1 / t1 == f2 / t2, written without division) get the
   * same score.
   */
  lemma BalanceByRate(s1: nat, f1: nat, s2: nat, f2: nat)
    requires s1 + f1 > 0 && s2 + f2 > 0
    requires f1 * (s2 + f2) == f2 * (s1 + f1)
    ensures ClassBalanceScore(s1, f1) == ClassBalanceScore(s2, f2)
  {
    var t1, t2 := (s1 + f1) as real, (s2 + f2) as real;
    var a, b := f1 as real, f2 as real;
    assert a * t2 == b * t1 by {
      assert (f1 * (s2 + f2)) as real == a * t2;
      assert (f2 * (s1 + f1)) as real == b * t1;
    }
    SameRatio(a, t1, b, t2);
  }

  lemma SameRatio(a: real, t1: real, b: real, t2: real)
    requires t1 > 0.0 && t2 > 0.0 && a * t2 == b * t1
    ensures a / t1 == b / t2
  {
    var q1, q2 := a / t1, b / t2;
    assert q1 * t1 == a && q2 * t2 == b;
    assert q1 * t1 * t2 == q2 * t2 * t1;
    assert (q1 - q2) * (t1 * t2) == 0.0;
  }

  // ---------------------------------------------------------------
  // Feature quality
  // ---------------------------------------------------------------

  /** One feature's entry of the coverage table. */
  datatype CoverageStats = CoverageStats(nPresent: nat, pctCoverage: real, mean: real, std: real, cv: real, hasVariance: bool)

  type Coverage = seq<(string, CoverageStats)>

  const CriticalFeatures: seq<string> := ["runtime_sec", "avg_cpu_percent", "avg_memory_gb", "nfs_ratio", "exit_code"]

  /** Critical features weigh 2, every other feature 1. */
  function Weight(feature: string): (w: real)
    ensures w == 2.0 <==> feature in CriticalFeatures
    ensures w == 1.0 <==> feature !in CriticalFeatures
  {
    if feature in CriticalFeatures then 2.0 else 1.0
  }

  function CoverageScore(pct: real): real
  {
    if pct >= 90.0 then 100.0 else if pct >= 70.0 then 80.0 else if pct >= 50.0 then 60.0 else 40.0
  }

  /** A feature's unweighted score: 60 % coverage band, 40 % variance. */
  function FeatureQuality(stats: CoverageStats): (q: real)
    ensures 44.0 <= q <= 100.0
  {
    CoverageScore(stats.pctCoverage) * 0.6 + (if stats.hasVariance then 100.0 else 50.0) * 0.4
  }

  function WeightedSum(cov: Coverage): real
  {
    if |cov| == 0 then 0.0
    else
      var last := cov[|cov| - 1];
      WeightedSum(cov[..|cov| - 1]) + FeatureQuality(last.1) * Weight(last.0)
  }

  function TotalWeight(cov: Coverage): real
  {
    if |cov| == 0 then 0.0 else TotalWeight(cov[..|cov| - 1]) + Weight(cov[|cov| - 1].0)
  }

  /** `compute_feature_score`'s value: the weighted mean of the feature scores, truncated. */
  function FeatureScoreOf(cov: Coverage): int
  {
    if |cov| == 0 then 0
    else
      WeightsPositive(cov);
      Trunc(WeightedSum(cov) / TotalWeight(cov))
  }

  lemma {:induction false} WeightsPositive(cov: Coverage)
    ensures |cov| > 0 ==> TotalWeight(cov) >= 1.0
    ensures TotalWeight(cov) >= 0.0
  {
    if |cov| > 0 {
      WeightsPositive(cov[..|cov| - 1]);
    }
  }

  lemma {:induction false} WeightedSumBounds(cov: Coverage)
    ensures 44.0 * TotalWeight(cov) <= WeightedSum(cov) <= 100.0 * TotalWeight(cov)
  {
    if |cov| > 0 {
      var last := cov[|cov| - 1];
      WeightedSumBounds(cov[..|cov| - 1]);
      var q, w := FeatureQuality(last.1), Weight(last.0);
      assert 44.0 * w <= q * w <= 100.0 * w;
    }
  }

  /** No features score 0; otherwise the score lies between 44 and 100. */
  lemma FeatureScoreBounds(cov: Coverage)
    ensures |cov| == 0 ==> FeatureScoreOf(cov) == 0
    ensures |cov| > 0 ==> 44 <= FeatureScoreOf(cov) <= 100
  {
    if |cov| > 0 {
      WeightsPositive(cov);
      WeightedSumBounds(cov);
      MeanBounds(WeightedSum(cov), TotalWeight(cov), 44.0, 100.0);
    }
  }

  /** The scores with each critical feature listed twice. */
  function Doubled(cov: Coverage): seq<real>
  {
    if |cov| == 0 then []
    else
      var last := cov[|cov| - 1];
      var q := FeatureQuality(last.1);
      Doubled(cov[..|cov| - 1]) + (if last.0 in CriticalFeatures then [q, q] else [q])
  }

  lemma {:induction false} DoubledSums(cov: Coverage)
    ensures Sum(Doubled(cov)) == WeightedSum(cov)
    ensures |Doubled(cov)| as real == TotalWeight(cov)
  {
    if |cov| > 0 {
      var init, last := cov[..|cov| - 1], cov[|cov| - 1];
      DoubledSums(init);
      var q := FeatureQuality(last.1);
      var more := if last.0 in CriticalFeatures then [q, q] else [q];
      SumConcat(Doubled(init), more);
      assert Sum([q]) == q by {
        assert [q][..0] == [];
      }
      if last.0 in CriticalFeatures {
        assert Sum([q, q]) == q + q by {
          assert [q, q][..1] == [q];
        }
      }
    }
  }

  lemma {:induction false} SumConcat(a: seq<real>, b: seq<real>)
    ensures Sum(a + b) == Sum(a) + Sum(b)
  {
    if |b| > 0 {
      assert (a + b)[..|a + b| - 1] == a + b[..|b| - 1];
      SumConcat(a, b[..|b| - 1]);
    } else {
      assert a + b == a;
    }
  }

  /**
   * Weighing a critical feature 2 is counting it twice: the score is the
   * plain mean of the feature scores with the critical ones repeated.
   */
  lemma FeatureScoreIsDoubledMean(cov: Coverage)
    requires |cov| > 0
    ensures FeatureScoreOf(cov) == Trunc(Mean(Doubled(cov)))
  {
    DoubledSums(cov);
  }

  /** The scoring loop of `compute_feature_score`; its issue list stays empty. */
  method ComputeFeatureScore(coverage: Coverage) returns (score: int, issues: seq<string>)
    ensures score == FeatureScoreOf(coverage)
    ensures issues == []
  {
    issues := [];
    var sum := 0.0;
    var i := 0;
    while i < |coverage|
      invariant 0 <= i <= |coverage|
      invariant sum == WeightedSum(coverage[..i])
    {
      assert coverage[..i + 1][..i] == coverage[..i];
      var (feature, stats) := coverage[i];
      sum := sum + FeatureQuality(stats) * Weight(feature);
      i := i + 1;
    }
    assert coverage[..i] == coverage;
    if |coverage| > 0 {
      var total := TotalWeightLoop(coverage);
      WeightsPositive(coverage);
      score := Trunc(sum / total);
    } else {
      score := 0;
    }
  }

  /** `sum(2.0 if f in critical_features else 1.0 for f in coverage.keys())`. */
  method TotalWeightLoop(coverage: Coverage) returns (total: real)
    ensures total == TotalWeight(coverage)
  {
    total := 0.0;
    var i := 0;
    while i < |coverage|
      invariant 0 <= i <= |coverage|
      invariant total == TotalWeight(coverage[..i])
    {
      assert coverage[..i + 1][..i] == coverage[..i];
      total := total + Weight(coverage[i].0);
      i := i + 1;
    }
    assert coverage[..i] == coverage;
  }

  // ---------------------------------------------------------------
  // Accuracy estimate
  // ---------------------------------------------------------------

  datatype Accuracy = Accuracy(estimated: real, lower: real, upper: real)

  /** The uncorrected accuracy for `n` jobs, with `logN` standing for `log10(max(1, n))`. */
  function BaseAccuracy(nJobs: int, logN: real): real
  {
    if nJobs < 50 then 0.50 + 0.10 * logN
    else if nJobs < 500 then 0.60 + 0.05 * logN
    else 0.70 + 0.03 * logN
  }

  function Clamp(lo: real, hi: real, x: real): real
  {
    if x < lo then lo else if x > hi then hi else x
  }

  /**
   * `estimate_accuracy` before rounding; `rootN` stands for
   * `sqrt(max(1, n / 100))`, which is at least 1. The estimate is clamped
   * to [0.50, 0.95] and the interval, clamped to [0.40, 0.99], contains it.
   */
  function EstimateAccuracy(nJobs: int, balanceScore: int, featureScore: int, logN: real, rootN: real): (a: Accuracy)
    requires rootN >= 1.0
    ensures 0.50 <= a.estimated <= 0.95
    ensures a.lower >= 0.40 && a.upper <= 0.99
    ensures a.lower <= a.estimated <= a.upper
    ensures a.upper - a.lower <= 0.40
  {
    var adjusted := BaseAccuracy(nJobs, logN) + (balanceScore - 50) as real / 500.0 + (featureScore - 50) as real / 1000.0;
    var est := Clamp(0.50, 0.95, adjusted);
    var width := 0.20 / rootN;
    assert 0.0 < width <= 0.20 by {
      assert width * rootN == 0.20;
    }
    Accuracy(est, if est - width > 0.40 then est - width else 0.40, if est + width < 0.99 then est + width else 0.99)
  }

  /** A better balance score never lowers the estimate. */
  lemma AccuracyMonotoneInBalance(nJobs: int, b1: int, b2: int, featureScore: int, logN: real, rootN: real)
    requires rootN >= 1.0 && b1 <= b2
    ensures EstimateAccuracy(nJobs, b1, featureScore, logN, rootN).estimated <= EstimateAccuracy(nJobs, b2, featureScore, logN, rootN).estimated
  {
    assert (b1 - 50) as real / 500.0 <= (b2 - 50) as real / 500.0;
  }

  // ---------------------------------------------------------------
  // The readiness report
  // ---------------------------------------------------------------

  datatype Status = Insufficient | Minimum | Recommended | Optimal
  {
    function Text(): string
    {
      match this
      case Insufficient => "insufficient"
      case Minimum => "minimum"
      case Recommended => "recommended"
      case Optimal => "optimal"
    }
  }

  datatype Report = Report(
    totalJobs: nat, successJobs: int, failureJobs: nat,
    sampleScore: int, balanceScore: int, featureScore: int, recencyScore: int, overallScore: int,
    minimumJobs: int, recommendedJobs: int, optimalJobs: int,
    status: Status, readyForTraining: bool, accuracy: Accuracy)

  /** The readiness predicate of `assess_readiness`. */
  predicate Ready(total: int, minimum: int, failures: int, balanceScore: int)
  {
    total >= minimum && failures >= 10 && balanceScore >= 40
  }

  // ---------------------------------------------------------------
  // Recommendations
  // ---------------------------------------------------------------

  datatype Marker = Warning | Advice | Hint | Done | Pending
  {
    function Text(): string
    {
      match this
      case Warning => "[!]"
      case Advice => "[*]"
      case Hint => "[i]"
      case Done => "[ok]"
      case Pending => "[..]"
    }
  }

  /** Only the "[ok]" marker makes a text start with "[ok]". */
  lemma MarkerPrefix(m: Marker, rest: string)
    ensures StartsWith(m.Text() + rest, "[ok]") <==> m == Done
  {
    var t := m.Text();
    if m == Done {
      assert (t + rest)[..4] == t;
    } else {
      assert t[1] != 'o';
      assert |t + rest| >= 4 ==> (t + rest)[..4][1] == t[1];
    }
  }

  datatype Rec =
    | CollectForMinimum(needed: int)
    | CollectForRecommended(needed: int)
    | CollectForOptimal(needed: int)
    | NoFailureData
    | UseClassWeights
    | LowFeatureCoverage
    | StaleData
    | ReadyToTrain
    | KeepCollecting
  {
    /** The bracketed marker that opens the message. */
    function Marker(): Marker
    {
      match this
      case CollectForMinimum(_) => Warning
      case CollectForRecommended(_) => Advice
      case CollectForOptimal(_) => Hint
      case NoFailureData => Warning
      case UseClassWeights => Advice
      case LowFeatureCoverage => Advice
      case StaleData => Advice
      case ReadyToTrain => Done
      case KeepCollecting => Pending
    }

    function Message(): string
    {
      match this
      case CollectForMinimum(n) => "Collect " + IntToString(n) + " more jobs to reach minimum viable sample size"
      case CollectForRecommended(n) => "Collect " + IntToString(n) + " more jobs for recommended sample size"
      case CollectForOptimal(n) => "Collect " + IntToString(n) + " more jobs for optimal prediction accuracy"
      case NoFailureData => "No failure data - predictions will be unreliable"
      case UseClassWeights => "Very few failures - consider using class weights during training"
      case LowFeatureCoverage => "Feature coverage is low - ensure job_summary data is being collected"
      case StaleData => "Data is stale - recent patterns may differ from historical data"
      case ReadyToTrain => "Data is ready for ML training - run: nomad train"
      case KeepCollecting => "Continue collecting data before training ML models"
    }

    function Text(): string
    {
      Marker().Text() + (" " + Message())
    }
  }

  predicate IsSampleSizeRec(x: Rec)
  {
    x.CollectForMinimum? || x.CollectForRecommended? || x.CollectForOptimal?
  }

  /** The message about the sample size, for the first threshold not yet reached. */
  function SampleRecs(r: Report): seq<Rec>
  {
    if r.totalJobs < r.minimumJobs then [CollectForMinimum(r.minimumJobs - r.totalJobs)]
    else if r.totalJobs < r.recommendedJobs then [CollectForRecommended(r.recommendedJobs - r.totalJobs)]
    else if r.totalJobs < r.optimalJobs then [CollectForOptimal(r.optimalJobs - r.totalJobs)]
    else []
  }

  function FailureRate(r: Report): real
  {
    if r.totalJobs > 0 then r.failureJobs as real / r.totalJobs as real else 0.0
  }

  function FailureRecs(r: Report): seq<Rec>
  {
    if r.failureJobs == 0 then [NoFailureData]
    else if r.balanceScore < 40 && FailureRate(r) < 0.05 then [UseClassWeights]
    else []
  }

  function Closing(r: Report): Rec
  {
    if r.readyForTraining then ReadyToTrain else KeepCollecting
  }

  function FeatureRecs(r: Report): seq<Rec>
  {
    if r.featureScore < 60 then [LowFeatureCoverage] else []
  }

  function RecencyRecs(r: Report): seq<Rec>
  {
    if r.recencyScore < 60 then [StaleData] else []
  }

  /** The advice before the closing verdict. */
  function Findings(r: Report): seq<Rec>
  {
    SampleRecs(r) + FailureRecs(r) + FeatureRecs(r) + RecencyRecs(r)
  }

  /** `generate_recommendations`. */
  function Recommendations(r: Report): seq<Rec>
  {
    Findings(r) + [Closing(r)]
  }

  method GenerateRecommendations(r: Report) returns (recs: seq<Rec>)
    ensures recs == Recommendations(r)
  {
    recs := [];
    if r.totalJobs < r.minimumJobs {
      recs := recs + [CollectForMinimum(r.minimumJobs - r.totalJobs)];
    } else if r.totalJobs < r.recommendedJobs {
      recs := recs + [CollectForRecommended(r.recommendedJobs - r.totalJobs)];
    } else if r.totalJobs < r.optimalJobs {
      recs := recs + [CollectForOptimal(r.optimalJobs - r.totalJobs)];
    }
    assert recs == SampleRecs(r);
    if r.failureJobs == 0 {
      recs := recs + [NoFailureData];
    } else if r.balanceScore < 40 {
      var failureRate := if r.totalJobs > 0 then r.failureJobs as real / r.totalJobs as real else 0.0;
      if failureRate < 0.05 {
        recs := recs + [UseClassWeights];
      }
    }
    assert recs == SampleRecs(r) + FailureRecs(r);
    if r.featureScore < 60 {
      recs := recs + [LowFeatureCoverage];
    }
    assert recs == SampleRecs(r) + FailureRecs(r) + FeatureRecs(r);
    if r.recencyScore < 60 {
      recs := recs + [StaleData];
    }
    assert recs == Findings(r);
    if r.readyForTraining {
      recs := recs + [ReadyToTrain];
    } else {
      recs := recs + [KeepCollecting];
    }
  }

  /** Only the closing message starts with "[ok]"; every other one starts otherwise. */
  lemma OkPrefix(x: Rec)
    ensures StartsWith(x.Text(), "[ok]") <==> x == ReadyToTrain
  {
    var m, rest := x.Marker(), " " + x.Message();
    assert x.Text() == m.Text() + rest;
    MarkerPrefix(m, rest);
    MarkerDone(x);
  }

  lemma MarkerDone(x: Rec)
    ensures x.Marker() == Done <==> x == ReadyToTrain
  {
  }

  lemma CountSampleRecs(r: Report)
    ensures CountIf(SampleRecs(r), IsSampleSizeRec) == (if r.totalJobs < r.optimalJobs || r.totalJobs < r.recommendedJobs || r.totalJobs < r.minimumJobs then 1 else 0)
    ensures CountIf(FailureRecs(r), IsSampleSizeRec) == 0
    ensures CountIf(FeatureRecs(r), IsSampleSizeRec) == 0
    ensures CountIf(RecencyRecs(r), IsSampleSizeRec) == 0
    ensures CountIf([Closing(r)], IsSampleSizeRec) == 0
  {
    assert forall x: Rec :: CountIf([x], IsSampleSizeRec) == (if IsSampleSizeRec(x) then 1 else 0) by {
      forall x: Rec ensures CountIf([x], IsSampleSizeRec) == (if IsSampleSizeRec(x) then 1 else 0) {
        assert [x][..0] == [];
      }
    }
  }

  /**
   * At most one sample-size message, present exactly while the optimal
   * threshold is not reached.
   */
  lemma RecommendationsSampleCount(r: Report)
    requires r.minimumJobs <= r.recommendedJobs <= r.optimalJobs
    ensures CountIf(Recommendations(r), IsSampleSizeRec) <= 1
    ensures CountIf(Recommendations(r), IsSampleSizeRec) == 1 <==> r.totalJobs < r.optimalJobs
  {
    var s, f, g, h := SampleRecs(r), FailureRecs(r), FeatureRecs(r), RecencyRecs(r);
    CountSampleRecs(r);
    CountIfConcat(s, f, IsSampleSizeRec);
    CountIfConcat(s + f, g, IsSampleSizeRec);
    CountIfConcat(s + f + g, h, IsSampleSizeRec);
    CountIfConcat(Findings(r), [Closing(r)], IsSampleSizeRec);
  }

  /** The list closes with the readiness verdict, whose text starts with "[ok]" exactly when the data is ready. */
  lemma RecommendationsClose(r: Report)
    ensures |Recommendations(r)| >= 1
    ensures Recommendations(r)[|Recommendations(r)| - 1] == Closing(r)
    ensures StartsWith(Closing(r).Text(), "[ok]") <==> r.readyForTraining
  {
    var c := Closing(r);
    assert c.Text() == c.Marker().Text() + (" " + c.Message());
    MarkerPrefix(c.Marker(), " " + c.Message());
  }

  /** The missing-failures warning appears exactly when no job failed. */
  lemma RecommendationsNoFailures(r: Report)
    ensures NoFailureData in Recommendations(r) <==> r.failureJobs == 0
  {
    assert NoFailureData !in SampleRecs(r) + FeatureRecs(r) + RecencyRecs(r) + [Closing(r)];
  }

  // ---------------------------------------------------------------
  // The collection forecast
  // ---------------------------------------------------------------

  /** A job's time stamp: absent (or empty), present but unparseable, or an instant in seconds. */
  datatype When = Absent | Unreadable | At(instant: int)

  datatype JobRecord = JobRecord(state: Option<string>, endTime: When, submitTime: When)

  /** `job.get('end_time') or job.get('submit_time')`. */
  function Stamp(j: JobRecord): When
  {
    if j.endTime != Absent then j.endTime else j.submitTime
  }

  predicate IsFailure(j: JobRecord)
  {
    j.state.Some? && j.state.value in {"FAILED", "TIMEOUT", "OUT_OF_MEMORY", "CANCELLED"}
  }

  /** The instants of the dated jobs, in job order. */
  function Dates(jobs: seq<JobRecord>): seq<int>
  {
    if |jobs| == 0 then []
    else
      var last := jobs[|jobs| - 1];
      Dates(jobs[..|jobs| - 1]) + (if Stamp(last).At? then [Stamp(last).instant] else [])
  }

  /** The instants of the dated failed jobs. */
  function FailureDates(jobs: seq<JobRecord>): seq<int>
  {
    if |jobs| == 0 then []
    else
      var last := jobs[|jobs| - 1];
      FailureDates(jobs[..|jobs| - 1]) + (if Stamp(last).At? && IsFailure(last) then [Stamp(last).instant] else [])
  }

  function MinOf(xs: seq<int>): (m: int)
    requires |xs| > 0
    ensures m in xs && forall k :: 0 <= k < |xs| ==> m <= xs[k]
  {
    if |xs| == 1 then xs[0]
    else
      var m := MinOf(xs[..|xs| - 1]);
      assert forall k :: 0 <= k < |xs| - 1 ==> xs[..|xs| - 1][k] == xs[k];
      if xs[|xs| - 1] < m then xs[|xs| - 1] else m
  }

  function MaxOf(xs: seq<int>): (m: int)
    requires |xs| > 0
    ensures m in xs && forall k :: 0 <= k < |xs| ==> xs[k] <= m
  {
    if |xs| == 1 then xs[0]
    else
      var m := MaxOf(xs[..|xs| - 1]);
      assert forall k :: 0 <= k < |xs| - 1 ==> xs[..|xs| - 1][k] == xs[k];
      if xs[|xs| - 1] > m then xs[|xs| - 1] else m
  }

  /** `max(1, (newest - oldest).days)`: whole days between the extreme dates, at least one. */
  function RangeDays(dates: seq<int>): (d: int)
    requires |dates| > 0
    ensures d >= 1
    ensures d == 1 || (d * 86400 <= MaxOf(dates) - MinOf(dates) < (d + 1) * 86400)
  {
    var days := (MaxOf(dates) - MinOf(dates)) / 86400;
    if days >= 1 then days else 1
  }

  /**
   * `math.ceil(missing / rate)` when something is missing, else 0: the
   * least whole number of days in which `rate` per day covers `missing`.
   */
  function DaysToReach(missing: int, rate: real): (d: int)
    requires rate > 0.0
    ensures missing <= 0 ==> d == 0
    ensures missing > 0 ==> d >= 1
  {
    if missing > 0 then
      var q := missing as real / rate;
      var c := Ceil(q);
      CeilTimes(q, rate, missing as real, c);
      c
    else 0
  }

  /** Covering `missing` jobs takes `DaysToReach` days at `rate`, and one day fewer does not suffice. */
  lemma DaysToReachLeast(missing: int, rate: real)
    requires rate > 0.0 && missing > 0
    ensures var d := DaysToReach(missing, rate);
      d as real * rate >= missing as real && (d - 1) as real * rate < missing as real
  {
    var q := missing as real / rate;
    CeilTimes(q, rate, missing as real, Ceil(q));
  }

  lemma CeilTimes(q: real, rate: real, m: real, c: int)
    requires rate > 0.0 && q == m / rate && m > 0.0 && c as real >= q && (c - 1) as real < q
    ensures c >= 1 && c as real * rate >= m && (c - 1) as real * rate < m
  {
    assert q * rate == m;
    assert q > 0.0;
    MulLe(q, c as real, rate);
    MulLt((c - 1) as real, q, rate);
  }

  lemma MulLe(a: real, b: real, r: real)
    requires a <= b && r > 0.0
    ensures a * r <= b * r
  {
  }

  lemma MulLt(a: real, b: real, r: real)
    requires a < b && r > 0.0
    ensures a * r < b * r
  {
  }

  /** `days_to_balance`: days until the minimum failure count is reached, -1 when no failures arrive, 0 when none are needed. */
  function DaysToBalance(minimumJobs: int, failureJobs: int, failureRate: real): (d: int)
    ensures var needed := FailuresNeeded(minimumJobs, failureJobs);
      && (needed > 0 && failureRate > 0.0 ==> d == DaysToReach(needed, failureRate))
      && (needed > 0 && failureRate == 0.0 ==> d == -1)
      && (needed <= 0 ==> d == 0)
  {
    var needed := FailuresNeeded(minimumJobs, failureJobs);
    if needed > 0 && failureRate > 0.0 then DaysToReach(needed, failureRate)
    else if needed > 0 && failureRate == 0.0 then -1
    else 0
  }

  /** `max(0, max(10, int(minimum_jobs * 0.05)) - failures)`. */
  function FailuresNeeded(minimumJobs: int, failureJobs: int): (n: int)
    ensures n >= 0
    ensures n == 0 <==> failureJobs >= Max(10, Trunc(minimumJobs as real * 0.05))
  {
    var target := Max(10, Trunc(minimumJobs as real * 0.05));
    if target - failureJobs > 0 then target - failureJobs else 0
  }

  datatype Factor = NoDataYet | TooFewDates | SampleSize | ClassBalance | FeatureCoverage | DataRecency
  {
    function Text(): string
    {
      match this
      case NoDataYet => "No data collected yet"
      case TooFewDates => "Not enough data to estimate collection rate"
      case SampleSize => "sample_size"
      case ClassBalance => "class_balance"
      case FeatureCoverage => "feature_coverage"
      case DataRecency => "data_recency"
    }
  }

  /** The first unmet requirement, in priority order. */
  function LimitingFactor(r: Report): (f: Option<Factor>)
    ensures f == Some(SampleSize) <==> r.totalJobs < r.minimumJobs
    ensures f == Some(ClassBalance) <==> r.totalJobs >= r.minimumJobs && r.balanceScore < 40
    ensures f == Some(FeatureCoverage) <==> r.totalJobs >= r.minimumJobs && r.balanceScore >= 40 && r.featureScore < 60
    ensures f == Some(DataRecency) <==>
      && r.totalJobs >= r.minimumJobs && r.balanceScore >= 40 && r.featureScore >= 60
      && r.recencyScore < 40
    ensures f.None? <==>
      && r.totalJobs >= r.minimumJobs && r.balanceScore >= 40 && r.featureScore >= 60
      && r.recencyScore >= 40
  {
    if r.totalJobs < r.minimumJobs then Some(SampleSize)
    else if r.balanceScore < 40 then Some(ClassBalance)
    else if r.featureScore < 60 then Some(FeatureCoverage)
    else if r.recencyScore < 40 then Some(DataRecency)
    else None
  }

  datatype Confidence = Low | Medium | High

  function ConfidenceOf(rangeDays: int, nDates: int): (c: Confidence)
    ensures c == High <==> rangeDays >= 14 && nDates >= 100
    ensures c == Medium <==> !(rangeDays >= 14 && nDates >= 100) && rangeDays >= 7 && nDates >= 50
  {
    if rangeDays >= 14 && nDates >= 100 then High
    else if rangeDays >= 7 && nDates >= 50 then Medium
    else Low
  }

  datatype TimeEstimate = TimeEstimate(
    collectionRate: real, failureRate: real,
    daysToMinimum: int, daysToRecommended: int, daysToOptimal: int,
    daysToBalance: Option<int>, limitingFactor: Option<Factor>, confidence: Confidence)

  /** The forecast returned early, with only the limiting factor filled in. */
  function Early(f: Factor): TimeEstimate
  {
    TimeEstimate(0.0, 0.0, 0, 0, 0, None, Some(f), Low)
  }

  /** `count / days`: a rate per day, positive exactly when something was counted. */
  function PerDay(count: nat, days: int): (rate: real)
    requires days >= 1
    ensures rate >= 0.0 && (rate == 0.0 <==> count == 0)
  {
    var q := count as real / days as real;
    assert q * days as real == count as real;
    q
  }

  lemma PerDayTimes(count: nat, days: int)
    requires days >= 1
    ensures PerDay(count, days) * days as real == count as real
  {
  }

  /** The forecast from at least two dated jobs, `nFailures` of them failed. */
  function Forecast(r: Report, dates: seq<int>, nFailures: nat): TimeEstimate
    requires |dates| >= 2
  {
    var range := RangeDays(dates);
    var rate := PerDay(|dates|, range);
    var failureRate := if nFailures > 0 then PerDay(nFailures, range) else 0.0;
    TimeEstimate(
      rate, failureRate,
      DaysToReach(r.minimumJobs - r.totalJobs, rate),
      DaysToReach(r.recommendedJobs - r.totalJobs, rate),
      DaysToReach(r.optimalJobs - r.totalJobs, rate),
      Some(DaysToBalance(r.minimumJobs, r.failureJobs, failureRate)),
      LimitingFactor(r),
      ConfidenceOf(range, |dates|))
  }

  /** `estimate_time_to_readiness` before rounding. */
  function TimeToReadiness(r: Report, jobs: seq<JobRecord>): TimeEstimate
  {
    if |jobs| == 0 then Early(NoDataYet)
    else
      var dates := Dates(jobs);
      if |dates| < 2 then Early(TooFewDates)
      else Forecast(r, dates, |FailureDates(jobs)|)
  }

  /** No jobs, or fewer than two dated ones, stop early with zero day counts and low confidence. */
  lemma ForecastEarly(r: Report, jobs: seq<JobRecord>)
    requires |Dates(jobs)| < 2
    ensures var e := TimeToReadiness(r, jobs);
      && e.daysToMinimum == 0 && e.daysToRecommended == 0 && e.daysToOptimal == 0
      && e.collectionRate == 0.0 && e.daysToBalance.None? && e.confidence == Low
      && e.limitingFactor == Some(if |jobs| == 0 then NoDataYet else TooFewDates)
  {
  }

  /** From two dated jobs on, the estimate is the forecast from their instants. */
  lemma ForecastFromDates(r: Report, jobs: seq<JobRecord>)
    requires |Dates(jobs)| >= 2
    ensures TimeToReadiness(r, jobs) == Forecast(r, Dates(jobs), |FailureDates(jobs)|)
  {
    assert |jobs| > 0;
  }

  /** Each day count is the least number of days at the collection rate that makes up the jobs still missing. */
  lemma ForecastDays(r: Report, dates: seq<int>, nFailures: nat)
    requires |dates| >= 2
    ensures var e := Forecast(r, dates, nFailures);
      && e.collectionRate > 0.0
      && LeastDays(r.totalJobs, r.minimumJobs, e.collectionRate, e.daysToMinimum)
      && LeastDays(r.totalJobs, r.recommendedJobs, e.collectionRate, e.daysToRecommended)
      && LeastDays(r.totalJobs, r.optimalJobs, e.collectionRate, e.daysToOptimal)
  {
    var e := Forecast(r, dates, nFailures);
    ForecastFields(r, dates, nFailures);
    LeastDaysOf(r.totalJobs, r.minimumJobs, e.collectionRate);
    LeastDaysOf(r.totalJobs, r.recommendedJobs, e.collectionRate);
    LeastDaysOf(r.totalJobs, r.optimalJobs, e.collectionRate);
  }

  lemma ForecastFields(r: Report, dates: seq<int>, nFailures: nat)
    requires |dates| >= 2
    ensures var e := Forecast(r, dates, nFailures);
      && e.collectionRate == PerDay(|dates|, RangeDays(dates))
      && e.failureRate == PerDay(nFailures, RangeDays(dates))
      && e.daysToMinimum == DaysToReach(r.minimumJobs - r.totalJobs, e.collectionRate)
      && e.daysToRecommended == DaysToReach(r.recommendedJobs - r.totalJobs, e.collectionRate)
      && e.daysToOptimal == DaysToReach(r.optimalJobs - r.totalJobs, e.collectionRate)
  {
  }

  /** `d` is the least whole number of days after which `have` plus `rate` per day reaches `goal`. */
  predicate LeastDays(have: int, goal: int, rate: real, d: int)
  {
    && d >= 0
    && have as real + d as real * rate >= goal as real
    && (d > 0 ==> have as real + (d - 1) as real * rate < goal as real)
  }

  lemma LeastDaysOf(have: int, goal: int, rate: real)
    requires rate > 0.0
    ensures LeastDays(have, goal, rate, DaysToReach(goal - have, rate))
  {
    if goal - have > 0 {
      DaysToReachLeast(goal - have, rate);
    }
  }

  /** The forecast's balance estimate and limiting factor. */
  lemma ForecastBalance(r: Report, dates: seq<int>, nFailures: nat)
    requires |dates| >= 2
    ensures var e := Forecast(r, dates, nFailures);
      && e.daysToBalance == Some(DaysToBalance(r.minimumJobs, r.failureJobs, e.failureRate))
      && e.failureRate >= 0.0
      && (e.failureRate == 0.0 <==> nFailures == 0)
      && e.limitingFactor == LimitingFactor(r)
      && e.confidence == ConfidenceOf(RangeDays(dates), |dates|)
  {
  }

  /** The date-collecting loop of `estimate_time_to_readiness`, then the forecast. */
  method EstimateTimeToReadiness(r: Report, jobs: seq<JobRecord>) returns (e: TimeEstimate)
    ensures e == TimeToReadiness(r, jobs)
  {
    if |jobs| == 0 {
      return Early(NoDataYet);
    }
    var dates: seq<int> := [];
    var failureDates: seq<int> := [];
    var i := 0;
    while i < |jobs|
      invariant 0 <= i <= |jobs|
      invariant dates == Dates(jobs[..i]) && failureDates == FailureDates(jobs[..i])
    {
      assert jobs[..i + 1][..i] == jobs[..i];
      var stamp := Stamp(jobs[i]);
      if stamp.At? {
        dates := dates + [stamp.instant];
        if IsFailure(jobs[i]) {
          failureDates := failureDates + [stamp.instant];
        }
      }
      i := i + 1;
    }
    assert jobs[..i] == jobs;
    if |dates| < 2 {
      return Early(TooFewDates);
    }
    e := Forecast(r, dates, |failureDates|);
  }

  // ---------------------------------------------------------------
  // Assembling the report
  // ---------------------------------------------------------------

  /** The sample score and status: bands at the thresholds, a proportional score below the minimum. */
  function SampleBand(total: nat, s: SampleSizes): (b: (int, Status))
    requires s.minimum > 0
    ensures b.1 == Optimal <==> total >= s.optimal
    ensures b.1 == Recommended <==> s.recommended <= total < s.optimal
    ensures b.1 == Minimum <==> s.minimum <= total < s.recommended && total < s.optimal
    ensures b.1 == Insufficient <==> total < s.minimum && total < s.recommended && total < s.optimal
    ensures b.1 == Insufficient ==> 0 <= b.0 < 60
  {
    if total >= s.optimal then (100, Optimal)
    else if total >= s.recommended then (80, Recommended)
    else if total >= s.minimum then (60, Minimum)
    else
      var x := total as real / s.minimum as real * 60.0;
      assert 0.0 <= total as real / s.minimum as real < 1.0;
      (Trunc(x), Insufficient)
  }

  predicate IsFailedJob(j: JobRecord)
  {
    IsFailure(j)
  }

  datatype Assessment = Assessment(report: Report, recommendations: seq<Rec>, estimate: TimeEstimate)

  /** The thresholds `assess_readiness` uses: the estimate for the default design. */
  function DefaultSizes(): (s: SampleSizes)
    ensures 100 <= s.minimum <= s.recommended <= s.optimal
  {
    RequiredSampleSize(0.3, 0.80, 0.05, 17).value
  }

  /**
   * The report of `assess_readiness` after the database reads, for the
   * thresholds `req`: `coverage` is the feature-coverage table,
   * `recencyScore` the recency score, `logN` and `rootN` the log10 and
   * square-root values of `estimate_accuracy`.
   */
  function ReportOf(jobs: seq<JobRecord>, coverage: Coverage, recencyScore: int, logN: real, rootN: real, req: SampleSizes): Report
    requires rootN >= 1.0 && req.minimum > 0
  {
    var total := |jobs|;
    var failures := CountIf(jobs, IsFailedJob);
    var successes := total - failures;
    var band := SampleBand(total, req);
    var balance := ClassBalanceScore(successes, failures).score;
    var featureScore := FeatureScoreOf(coverage);
    var overall := Trunc(band.0 as real * 0.35 + balance as real * 0.25 + featureScore as real * 0.25 + recencyScore as real * 0.15);
    Report(
      total, successes, failures, band.0, balance, featureScore, recencyScore, overall,
      req.minimum, req.recommended, req.optimal, band.1,
      Ready(total, req.minimum, failures, balance),
      EstimateAccuracy(total, balance, featureScore, logN, rootN))
  }

  /** `assess_readiness`: the report, its recommendations and its forecast. */
  function Assess(jobs: seq<JobRecord>, coverage: Coverage, recencyScore: int, logN: real, rootN: real): Assessment
    requires rootN >= 1.0
  {
    var report := ReportOf(jobs, coverage, recencyScore, logN, rootN, DefaultSizes());
    Assessment(report, Recommendations(report), TimeToReadiness(report, jobs))
  }

  /**
   * The data is ready for training exactly when the minimum sample size is
   * reached, at least ten jobs failed and the class balance scores at
   * least 40.
   */
  lemma ReportReady(jobs: seq<JobRecord>, coverage: Coverage, recencyScore: int, logN: real, rootN: real, req: SampleSizes)
    requires rootN >= 1.0 && req.minimum > 0
    ensures var r := ReportOf(jobs, coverage, recencyScore, logN, rootN, req);
      var failures := CountIf(jobs, IsFailedJob);
      && r.totalJobs == |jobs| && r.failureJobs == failures && r.successJobs == |jobs| - failures
      && r.minimumJobs == req.minimum && r.recommendedJobs == req.recommended && r.optimalJobs == req.optimal
      && r.balanceScore == ClassBalanceScore(|jobs| - failures, failures).score
      && (r.readyForTraining <==> |jobs| >= req.minimum && failures >= 10 && r.balanceScore >= 40)
  {
  }

  /**
   * With the default thresholds the data is ready once there are 178
   * jobs, ten failures and a balance score of 40; the recommendation list
   * then closes with the "[ok]" message.
   */
  lemma AssessReady(jobs: seq<JobRecord>, coverage: Coverage, recencyScore: int, logN: real, rootN: real)
    requires rootN >= 1.0
    ensures var a := Assess(jobs, coverage, recencyScore, logN, rootN);
      var failures := CountIf(jobs, IsFailedJob);
      && (a.report.readyForTraining <==>
          |jobs| >= 178 && failures >= 10 && ClassBalanceScore(|jobs| - failures, failures).score >= 40)
      && |a.recommendations| >= 1
      && (StartsWith(a.recommendations[|a.recommendations| - 1].Text(), "[ok]") <==> a.report.readyForTraining)
  {
    DefaultSampleSizes();
    var req := DefaultSizes();
    assert req.minimum == 178;
    ReportReady(jobs, coverage, recencyScore, logN, rootN, req);
    RecommendationsClose(ReportOf(jobs, coverage, recencyScore, logN, rootN, req));
  }

  /** With a recency score in [0, 100] every score of the report lies in [0, 100]. */
  lemma ReportScores(jobs: seq<JobRecord>, coverage: Coverage, recencyScore: int, logN: real, rootN: real, req: SampleSizes)
    requires rootN >= 1.0 && req.minimum > 0 && 0 <= recencyScore <= 100
    ensures var r := ReportOf(jobs, coverage, recencyScore, logN, rootN, req);
      && 0 <= r.sampleScore <= 100 && 0 <= r.balanceScore <= 100 && 0 <= r.featureScore <= 100
      && 0 <= r.overallScore <= 100
  {
    FeatureScoreBounds(coverage);
    var r := ReportOf(jobs, coverage, recencyScore, logN, rootN, req);
    var x := r.sampleScore as real * 0.35 + r.balanceScore as real * 0.25 + r.featureScore as real * 0.25 + recencyScore as real * 0.15;
    assert 0.0 <= x <= 100.0;
    TruncMono(x, 100.0);
  }
}
