/**
 * The analysis the dashboard runs on one candidate batch: the risk label for
 * the risk classifier's output, a z-score per parameter against the golden
 * signature, the parameters outside the two-sigma band, one recommendation per
 * such parameter, the health score and its tier.  The two classifier outputs
 * are inputs here.
 */
module DeviationEngine {
  import opened Common

  /** A parameter is out of range when its |z| exceeds this many deviations. */
  const OutOfRangeSigma: real := 2.0
  /** Health points lost per unit of mean absolute z-score. */
  const HealthPenalty: real := 15.0
  const MaxHealth: real := 100.0
  /** Scores above this are near optimal; at or below `ModerateFloor` the deviation is high. */
  const OptimalFloor: real := 80.0
  const ModerateFloor: real := 60.0

  // ---------------------------------------------------------------------
  // Risk code lookup
  // ---------------------------------------------------------------------

  const LowRisk: string := "Low Risk \U{1F7E2}"
  const ModerateRisk: string := "Moderate Risk \U{1F7E1}"
  const HighRisk: string := "High Risk \U{1F534}"
  const UnknownRisk: string := "Unknown"

  /** The table from risk classifier output to display label. */
  const RiskMap: map<int, string> := map[0 := LowRisk, 1 := ModerateRisk, 2 := HighRisk]

  /** Looks the code up in `RiskMap`, falling back to "Unknown" for any other code. */
  function RiskLabel(code: int): (s: string)
    ensures code == 0 ==> s == LowRisk
    ensures code == 1 ==> s == ModerateRisk
    ensures code == 2 ==> s == HighRisk
    ensures s == UnknownRisk <==> !(0 <= code <= 2)
  {
    if code in RiskMap then RiskMap[code] else UnknownRisk
  }

  // ---------------------------------------------------------------------
  // Deviation report
  // ---------------------------------------------------------------------

  datatype Deviation = Deviation(param: Param, z: real)

  /** Standardised distance of `x` from the golden mean `s.mean`. */
  function ZScore(x: real, s: Stat): (z: real)
    requires s.std != 0.0
    ensures z * s.std == x - s.mean
    ensures z == 0.0 <==> x == s.mean
  {
    (x - s.mean) / s.std
  }

  /** The deviation report over the parameters `ps`, in their order. */
  function ReportOver(ps: seq<Param>, b: Batch, sig: Signature): seq<Deviation>
    requires CompleteSignature(sig)
    decreases |ps|
  {
    if ps == [] then []
    else
      var p := ps[|ps| - 1];
      ReportOver(ps[..|ps| - 1], b, sig) + [Deviation(p, ZScore(b.Get(p), sig[p]))]
  }

  /** The report the dashboard shows: one z-score for each of the five parameters. */
  function Report(b: Batch, sig: Signature): seq<Deviation>
    requires CompleteSignature(sig)
  {
    ReportOver(AllParams, b, sig)
  }

  /** The report holds one entry per parameter of `ps`, in order, carrying its z-score. */
  lemma {:induction false} ReportOverAt(ps: seq<Param>, b: Batch, sig: Signature)
    requires CompleteSignature(sig)
    ensures |ReportOver(ps, b, sig)| == |ps|
    ensures forall i :: 0 <= i < |ps| ==>
      ReportOver(ps, b, sig)[i] == Deviation(ps[i], ZScore(b.Get(ps[i]), sig[ps[i]]))
    decreases |ps|
  {
    if ps != [] {
      ReportOverAt(ps[..|ps| - 1], b, sig);
    }
  }

  /** Deviations are reported for exactly the five parameters, in order. */
  lemma ReportShape(b: Batch, sig: Signature)
    requires CompleteSignature(sig)
    ensures |Report(b, sig)| == 5
    ensures forall i :: 0 <= i < 5 ==> Report(b, sig)[i].param == AllParams[i]
    ensures forall i :: 0 <= i < 5 ==>
      (Report(b, sig)[i].z == 0.0 <==> b.Get(AllParams[i]) == sig[AllParams[i]].mean)
  {
    ReportOverAt(AllParams, b, sig);
  }

  /** Fills the deviation table parameter by parameter, as the dashboard's loop does. */
  method ComputeDeviations(b: Batch, sig: Signature) returns (dev: seq<Deviation>)
    requires CompleteSignature(sig)
    ensures dev == Report(b, sig)
  {
    dev := [];
    var i := 0;
    while i < |AllParams|
      invariant 0 <= i <= |AllParams|
      invariant dev == ReportOver(AllParams[..i], b, sig)
    {
      var p := AllParams[i];
      dev := dev + [Deviation(p, ZScore(b.Get(p), sig[p]))];
      assert AllParams[..i + 1][..i] == AllParams[..i];
      i := i + 1;
    }
    assert AllParams[..i] == AllParams;
  }

  /** Doubling the distance from the mean doubles the z-score. */
  lemma ZScoreLinear(s: Stat, d: real)
    requires s.std != 0.0
    ensures ZScore(s.mean + 2.0 * d, s) == 2.0 * ZScore(s.mean + d, s)
  {
    var z1 := ZScore(s.mean + d, s);
    var z2 := ZScore(s.mean + 2.0 * d, s);
    assert (z2 - 2.0 * z1) * s.std == 0.0;
  }

  /** For a positive deviation, |z| > 2 says the value is more than two deviations from the mean. */
  lemma OutOfRangeMeansTwoSigma(x: real, s: Stat)
    requires s.std > 0.0
    ensures OutOfRange(ZScore(x, s)) <==> Abs(x - s.mean) > OutOfRangeSigma * s.std
  {
    var z := ZScore(x, s);
    AbsOfProduct(z, s.std, x - s.mean);
    ScaleOrder(Abs(z), OutOfRangeSigma, s.std, Abs(x - s.mean), OutOfRangeSigma * s.std);
  }

  // ---------------------------------------------------------------------
  // Out-of-range parameters and recommendations
  // ---------------------------------------------------------------------

  /** Two-sigma rule: |z| = 2 is still in range. */
  predicate OutOfRange(z: real) {
    Abs(z) > OutOfRangeSigma
  }

  /** The parameters the report lists, in order. */
  function ParamsOf(dev: seq<Deviation>): seq<Param>
  {
    seq(|dev|, i requires 0 <= i < |dev| => dev[i].param)
  }

  /** The parameters whose z-score is out of range, in report order. */
  function RiskyParams(dev: seq<Deviation>): (r: seq<Param>)
    ensures IsSubsequence(r, ParamsOf(dev))
    ensures forall p :: p in r <==> exists i :: 0 <= i < |dev| && dev[i].param == p && OutOfRange(dev[i].z)
    decreases |dev|
  {
    if dev == [] then []
    else
      var d := dev[|dev| - 1];
      var rest := RiskyParams(dev[..|dev| - 1]);
      assert ParamsOf(dev)[..|dev| - 1] == ParamsOf(dev[..|dev| - 1]);
      if OutOfRange(d.z) then rest + [d.param] else rest
  }

  /** On the dashboard's report, a parameter is flagged exactly when its |z| exceeds two. */
  lemma RiskyParamsOfReport(b: Batch, sig: Signature, p: Param)
    requires CompleteSignature(sig)
    ensures p in RiskyParams(Report(b, sig)) <==> OutOfRange(ZScore(b.Get(p), sig[p]))
    ensures IsSubsequence(RiskyParams(Report(b, sig)), AllParams)
  {
    ReportOverAt(AllParams, b, sig);
    var dev := Report(b, sig);
    assert ParamsOf(dev) == AllParams;
    var i := match p
      case Temperature => 0 case Pressure => 1 case Ph => 2 case MixingSpeed => 3 case EnergyUsed => 4;
    assert dev[i].param == p;
  }

  /** Flagged parameters appear once each. */
  lemma RiskyParamsDistinct(b: Batch, sig: Signature)
    requires CompleteSignature(sig)
    ensures Distinct(RiskyParams(Report(b, sig)))
  {
    RiskyParamsOfReport(b, sig, Temperature);
    SubsequenceDistinct(RiskyParams(Report(b, sig)), AllParams);
  }

  /** An advice to move `param` towards its golden mean `target`. */
  datatype Recommendation = Recommendation(param: Param, target: real)

  /** Walks the report and emits one recommendation per out-of-range entry. */
  method Recommend(dev: seq<Deviation>, sig: Signature) returns (recs: seq<Recommendation>)
    requires Covers(sig, ParamsOf(dev))
    ensures |recs| == |RiskyParams(dev)|
    ensures forall k :: 0 <= k < |recs| ==>
      recs[k].param == RiskyParams(dev)[k] && recs[k].param in sig && recs[k].target == sig[recs[k].param].mean
  {
    recs := [];
    var i := 0;
    while i < |dev|
      invariant 0 <= i <= |dev|
      invariant |recs| == |RiskyParams(dev[..i])|
      invariant forall k :: 0 <= k < |recs| ==>
        recs[k].param == RiskyParams(dev[..i])[k] && recs[k].param in sig && recs[k].target == sig[recs[k].param].mean
    {
      var d := dev[i];
      assert dev[..i + 1][..i] == dev[..i];
      assert ParamsOf(dev)[i] == d.param;
      if OutOfRange(d.z) {
        recs := recs + [Recommendation(d.param, sig[d.param].mean)];
      }
      i := i + 1;
    }
    assert dev[..i] == dev;
  }

  // ---------------------------------------------------------------------
  // Health score and tier
  // ---------------------------------------------------------------------

  /** Sum of the absolute z-scores. */
  function SumAbs(dev: seq<Deviation>): (t: real)
    ensures t >= 0.0
    ensures t == 0.0 ==> forall i :: 0 <= i < |dev| ==> dev[i].z == 0.0
    decreases |dev|
  {
    if dev == [] then 0.0 else SumAbs(dev[..|dev| - 1]) + Abs(dev[|dev| - 1].z)
  }

  function MeanAbsDeviation(dev: seq<Deviation>): real
    requires |dev| > 0
  {
    SumAbs(dev) / (|dev| as real)
  }

  /** 100 minus 15 points per unit of mean |z|, never below zero. */
  function HealthScore(dev: seq<Deviation>): (h: real)
    requires |dev| > 0
    ensures 0.0 <= h <= MaxHealth
    ensures h == MaxHealth ==> forall i :: 0 <= i < |dev| ==> dev[i].z == 0.0
  {
    var m := MeanAbsDeviation(dev);
    assert m >= 0.0;
    assert m == 0.0 ==> SumAbs(dev) == 0.0;
    HealthOfMean(m)
  }

  /** The score for a given mean |z|. */
  function HealthOfMean(m: real): real {
    Max(0.0, MaxHealth - m * HealthPenalty)
  }

  /** A report whose z-scores are all zero sums to zero. */
  lemma {:induction false} SumAbsZero(dev: seq<Deviation>)
    requires forall i :: 0 <= i < |dev| ==> dev[i].z == 0.0
    ensures SumAbs(dev) == 0.0
    decreases |dev|
  {
    if dev != [] {
      SumAbsZero(dev[..|dev| - 1]);
    }
  }

  /** Raising any |z| never lowers the sum. */
  lemma {:induction false} SumAbsMonotone(a: seq<Deviation>, c: seq<Deviation>)
    requires |a| == |c|
    requires forall i :: 0 <= i < |a| ==> Abs(a[i].z) <= Abs(c[i].z)
    ensures SumAbs(a) <= SumAbs(c)
    decreases |a|
  {
    if a != [] {
      SumAbsMonotone(a[..|a| - 1], c[..|c| - 1]);
    }
  }

  /** The score is 100 exactly when every z-score is zero. */
  lemma HealthScoreFull(dev: seq<Deviation>)
    requires |dev| > 0
    ensures HealthScore(dev) == MaxHealth <==> forall i :: 0 <= i < |dev| ==> dev[i].z == 0.0
  {
    if forall i :: 0 <= i < |dev| ==> dev[i].z == 0.0 {
      SumAbsZero(dev);
    }
  }

  /** A batch on the golden mean in every parameter scores 100. */
  lemma GoldenBatchIsHealthy(b: Batch, sig: Signature)
    requires CompleteSignature(sig)
    requires forall p :: p in sig ==> b.Get(p) == sig[p].mean
    ensures HealthScore(Report(b, sig)) == MaxHealth
  {
    ReportShape(b, sig);
    HealthScoreFull(Report(b, sig));
  }

  /** A larger sum of |z| over reports of the same length never gives a higher score. */
  lemma HealthScoreAntitone(dev: seq<Deviation>, dev': seq<Deviation>)
    requires |dev| == |dev'| > 0
    requires SumAbs(dev) <= SumAbs(dev')
    ensures HealthScore(dev') <= HealthScore(dev)
  {
    DivideOrder(SumAbs(dev), SumAbs(dev'), |dev| as real);
    HealthOfMeanAntitone(MeanAbsDeviation(dev), MeanAbsDeviation(dev'));
  }

  lemma DivideOrder(t: real, t': real, n: real)
    requires n > 0.0 && t <= t'
    ensures t / n <= t' / n
  {
    DivideThenMultiply(t, n);
    DivideThenMultiply(t', n);
    ScaleOrder(t / n, t' / n, n, t, t');
  }

  lemma HealthOfMeanAntitone(m: real, m': real)
    requires m <= m'
    ensures HealthOfMean(m') <= HealthOfMean(m)
  {
    assert m' * HealthPenalty - m * HealthPenalty == (m' - m) * HealthPenalty;
  }

  /** Growing one |z| while the others stay fixed never raises the score. */
  lemma HealthScoreMonotone(dev: seq<Deviation>, k: nat, z: real)
    requires k < |dev|
    requires Abs(dev[k].z) <= Abs(z)
    ensures HealthScore(dev[k := dev[k].(z := z)]) <= HealthScore(dev)
  {
    var dev' := dev[k := dev[k].(z := z)];
    SumAbsMonotone(dev, dev');
    HealthScoreAntitone(dev, dev');
  }

  /** Moving one parameter of a batch further from its golden mean never raises its score. */
  lemma HealthScoreMonotoneInBatch(b: Batch, sig: Signature, p: Param, v: real)
    requires CompleteSignature(sig)
    requires Abs(b.Get(p) - sig[p].mean) <= Abs(v - sig[p].mean)
    ensures HealthScore(Report(b.With(p, v), sig)) <= HealthScore(Report(b, sig))
  {
    var b' := b.With(p, v);
    var dev, dev' := Report(b, sig), Report(b', sig);
    ReportOverAt(AllParams, b, sig);
    ReportOverAt(AllParams, b', sig);
    forall i | 0 <= i < 5 ensures Abs(dev[i].z) <= Abs(dev'[i].z) {
      if AllParams[i] == p {
        ZScoreGrows(b.Get(p), v, sig[p]);
      }
    }
    SumAbsMonotone(dev, dev');
    HealthScoreAntitone(dev, dev');
  }

  /** |u| * |v| == |w| when u * v == w. */
  lemma AbsOfProduct(u: real, v: real, w: real)
    requires u * v == w
    ensures Abs(u) * Abs(v) == Abs(w)
  {
    if u < 0.0 && v < 0.0 {
      assert w == (-u) * (-v);
    } else if u < 0.0 {
      assert -w == (-u) * v;
    } else if v < 0.0 {
      assert -w == u * (-v);
    }
  }

  /** A value further from the mean has a larger |z|. */
  lemma ZScoreGrows(x: real, y: real, s: Stat)
    requires s.std != 0.0
    requires Abs(x - s.mean) <= Abs(y - s.mean)
    ensures Abs(ZScore(x, s)) <= Abs(ZScore(y, s))
  {
    var z, z' := ZScore(x, s), ZScore(y, s);
    AbsOfProduct(z, s.std, x - s.mean);
    AbsOfProduct(z', s.std, y - s.mean);
    ScaleOrder(Abs(z), Abs(z'), Abs(s.std), Abs(x - s.mean), Abs(y - s.mean));
  }

  datatype Tier = NearOptimal | ModerateDeviation | HighDeviation

  /** The three-way reading of the health score. */
  function TierOf(score: real): (t: Tier)
    ensures t == NearOptimal <==> score > OptimalFloor
    ensures t == ModerateDeviation <==> ModerateFloor < score <= OptimalFloor
    ensures t == HighDeviation <==> score <= ModerateFloor
  {
    if score > OptimalFloor then NearOptimal
    else if score > ModerateFloor then ModerateDeviation
    else HighDeviation
  }

  // ---------------------------------------------------------------------
  // The whole analysis
  // ---------------------------------------------------------------------

  datatype AnalysisResult = AnalysisResult(
    quality: int,
    risk: string,
    deviations: seq<Deviation>,
    outOfRange: seq<Param>,
    recommendations: seq<Recommendation>,
    health: real,
    tier: Tier)

  /**
   * One press of "Run AI Analysis": `qualityPrediction` and `riskPrediction`
   * are what the two classifiers returned for the batch.
   */
  method Analyze(b: Batch, sig: Signature, qualityPrediction: int, riskPrediction: int)
    returns (res: AnalysisResult)
    requires CompleteSignature(sig)
    ensures res.quality == qualityPrediction
    ensures res.risk == RiskLabel(riskPrediction)
    ensures res.deviations == Report(b, sig)
    ensures res.outOfRange == RiskyParams(res.deviations)
    ensures |res.recommendations| == |res.outOfRange|
    ensures forall k :: 0 <= k < |res.recommendations| ==>
      res.recommendations[k] == Recommendation(res.outOfRange[k], sig[res.outOfRange[k]].mean)
    ensures 0.0 <= res.health <= MaxHealth
    ensures res.health == HealthScore(res.deviations)
    ensures res.tier == TierOf(res.health)
  {
    var dev := ComputeDeviations(b, sig);
    ReportShape(b, sig);
    assert ParamsOf(dev) == AllParams;
    var recs := Recommend(dev, sig);
    var health := HealthScore(dev);
    res := AnalysisResult(qualityPrediction, RiskLabel(riskPrediction), dev, RiskyParams(dev), recs,
                          health, TierOf(health));
  }

  // ---------------------------------------------------------------------
  // Worked examples
  // ---------------------------------------------------------------------

  const ExampleSignature: Signature := map[
    Temperature := Stat(180.0, 10.0),
    Pressure := Stat(30.0, 5.0),
    Ph := Stat(7.0, 0.5),
    MixingSpeed := Stat(1200.0, 100.0),
    EnergyUsed := Stat(500.0, 50.0)]

  lemma ExampleSignatureComplete()
    ensures CompleteSignature(ExampleSignature)
  {
    forall p ensures p in ExampleSignature && ExampleSignature[p].std != 0.0 {
      match p
      case Temperature =>
      case Pressure =>
      case Ph =>
      case MixingSpeed =>
      case EnergyUsed =>
    }
  }

  /** Ten degrees hot: z = 1 on temperature only, nothing flagged, score 97. */
  lemma ExampleWithinRange()
    ensures CompleteSignature(ExampleSignature)
    ensures var dev := Report(Batch(190.0, 30.0, 7.0, 1200.0, 500.0), ExampleSignature);
      && dev == [Deviation(Temperature, 1.0), Deviation(Pressure, 0.0), Deviation(Ph, 0.0),
                 Deviation(MixingSpeed, 0.0), Deviation(EnergyUsed, 0.0)]
      && RiskyParams(dev) == []
      && HealthScore(dev) == 97.0
  {
    var b := Batch(190.0, 30.0, 7.0, 1200.0, 500.0);
    ExampleSignatureComplete();
    ReportOverAt(AllParams, b, ExampleSignature);
    ExampleTotals(Report(b, ExampleSignature), 1.0);
  }

  /** Fifty degrees hot: z = 5, only temperature flagged, score 85. */
  lemma ExampleOutOfRange()
    ensures CompleteSignature(ExampleSignature)
    ensures var dev := Report(Batch(230.0, 30.0, 7.0, 1200.0, 500.0), ExampleSignature);
      && dev == [Deviation(Temperature, 5.0), Deviation(Pressure, 0.0), Deviation(Ph, 0.0),
                 Deviation(MixingSpeed, 0.0), Deviation(EnergyUsed, 0.0)]
      && RiskyParams(dev) == [Temperature]
      && HealthScore(dev) == 85.0
      && TierOf(HealthScore(dev)) == NearOptimal
  {
    var b := Batch(230.0, 30.0, 7.0, 1200.0, 500.0);
    ExampleSignatureComplete();
    ReportOverAt(AllParams, b, ExampleSignature);
    ExampleTotals(Report(b, ExampleSignature), 5.0);
  }

  /** Unrolls the report functions on a report that deviates in temperature only. */
  lemma ExampleTotals(dev: seq<Deviation>, t: real)
    requires t >= 0.0
    requires dev == [Deviation(Temperature, t), Deviation(Pressure, 0.0), Deviation(Ph, 0.0),
                     Deviation(MixingSpeed, 0.0), Deviation(EnergyUsed, 0.0)]
    ensures RiskyParams(dev) == if t > 2.0 then [Temperature] else []
    ensures SumAbs(dev) == t
    ensures HealthScore(dev) == HealthOfMean(t / 5.0)
  {
    var d1, d2, d3, d4 := dev[..1], dev[..2], dev[..3], dev[..4];
    assert d1[..0] == [] && d2[..1] == d1 && d3[..2] == d2 && d4[..3] == d3 && dev[..4] == d4;
    assert RiskyParams(d1) == if t > 2.0 then [Temperature] else [];
    assert RiskyParams(d2) == RiskyParams(d1);
    assert RiskyParams(d3) == RiskyParams(d2);
    assert RiskyParams(d4) == RiskyParams(d3);
    assert SumAbs(d1) == t;
    assert SumAbs(d2) == t;
    assert SumAbs(d3) == t;
    assert SumAbs(d4) == t;
  }
}
