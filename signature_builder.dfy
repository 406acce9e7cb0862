/**
 * Derivation of the golden signature from the batch history: keep the batches
 * that are both high in quality and low in energy, take the largest of the
 * clusters k-means finds among them, and summarise each adjustable parameter
 * over that cluster by its mean and sample variance.  The two quantile
 * thresholds and the cluster labels come from outside (pandas and k-means).
 */
module SignatureBuilder {
  import opened Common

  /** The number of clusters k-means is asked for. */
  const ClusterCount: nat := 3

  /** One row of the batch history. */
  datatype Row = Row(id: int, batch: Batch, quality: real)

  // ---------------------------------------------------------------------
  // Golden candidates
  // ---------------------------------------------------------------------

  /** Strictly above the quality threshold and strictly below the energy threshold. */
  predicate IsGolden(r: Row, qualityQ75: real, energyMedian: real) {
    r.quality > qualityQ75 && r.batch.energyUsed < energyMedian
  }

  /** The boolean-mask selection of golden candidates, in history order. */
  function GoldenRows(rows: seq<Row>, qualityQ75: real, energyMedian: real): (g: seq<Row>)
    ensures IsSubsequence(g, rows)
    ensures forall r :: r in g <==> r in rows && IsGolden(r, qualityQ75, energyMedian)
    ensures forall r :: multiset(g)[r] == if IsGolden(r, qualityQ75, energyMedian) then multiset(rows)[r] else 0
    decreases |rows|
  {
    if rows == [] then []
    else
      var r := rows[|rows| - 1];
      var rest := GoldenRows(rows[..|rows| - 1], qualityQ75, energyMedian);
      assert rows == rows[..|rows| - 1] + [r];
      if IsGolden(r, qualityQ75, energyMedian) then rest + [r] else rest
  }

  /** The selection never grows the history, and a row on either threshold is left out. */
  lemma GoldenRowsBounds(rows: seq<Row>, qualityQ75: real, energyMedian: real)
    ensures |GoldenRows(rows, qualityQ75, energyMedian)| <= |rows|
    ensures forall r: Row :: r.quality == qualityQ75 || r.batch.energyUsed == energyMedian ==>
      r !in GoldenRows(rows, qualityQ75, energyMedian)
  {
    SubsequenceShorter(GoldenRows(rows, qualityQ75, energyMedian), rows);
  }

  // ---------------------------------------------------------------------
  // The dominant cluster
  // ---------------------------------------------------------------------

  /** How many rows k-means put in cluster `c`. */
  function Count(labels: seq<int>, c: int): nat {
    multiset(labels)[c]
  }

  /** The candidate with the largest count; among equals, the smallest label. */
  function MostFrequentAmong(labels: seq<int>, cands: seq<int>): (c: int)
    requires |cands| > 0
    ensures c in cands
    ensures forall d :: d in cands ==> Count(labels, d) <= Count(labels, c)
    ensures forall d :: d in cands && Count(labels, d) == Count(labels, c) ==> c <= d
    decreases |cands|
  {
    if |cands| == 1 then cands[0]
    else
      var best := MostFrequentAmong(labels, cands[1..]);
      var d := cands[0];
      assert forall x :: x in cands ==> x == d || x in cands[1..];
      if Count(labels, d) > Count(labels, best)
         || (Count(labels, d) == Count(labels, best) && d < best)
      then d
      else best
  }

  /**
   * The cluster with the largest membership.  The source leaves the choice
   * among equally large clusters open; this picks the smallest label.
   */
  function BestCluster(labels: seq<int>): (c: int)
    requires |labels| > 0
    ensures c in labels
    ensures forall d :: Count(labels, d) <= Count(labels, c)
    ensures forall d :: Count(labels, d) == Count(labels, c) ==> c <= d
  {
    var c := MostFrequentAmong(labels, labels);
    assert Count(labels, c) > 0;
    c
  }

  /** Each golden row next to the cluster label k-means gave it (the added cluster column). */
  function Labelled(golden: seq<Row>, labels: seq<int>): seq<(Row, int)>
    requires |labels| == |golden|
  {
    seq(|golden|, i requires 0 <= i < |golden| => (golden[i], labels[i]))
  }

  /** The golden rows that carry label `c`, in order. */
  function ClusterRows(golden: seq<Row>, labels: seq<int>, c: int): (r: seq<Row>)
    requires |labels| == |golden|
    ensures IsSubsequence(r, golden)
    ensures |r| == Count(labels, c)
    ensures forall i :: 0 <= i < |golden| && labels[i] == c ==> golden[i] in r
    ensures forall x :: multiset(r)[x] == multiset(Labelled(golden, labels))[(x, c)]
    decreases |golden|
  {
    if golden == [] then []
    else
      var n := |golden| - 1;
      var rest := ClusterRows(golden[..n], labels[..n], c);
      assert labels == labels[..n] + [labels[n]];
      assert golden == golden[..n] + [golden[n]];
      assert Labelled(golden, labels) == Labelled(golden[..n], labels[..n]) + [(golden[n], labels[n])];
      if labels[n] == c then rest + [golden[n]] else rest
  }

  /** The select keeps every position with the label, so repeated rows keep their copies. */
  lemma ExampleClusterRows(a: Row, b: Row)
    ensures ClusterRows([a, a, b, b], [0, 0, 0, 1], 0) == [a, a, b]
  {
    var g, l := [a, a, b, b], [0, 0, 0, 1];
    assert g[..3] == [a, a, b] && l[..3] == [0, 0, 0];
    assert g[..3][..2] == [a, a] && l[..3][..2] == [0, 0];
    assert g[..3][..2][..1] == [a] && l[..3][..2][..1] == [0];
    assert ClusterRows([a], [0], 0) == [a];
    assert ClusterRows([a, a], [0, 0], 0) == [a, a];
    assert ClusterRows([a, a, b], [0, 0, 0], 0) == [a, a, b];
  }

  /** Every row of the cluster subset is a golden row labelled `c`. */
  lemma {:induction false} ClusterRowsOnlyLabelled(golden: seq<Row>, labels: seq<int>, c: int)
    requires |labels| == |golden|
    ensures forall x :: x in ClusterRows(golden, labels, c) ==>
      exists i :: 0 <= i < |golden| && golden[i] == x && labels[i] == c
    decreases |golden|
  {
    if golden != [] {
      var n := |golden| - 1;
      ClusterRowsOnlyLabelled(golden[..n], labels[..n], c);
      forall x | x in ClusterRows(golden, labels, c)
        ensures exists i :: 0 <= i < |golden| && golden[i] == x && labels[i] == c
      {
        if x in ClusterRows(golden[..n], labels[..n], c) {
          var i :| 0 <= i < n && golden[..n][i] == x && labels[..n][i] == c;
          assert golden[i] == x && labels[i] == c;
        } else {
          assert golden[n] == x && labels[n] == c;
        }
      }
    }
  }

  /** The best cluster's rows are never empty when there are golden rows. */
  lemma BestClusterNonEmpty(golden: seq<Row>, labels: seq<int>)
    requires |labels| == |golden| > 0
    ensures |ClusterRows(golden, labels, BestCluster(labels))| > 0
  {
    assert BestCluster(labels) in multiset(labels);
  }

  // ---------------------------------------------------------------------
  // Column statistics
  // ---------------------------------------------------------------------

  /** The readings of parameter `p` over `rows`. */
  function Column(rows: seq<Row>, p: Param): seq<real> {
    seq(|rows|, i requires 0 <= i < |rows| => rows[i].batch.Get(p))
  }

  function Sum(xs: seq<real>): real
    decreases |xs|
  {
    if xs == [] then 0.0 else Sum(xs[..|xs| - 1]) + xs[|xs| - 1]
  }

  function Mean(xs: seq<real>): real
    requires |xs| > 0
  {
    Sum(xs) / (|xs| as real)
  }

  /** The sum of values that all lie in [lo, hi] lies in [n * lo, n * hi]. */
  lemma {:induction false} SumBetween(xs: seq<real>, lo: real, hi: real)
    requires forall i :: 0 <= i < |xs| ==> lo <= xs[i] <= hi
    ensures (|xs| as real) * lo <= Sum(xs) <= (|xs| as real) * hi
    decreases |xs|
  {
    if xs != [] {
      SumBetween(xs[..|xs| - 1], lo, hi);
    }
  }

  /** The mean of values that all lie in [lo, hi] lies in [lo, hi]. */
  lemma MeanBetween(xs: seq<real>, lo: real, hi: real)
    requires |xs| > 0
    requires forall i :: 0 <= i < |xs| ==> lo <= xs[i] <= hi
    ensures lo <= Mean(xs) <= hi
  {
    var n := |xs| as real;
    SumBetween(xs, lo, hi);
    var m := Mean(xs);
    DivideThenMultiply(Sum(xs), n);
    ScaleOrder(lo, m, n, lo * n, Sum(xs));
    ScaleOrder(m, hi, n, Sum(xs), hi * n);
  }

  function Min(xs: seq<real>): (m: real)
    requires |xs| > 0
    ensures m in xs
    ensures forall i :: 0 <= i < |xs| ==> m <= xs[i]
    decreases |xs|
  {
    if |xs| == 1 then xs[0]
    else
      var m := Min(xs[..|xs| - 1]);
      assert xs == xs[..|xs| - 1] + [xs[|xs| - 1]];
      if xs[|xs| - 1] < m then xs[|xs| - 1] else m
  }

  function MaxOf(xs: seq<real>): (m: real)
    requires |xs| > 0
    ensures m in xs
    ensures forall i :: 0 <= i < |xs| ==> xs[i] <= m
    decreases |xs|
  {
    if |xs| == 1 then xs[0]
    else
      var m := MaxOf(xs[..|xs| - 1]);
      assert xs == xs[..|xs| - 1] + [xs[|xs| - 1]];
      if xs[|xs| - 1] > m then xs[|xs| - 1] else m
  }

  /** Sum of squared distances from `m`. */
  function SquaredDeviations(xs: seq<real>, m: real): (t: real)
    ensures t >= 0.0
    decreases |xs|
  {
    if xs == [] then 0.0
    else
      var d := xs[|xs| - 1] - m;
      SquaredDeviations(xs[..|xs| - 1], m) + d * d
  }

  /** The sample variance, with divisor n - 1; undefined (pandas: NaN) below two values. */
  function SampleVariance(xs: seq<real>): (v: Option<real>)
    ensures v.Some? <==> |xs| >= 2
    ensures v.Some? ==> v.value >= 0.0
  {
    if |xs| < 2 then None
    else Some(SquaredDeviations(xs, Mean(xs)) / ((|xs| - 1) as real))
  }

  /** Values that all equal `m` have no squared distance from it. */
  lemma {:induction false} SquaredDeviationsZero(xs: seq<real>, m: real)
    requires forall i :: 0 <= i < |xs| ==> xs[i] == m
    ensures SquaredDeviations(xs, m) == 0.0
    decreases |xs|
  {
    if xs != [] {
      var n := |xs| - 1;
      assert forall i :: 0 <= i < n ==> xs[..n][i] == xs[i];
      SquaredDeviationsZero(xs[..n], m);
    }
  }

  /**
   * A cluster whose rows all share one reading has zero variance in that
   * parameter, so the deviation the dashboard divides by is zero.
   */
  lemma ConstantHasZeroVariance(xs: seq<real>)
    requires |xs| >= 2
    requires forall i :: 0 <= i < |xs| ==> xs[i] == xs[0]
    ensures SampleVariance(xs) == Some(0.0)
  {
    MeanBetween(xs, xs[0], xs[0]);
    SquaredDeviationsZero(xs, Mean(xs));
  }

  // ---------------------------------------------------------------------
  // The signature
  // ---------------------------------------------------------------------

  /** Golden mean and sample variance of one parameter (the deviation is its square root). */
  datatype Moments = Moments(mean: real, variance: Option<real>)

  /** The rows of the best cluster among the golden candidates. */
  function BestClusterRows(rows: seq<Row>, qualityQ75: real, energyMedian: real, labels: seq<int>): (best: seq<Row>)
    requires |labels| == |GoldenRows(rows, qualityQ75, energyMedian)| >= ClusterCount
    ensures |best| > 0
    ensures IsSubsequence(best, GoldenRows(rows, qualityQ75, energyMedian))
    ensures forall r :: r in best ==> r in rows && IsGolden(r, qualityQ75, energyMedian)
    ensures |best| == Count(labels, BestCluster(labels))
    ensures forall c :: |best| >= Count(labels, c)
    ensures var golden := GoldenRows(rows, qualityQ75, energyMedian);
      forall x :: x in best ==>
        exists i :: 0 <= i < |golden| && golden[i] == x && labels[i] == BestCluster(labels)
    ensures var golden := GoldenRows(rows, qualityQ75, energyMedian);
      forall i :: 0 <= i < |golden| && labels[i] == BestCluster(labels) ==> golden[i] in best
    ensures var golden := GoldenRows(rows, qualityQ75, energyMedian);
      forall x :: multiset(best)[x] == multiset(Labelled(golden, labels))[(x, BestCluster(labels))]
  {
    var golden := GoldenRows(rows, qualityQ75, energyMedian);
    BestClusterNonEmpty(golden, labels);
    ClusterRowsOnlyLabelled(golden, labels, BestCluster(labels));
    var best := ClusterRows(golden, labels, BestCluster(labels));
    SubsequenceElements(best, golden);
    best
  }

  /** The signature of a non-empty cluster: one entry per adjustable parameter. */
  function SignatureOf(best: seq<Row>): (sig: map<Param, Moments>)
    requires |best| > 0
    ensures sig.Keys == {Temperature, Pressure, Ph, MixingSpeed}
    ensures forall p :: p in sig ==> (sig[p].variance.Some? <==> |best| >= 2)
    ensures forall p :: p in sig && sig[p].variance.Some? ==> sig[p].variance.value >= 0.0
  {
    map p | p in Controllable :: Moments(Mean(Column(best, p)), SampleVariance(Column(best, p)))
  }

  /**
   * Each signature mean is the arithmetic mean of that parameter over the
   * rows, so it lies between their smallest and largest reading; the variance
   * is the sample variance of the same readings.
   */
  lemma SignatureMeans(best: seq<Row>, p: Param)
    requires |best| > 0
    requires p in SignatureOf(best)
    ensures SignatureOf(best)[p].mean == Mean(Column(best, p))
    ensures Min(Column(best, p)) <= SignatureOf(best)[p].mean <= MaxOf(Column(best, p))
    ensures SignatureOf(best)[p].variance == SampleVariance(Column(best, p))
  {
    var xs := Column(best, p);
    assert SignatureOf(best)[p] == Moments(Mean(xs), SampleVariance(xs));
    MeanBetween(xs, Min(xs), MaxOf(xs));
  }

  /**
   * The whole derivation.  `labels` is what k-means returned for the golden
   * rows (one label each); k-means with three clusters needs at least three rows.
   */
  function BuildSignature(rows: seq<Row>, qualityQ75: real, energyMedian: real, labels: seq<int>)
    : (sig: map<Param, Moments>)
    requires |labels| == |GoldenRows(rows, qualityQ75, energyMedian)| >= ClusterCount
    ensures EnergyUsed !in sig
    ensures sig == SignatureOf(BestClusterRows(rows, qualityQ75, energyMedian, labels))
  {
    SignatureOf(BestClusterRows(rows, qualityQ75, energyMedian, labels))
  }
}
