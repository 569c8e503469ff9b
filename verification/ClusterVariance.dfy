/** The cluster-robust variance of an arm mean: its accumulation loop, and the double sum it stands for. */
module ClusterVariance {
  import opened Permutations
  import opened RealArithmetic
  import opened Sums

  /** One invoice of an arm: the parallel arrays of values and clusters, side by side. */
  datatype Row = Row(cluster: string, value: real)

  function ClusterOf(r: Row): string { r.cluster }

  function ValueOf(r: Row): real { r.value }

  function ArmMean(rows: seq<Row>): real {
    if rows == [] then 0.0 else Total(rows, ValueOf) / |rows| as real
  }

  lemma MeanTimesCount(rows: seq<Row>)
    ensures |rows| as real * ArmMean(rows) == Total(rows, ValueOf)
  {
  }

  function Residual(mean: real): Row -> real { (r: Row) => r.value - mean }

  /** Sum of residuals per cluster. */
  function ClusterSum(rows: seq<Row>, mean: real): string -> real { KeyTotals(rows, ClusterOf, Residual(mean)) }

  function Squared<K>(f: K -> real): K -> real { k => f(k) * f(k) }

  function SmallSample(clusters: nat): real {
    if clusters > 1 then clusters as real / (clusters - 1) as real else 1.0
  }

  function SumOfSquares(rows: seq<Row>, mean: real): real {
    Total(Distinct(rows, ClusterOf), Squared(ClusterSum(rows, mean)))
  }

  function SquaredCount(n: nat): (r: real)
    ensures n > 0 ==> r > 0.0
  {
    n as real * n as real
  }

  /** Per squared row count, with the small-sample correction for the number of clusters. */
  function PerSquaredCount(s: real, n: nat, clusters: nat): real
    requires n > 0
  {
    s / SquaredCount(n) * SmallSample(clusters)
  }

  function ClusteredVariance(rows: seq<Row>): real {
    if rows == [] then 0.0
    else PerSquaredCount(SumOfSquares(rows, ArmMean(rows)), |rows|, |Distinct(rows, ClusterOf)|)
  }

  method ComputeArmMean(rows: seq<Row>) returns (m: real)
    ensures m == ArmMean(rows)
  {
    if rows == [] { return 0.0; }
    var s, i := 0.0, 0;
    while i < |rows|
      invariant i <= |rows| && s == Total(rows[..i], ValueOf)
    {
      TakeNext(rows, i);
      s, i := s + rows[i].value, i + 1;
    }
    assert rows[..i] == rows;
    m := s / |rows| as real;
  }

  lemma SquaredNext<K>(keys: seq<K>, f: K -> real, i: nat)
    requires i < |keys|
    ensures Total(keys[..i + 1], Squared(f)) == Total(keys[..i], Squared(f)) + f(keys[i]) * f(keys[i])
  {
    TakeNext(keys, i);
  }

  method SumSquares(order: seq<string>, sums: map<string, real>, ghost f: string -> real) returns (sumSq: real)
    requires forall k :: k in order ==> k in sums && sums[k] == f(k)
    ensures sumSq == Total(order, Squared(f))
  {
    var i := 0;
    sumSq := 0.0;
    while i < |order|
      invariant i <= |order| && sumSq == Total(order[..i], Squared(f))
    {
      SquaredNext(order, f, i);
      var s := sums[order[i]];
      sumSq, i := sumSq + s * s, i + 1;
    }
    assert order[..i] == order;
  }

  method ClusteredArmVariance(rows: seq<Row>) returns (v: real)
    ensures v == ClusteredVariance(rows)
  {
    var n := |rows|;
    if n == 0 { return 0.0; }
    var mean := ComputeArmMean(rows);
    var order, sums := SumBy(rows, ClusterOf, Residual(mean));
    var sumSq := SumSquares(order, sums, ClusterSum(rows, mean));
    v := PerSquaredCount(sumSq, n, |order|);
  }

  // ----- what the sums are -----

  lemma {:induction false} ResidualTotal(rows: seq<Row>, mean: real)
    ensures Total(rows, Residual(mean)) == Total(rows, ValueOf) - |rows| as real * mean
  {
    if rows != [] { ResidualTotal(rows[..|rows| - 1], mean); }
  }

  lemma ResidualsCancel(rows: seq<Row>, mean: real)
    requires mean == ArmMean(rows)
    ensures Total(rows, Residual(mean)) == 0.0
  {
    ResidualTotal(rows, mean);
    MeanTimesCount(rows);
  }

  /** Around the arm mean, the cluster sums cancel. */
  lemma ClusterSumsCancel(rows: seq<Row>)
    ensures Total(Distinct(rows, ClusterOf), ClusterSum(rows, ArmMean(rows))) == 0.0
  {
    var mean := ArmMean(rows);
    KeysAddUp(rows, ClusterOf, Residual(mean));
    ResidualsCancel(rows, mean);
  }

  lemma {:induction false} TotalZero<K>(keys: seq<K>)
    ensures Total(keys, (_: K) => 0.0) == 0.0
  {
    if keys != [] { TotalZero(keys[..|keys| - 1]); }
  }

  lemma SquaresTotal<K>(keys: seq<K>, f: K -> real)
    ensures Total(keys, Squared(f)) >= 0.0
    ensures Total(keys, Squared(f)) == 0.0 <==> forall k :: k in keys ==> f(k) == 0.0
  {
    forall k | k in keys ensures Squared(f)(k) >= 0.0 { SquareNonNegative(f(k)); }
    TotalNonNegative(keys, Squared(f));
    if k :| k in keys && f(k) != 0.0 {
      SquarePositive(f(k), Squared(f)(k));
    } else {
      TotalPointwise(keys, Squared(f), _ => 0.0);
      TotalZero(keys);
    }
  }

  lemma ScaledSign(s: real, n: real, g: real)
    requires s >= 0.0 && n > 0.0 && g > 0.0
    ensures s / n * g >= 0.0 && (s / n * g == 0.0 <==> s == 0.0)
  {
    var q := s / n;
    assert q * n == s;
  }

  /** Never negative, and zero exactly when every cluster's residuals cancel within the cluster. */
  lemma VarianceSign(rows: seq<Row>)
    ensures ClusteredVariance(rows) >= 0.0
    ensures ClusteredVariance(rows) == 0.0 <==>
            forall k :: k in Distinct(rows, ClusterOf) ==> ClusterSum(rows, ArmMean(rows))(k) == 0.0
  {
    if rows != [] {
      var keys := Distinct(rows, ClusterOf);
      SquaresTotal(keys, ClusterSum(rows, ArmMean(rows)));
      ScaledSign(Total(keys, Squared(ClusterSum(rows, ArmMean(rows)))), SquaredCount(|rows|), SmallSample(|keys|));
    }
  }

  /** An arm in one cluster always shows no variance, whatever its values: why such a stratum is not billable. */
  lemma OneClusterHidesVariance(rows: seq<Row>)
    requires |Distinct(rows, ClusterOf)| <= 1
    ensures ClusteredVariance(rows) == 0.0
  {
    ClusterSumsCancel(rows);
    VarianceSign(rows);
    var keys, f := Distinct(rows, ClusterOf), ClusterSum(rows, ArmMean(rows));
    if |keys| == 1 {
      assert keys[..0] == [] && Total(keys, f) == f(keys[0]);
    }
  }

  /** The residual of a row times the residual sum of its cluster. */
  function PairTerm(rows: seq<Row>, mean: real): Row -> real {
    (r: Row) => Residual(mean)(r) * ClusterSum(rows, mean)(r.cluster)
  }

  /** The sum of residual products over all pairs of rows in the same cluster. */
  function PairSum(rows: seq<Row>, mean: real): real { Total(rows, PairTerm(rows, mean)) }

  lemma ClusterPairs(rows: seq<Row>, mean: real, k: string)
    ensures KeyTotal(rows, ClusterOf, PairTerm(rows, mean), k) == Squared(ClusterSum(rows, mean))(k)
  {
    WeightedKeyTotal(rows, ClusterOf, Residual(mean), ClusterSum(rows, mean), PairTerm(rows, mean), k);
  }

  lemma PairSumIsSquares(rows: seq<Row>, mean: real)
    ensures PairSum(rows, mean) == SumOfSquares(rows, mean)
  {
    var keys, sums, term := Distinct(rows, ClusterOf), ClusterSum(rows, mean), PairTerm(rows, mean);
    KeysAddUp(rows, ClusterOf, term);
    forall k | k in keys ensures KeyTotals(rows, ClusterOf, term)(k) == Squared(sums)(k) {
      ClusterPairs(rows, mean, k);
    }
    TotalPointwise(keys, KeyTotals(rows, ClusterOf, term), Squared(sums));
  }

  /** The loop over clusters computes the textbook sandwich: pairs within a cluster, scaled by G/(G-1). */
  lemma VarianceIsDoubleSum(rows: seq<Row>)
    requires rows != []
    ensures ClusteredVariance(rows) ==
            PerSquaredCount(PairSum(rows, ArmMean(rows)), |rows|, |Distinct(rows, ClusterOf)|)
  {
    PairSumIsSquares(rows, ArmMean(rows));
  }

  lemma PairTermPermuted(p: seq<Row>, q: seq<Row>, mean: real, r: Row)
    requires multiset(p) == multiset(q)
    ensures PairTerm(p, mean)(r) == PairTerm(q, mean)(r)
  {
    var a, b := ClusterSum(p, mean)(r.cluster), ClusterSum(q, mean)(r.cluster);
    assert a == b by { KeyTotalPermuted(p, q, ClusterOf, Residual(mean), r.cluster); }
    assert PairTerm(p, mean)(r) == Residual(mean)(r) * a && PairTerm(q, mean)(r) == Residual(mean)(r) * b;
  }

  lemma PairSumPermuted(p: seq<Row>, q: seq<Row>, mean: real)
    requires multiset(p) == multiset(q)
    ensures PairSum(p, mean) == PairSum(q, mean)
  {
    TotalPermuted(p, q, PairTerm(p, mean));
    forall r | r in q ensures PairTerm(p, mean)(r) == PairTerm(q, mean)(r) {
      PairTermPermuted(p, q, mean, r);
    }
    TotalPointwise(q, PairTerm(p, mean), PairTerm(q, mean));
  }

  /** Row order does not matter. */
  lemma VariancePermuted(p: seq<Row>, q: seq<Row>)
    requires multiset(p) == multiset(q)
    ensures ClusteredVariance(p) == ClusteredVariance(q)
  {
    SameLength(p, q);
    TotalPermuted(p, q, ValueOf);
    DistinctPermuted(p, q, ClusterOf);
    SameLength(Distinct(p, ClusterOf), Distinct(q, ClusterOf));
    if p != [] {
      VarianceIsDoubleSum(p);
      VarianceIsDoubleSum(q);
      PairSumPermuted(p, q, ArmMean(p));
    }
  }
}
