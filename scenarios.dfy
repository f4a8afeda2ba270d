/** Worked peer groups: the statistics, z-scores and flags the pipeline gives for concrete rates. */
module AnalyticsScenarios {
  import opened Numerics
  import opened Analytics
  import opened AnalyticsProperties

  /** Appending a value adds it to the sum. */
  lemma SumSnoc(xs: seq<real>, x: real)
    ensures Sum(xs + [x]) == Sum(xs) + x
  {
    assert (xs + [x])[..|xs|] == xs;
  }

  /** A run of `n` copies of `c` followed by one value `v`: a group with one outlier. */
  function WithOutlier(n: nat, c: real, v: real): (xs: seq<real>)
    ensures |xs| == n + 1 && xs[n] == v
    ensures forall i :: 0 <= i < n ==> xs[i] == c
  {
    seq(n, _ => c) + [v]
  }

  /** The sum of a group with one outlier. */
  lemma SumWithOutlier(n: nat, c: real, v: real)
    ensures Sum(WithOutlier(n, c, v)) == (n as real) * c + v
  {
    var run := seq(n, _ => c);
    assert WithOutlier(n, c, v) == run + [v];
    SumOfConstant(run, c);
    SumSnoc(run, v);
  }

  /** The squared deviations of a group with one outlier are again a group with one outlier. */
  lemma DeviationsWithOutlier(n: nat, c: real, v: real, m: real)
    ensures SquaredDeviations(WithOutlier(n, c, v), m) == WithOutlier(n, (c - m) * (c - m), (v - m) * (v - m))
  {
    var xs := WithOutlier(n, c, v);
    var ds := SquaredDeviations(xs, m);
    var expected := WithOutlier(n, (c - m) * (c - m), (v - m) * (v - m));
    forall i | 0 <= i < |ds| ensures ds[i] == expected[i] {
      assert ds[i] == Square(xs[i] - m);
    }
  }

  /** Three equal Solar rates: mean 100, deviation floored to 1, every z-score 0, risk
      1/(1 + exp(1.5)) and no flag. */
  lemma SolarScenario(sqrt: real -> real, exp: real -> real)
    requires IsSqrt(sqrt) && IsExp(exp)
    ensures Stats([100.0, 100.0, 100.0], sqrt) == GroupStats(100.0, 1.0)
    ensures ZScore(100.0, GroupStats(100.0, 1.0)) == 0.0
    ensures RiskScore(0.0, exp) == 1.0 / (1.0 + exp(1.5))
    ensures !IsAnomaly(0.0)
  {
    UniformGroupScoresZero([100.0, 100.0, 100.0], sqrt, 0);
    assert -1.0 * (0.0 - RiskCentre) == 1.5;
  }

  /** Rates 50, 50, 50, 500: mean 162.5, population variance 37968.75, and the outlier's
      z-score is the square root of 3 (about 1.732), below the threshold. */
  lemma ForestryScenario(sqrt: real -> real)
    requires IsSqrt(sqrt)
    ensures var st := Stats(WithOutlier(3, 50.0, 500.0), sqrt);
      && st.mean == 162.5
      && st.std * st.std == 37968.75
      && ZScore(500.0, st) * ZScore(500.0, st) == 3.0
      && 1.7 < ZScore(500.0, st) < 1.8
      && !IsAnomaly(ZScore(500.0, st))
  {
    var xs := WithOutlier(3, 50.0, 500.0);
    SumWithOutlier(3, 50.0, 500.0);
    assert Mean(xs) == 162.5;
    DeviationsWithOutlier(3, 50.0, 500.0, 162.5);
    SumWithOutlier(3, 12656.25, 113906.25);
    assert Variance(xs) == 37968.75;
    var s := sqrt(37968.75);
    SqrtZeroIff(sqrt, 37968.75);
    assert s > 0.0 && s * s == 37968.75;
    var st := Stats(xs, sqrt);
    assert st == GroupStats(162.5, s);
    var z := ZScore(500.0, st);
    assert z * s == 337.5;
    assert z * z * (s * s) == 337.5 * 337.5;
    assert z * z == 3.0;
    assert z > 0.0;
    Bracket(z, 3.0, 1.7, 1.8);
  }

  /** Locates a positive number from its square. */
  lemma Bracket(z: real, sq: real, lo: real, hi: real)
    requires z > 0.0 && z * z == sq && 0.0 < lo < hi && lo * lo < sq < hi * hi
    ensures lo < z < hi
  {
  }

  /** Rates 10, 10, 10, 10, 1000: mean 208, deviation exactly 396, so the outlier's z-score is
      exactly 2 and, the threshold being strict, it is not flagged. */
  lemma BoundaryScenario(sqrt: real -> real)
    requires IsSqrt(sqrt)
    ensures Stats(WithOutlier(4, 10.0, 1000.0), sqrt) == GroupStats(208.0, 396.0)
    ensures ZScore(1000.0, GroupStats(208.0, 396.0)) == 2.0
    ensures !IsAnomaly(2.0)
  {
    var xs := WithOutlier(4, 10.0, 1000.0);
    SumWithOutlier(4, 10.0, 1000.0);
    assert Mean(xs) == 208.0;
    DeviationsWithOutlier(4, 10.0, 1000.0, 208.0);
    SumWithOutlier(4, 39204.0, 627264.0);
    assert Variance(xs) == 156816.0;
    SqrtOfSquare(sqrt, 396.0);
  }

  /** Nine rates of 0 and one of 10: mean 1, deviation 3, so the outlier's z-score is 3; it is
      flagged, and its risk exceeds that of a z-score of 2. */
  lemma ClearAnomalyScenario(sqrt: real -> real, exp: real -> real)
    requires IsSqrt(sqrt) && IsExp(exp)
    ensures Stats(WithOutlier(9, 0.0, 10.0), sqrt) == GroupStats(1.0, 3.0)
    ensures ZScore(10.0, GroupStats(1.0, 3.0)) == 3.0
    ensures IsAnomaly(3.0)
    ensures RiskScore(3.0, exp) > RiskScore(2.0, exp) > 0.5
  {
    var xs := WithOutlier(9, 0.0, 10.0);
    SumWithOutlier(9, 0.0, 10.0);
    assert Mean(xs) == 1.0;
    DeviationsWithOutlier(9, 0.0, 10.0, 1.0);
    SumWithOutlier(9, 1.0, 81.0);
    assert Variance(xs) == 9.0;
    SqrtOfSquare(sqrt, 3.0);
    AnomalyRisk(3.0, exp);
  }
}
