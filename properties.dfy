/** What the scoring pipeline of utils/analytics.ts guarantees, proved about the model. */
module AnalyticsProperties {
  import opened Types
  import opened Numerics
  import opened Analytics

  // ---------------------------------------------------------------------------------------
  // Peer groups

  /** The positions of the records of type `t`, in increasing order. */
  function TypeIndices(rated: seq<RatedProject>, t: ProjectType): seq<nat> {
    if rated == [] then []
    else
      var n := |rated| - 1;
      TypeIndices(rated[..n], t) + (if rated[n].project.projectType == t then [n] else [])
  }

  /** A type's group lists exactly the rates of the records of that type, in input order and
      with duplicates kept: its k-th rate is the rate of the k-th record of that type. */
  lemma {:induction false} RatesOfTypeIsTypeFilter(rated: seq<RatedProject>, t: ProjectType)
    ensures |TypeIndices(rated, t)| == |RatesOfType(rated, t)|
    ensures forall k :: 0 <= k < |TypeIndices(rated, t)| ==>
      && TypeIndices(rated, t)[k] < |rated|
      && rated[TypeIndices(rated, t)[k]].project.projectType == t
      && RatesOfType(rated, t)[k] == rated[TypeIndices(rated, t)[k]].reductionRate
    ensures forall k, l :: 0 <= k < l < |TypeIndices(rated, t)| ==> TypeIndices(rated, t)[k] < TypeIndices(rated, t)[l]
    ensures forall i :: 0 <= i < |rated| && rated[i].project.projectType == t ==> i in TypeIndices(rated, t)
  {
    if rated != [] {
      var n := |rated| - 1;
      var init := rated[..n];
      RatesOfTypeIsTypeFilter(init, t);
      forall i | 0 <= i < n ensures init[i] == rated[i] { }
    }
  }

  /** Two inputs whose records agree on type and rate, whatever their regions, names or ids,
      have the same peer groups. */
  lemma PeerGroupsIgnoreRegion(a: seq<RatedProject>, b: seq<RatedProject>)
    requires |a| == |b|
    requires forall i :: 0 <= i < |a| ==>
      a[i].project.projectType == b[i].project.projectType && a[i].reductionRate == b[i].reductionRate
    ensures PeerGroups(a) == PeerGroups(b)
  {
    assert TypesIn(a) == TypesIn(b) by {
      forall t ensures t in TypesIn(a) <==> t in TypesIn(b) {
        if t in TypesIn(a) {
          var i :| 0 <= i < |a| && a[i].project.projectType == t;
          assert b[i].project.projectType == t;
        }
        if t in TypesIn(b) {
          var i :| 0 <= i < |b| && b[i].project.projectType == t;
          assert a[i].project.projectType == t;
        }
      }
    }
    forall t ensures RatesOfType(a, t) == RatesOfType(b, t) {
      RatesOfTypeAgree(a, b, t);
    }
  }

  lemma {:induction false} RatesOfTypeAgree(a: seq<RatedProject>, b: seq<RatedProject>, t: ProjectType)
    requires |a| == |b|
    requires forall i :: 0 <= i < |a| ==>
      a[i].project.projectType == b[i].project.projectType && a[i].reductionRate == b[i].reductionRate
    ensures RatesOfType(a, t) == RatesOfType(b, t)
  {
    if a != [] {
      var n := |a| - 1;
      RatesOfTypeAgree(a[..n], b[..n], t);
    }
  }

  // ---------------------------------------------------------------------------------------
  // Sums, mean and variance

  /** A sum of equal terms is their count times the term. */
  lemma {:induction false} SumOfConstant(xs: seq<real>, c: real)
    requires forall i :: 0 <= i < |xs| ==> xs[i] == c
    ensures Sum(xs) == (|xs| as real) * c
  {
    if xs != [] {
      SumOfConstant(xs[..|xs| - 1], c);
    }
  }

  /** A sum of non-negative terms is non-negative, and zero exactly when every term is. */
  lemma {:induction false} SumOfNonNegatives(xs: seq<real>)
    requires forall i :: 0 <= i < |xs| ==> xs[i] >= 0.0
    ensures Sum(xs) >= 0.0
    ensures Sum(xs) == 0.0 <==> forall i :: 0 <= i < |xs| ==> xs[i] == 0.0
  {
    if xs != [] {
      var init := xs[..|xs| - 1];
      SumOfNonNegatives(init);
      if Sum(xs) == 0.0 {
        forall i | 0 <= i < |xs| ensures xs[i] == 0.0 {
          if i < |init| { assert init[i] == xs[i]; }
        }
      }
    }
  }

  /** The mean of a list of equal values is that value. */
  lemma MeanOfConstant(xs: seq<real>, c: real)
    requires |xs| > 0
    requires forall i :: 0 <= i < |xs| ==> xs[i] == c
    ensures Mean(xs) == c
  {
    SumOfConstant(xs, c);
  }

  /** The population variance is zero exactly when all values are equal. */
  lemma VarianceZeroIff(xs: seq<real>)
    requires |xs| > 0
    ensures Variance(xs) == 0.0 <==> forall i :: 0 <= i < |xs| ==> xs[i] == xs[0]
  {
    var m := Mean(xs);
    var ds := SquaredDeviations(xs, m);
    var n := |xs| as real;
    SumOfNonNegatives(ds);
    assert Variance(xs) == Sum(ds) / n;
    assert Sum(ds) == 0.0 <==> Variance(xs) == 0.0;
    if forall i :: 0 <= i < |xs| ==> xs[i] == xs[0] {
      MeanOfConstant(xs, xs[0]);
    }
  }

  /** The floored standard deviation is positive; it is 1 when the variance is zero and the
      square root of the variance otherwise. */
  lemma StdDevFloor(rates: seq<real>, sqrt: real -> real)
    requires |rates| > 0 && IsSqrt(sqrt)
    ensures Stats(rates, sqrt).std > 0.0
    ensures Variance(rates) == 0.0 ==> Stats(rates, sqrt).std == 1.0
    ensures Variance(rates) != 0.0 ==> Stats(rates, sqrt).std * Stats(rates, sqrt).std == Variance(rates)
  {
    SqrtZeroIff(sqrt, Variance(rates));
  }

  /** In a group whose rates are all equal the deviation is floored to 1 and every member
      scores a z-score of 0. */
  lemma UniformGroupScoresZero(rates: seq<real>, sqrt: real -> real, i: nat)
    requires IsSqrt(sqrt) && i < |rates|
    requires forall j :: 0 <= j < |rates| ==> rates[j] == rates[0]
    ensures Stats(rates, sqrt) == GroupStats(rates[0], 1.0)
    ensures ZScore(rates[i], Stats(rates, sqrt)) == 0.0
  {
    MeanOfConstant(rates, rates[0]);
    VarianceZeroIff(rates);
    StdDevFloor(rates, sqrt);
  }

  // ---------------------------------------------------------------------------------------
  // Risk score and anomaly flag

  lemma ReciprocalDecreasing(p: real, q: real)
    requires 0.0 < p < q
    ensures 1.0 / q < 1.0 / p
  {
  }

  /** The risk score strictly increases with the z-score. */
  lemma RiskScoreIncreasing(z1: real, z2: real, exp: real -> real)
    requires IsExp(exp) && z1 < z2
    ensures RiskScore(z1, exp) < RiskScore(z2, exp)
  {
    var e1 := exp(-1.0 * (z1 - RiskCentre));
    var e2 := exp(-1.0 * (z2 - RiskCentre));
    assert 0.0 < e2 < e1;
    ReciprocalDecreasing(1.0 + e2, 1.0 + e1);
  }

  /** A project 1.5 deviations above its peers' mean scores exactly one half. */
  lemma RiskScoreAtCentre(exp: real -> real)
    requires IsExp(exp)
    ensures RiskScore(1.5, exp) == 0.5
  {
    assert -1.0 * (1.5 - RiskCentre) == 0.0;
  }

  /** Flagging is strict: a z-score of exactly 2 is not an anomaly; every anomaly scores above
      the risk at z = 2, which is itself above one half. */
  lemma AnomalyRisk(z: real, exp: real -> real)
    requires IsExp(exp)
    ensures IsAnomaly(z) <==> z > 2.0
    ensures !IsAnomaly(2.0)
    ensures IsAnomaly(z) ==> RiskScore(z, exp) > RiskScore(2.0, exp) > 0.5
  {
    RiskScoreAtCentre(exp);
    RiskScoreIncreasing(1.5, 2.0, exp);
    if IsAnomaly(z) {
      RiskScoreIncreasing(2.0, z, exp);
    }
  }

  // ---------------------------------------------------------------------------------------
  // The whole pipeline

  /** The rates of the type-`t` records of a valid input: the peer group of `t`. */
  function PeerRates(data: seq<CarbonProject>, t: ProjectType): seq<real>
    requires DurationsPositive(data)
  {
    RatesOfType(Normalize(data), t)
  }

  /** On a valid input the pipeline scores the normalised records against the statistics of
      their peer groups; record i of the output is scored from input record i. */
  lemma AnalyzeOk(data: seq<CarbonProject>, sqrt: real -> real, exp: real -> real)
    requires IsExp(exp) && DurationsPositive(data)
    ensures GroupsNonEmpty(PeerGroups(Normalize(data)))
    ensures Covers(Normalize(data), StatsTable(PeerGroups(Normalize(data)), sqrt))
    ensures Analyze(data, sqrt, exp) == Ok(ScoreAll(Normalize(data), StatsTable(PeerGroups(Normalize(data)), sqrt), exp))
  {
    PeerGroupsNonEmpty(Normalize(data));
    StatsTableCovers(Normalize(data), sqrt);
    assert FirstBadDuration(data) == |data|;
  }

  /** The run is rejected exactly when some duration is not positive, and then the error names
      the first such record. */
  lemma AnalyzeRejectsIff(data: seq<CarbonProject>, sqrt: real -> real, exp: real -> real)
    requires IsExp(exp)
    ensures Analyze(data, sqrt, exp).Ok? <==> DurationsPositive(data)
    ensures Analyze(data, sqrt, exp).Err? ==>
      var k := Analyze(data, sqrt, exp).error.index;
      && k < |data|
      && data[k].durationMonths <= 0.0
      && Analyze(data, sqrt, exp).error.id == data[k].id
      && forall i :: 0 <= i < k ==> data[i].durationMonths > 0.0
  {
    if DurationsPositive(data) {
      AnalyzeOk(data, sqrt, exp);
    }
  }

  /** One output record per input record, in input order: record i keeps every field of
      input i and adds its rate; the empty input gives the empty output. */
  lemma AnalyzePreservesRecords(data: seq<CarbonProject>, sqrt: real -> real, exp: real -> real)
    requires IsExp(exp) && DurationsPositive(data)
    ensures Analyze(data, sqrt, exp).Ok?
    ensures var out := Analyze(data, sqrt, exp).value;
      && |out| == |data|
      && forall i :: 0 <= i < |data| ==> out[i].project == data[i] && out[i].reductionRate == Rate(data[i])
  {
    AnalyzeOk(data, sqrt, exp);
  }

  /** Each record carries its own type's group statistics: the mean of that group's rates and
      the floored population deviation; its own rate is a member of that group. */
  lemma AnalyzeUsesPeerStatistics(data: seq<CarbonProject>, sqrt: real -> real, exp: real -> real, i: nat)
    requires IsExp(exp) && DurationsPositive(data) && i < |data|
    ensures |PeerRates(data, data[i].projectType)| > 0
    ensures Analyze(data, sqrt, exp).Ok? && |Analyze(data, sqrt, exp).value| == |data|
    ensures var r := Analyze(data, sqrt, exp).value[i];
      var group := PeerRates(data, data[i].projectType);
      && r.reductionRate in group
      && r.groupMean == Mean(group)
      && r.groupStdDev == FloorStd(sqrt(Variance(group)))
  {
    AnalyzeOk(data, sqrt, exp);
    var rated := Normalize(data);
    var t := data[i].projectType;
    assert rated[i].project.projectType == t;
    assert t in TypesIn(rated);
    RatesOfTypeIsTypeFilter(rated, t);
    var idx := TypeIndices(rated, t);
    var k :| 0 <= k < |idx| && idx[k] == i;
    assert RatesOfType(rated, t)[k] == rated[i].reductionRate;
  }

  /** Each record's z-score is its signed distance from the group mean in group deviations,
      its risk score is the logistic of that z-score, and it is flagged exactly when the
      z-score is strictly above 2. */
  lemma AnalyzeScores(data: seq<CarbonProject>, sqrt: real -> real, exp: real -> real, i: nat)
    requires IsExp(exp) && DurationsPositive(data) && i < |data|
    ensures Analyze(data, sqrt, exp).Ok? && |Analyze(data, sqrt, exp).value| == |data|
    ensures var r := Analyze(data, sqrt, exp).value[i];
      && r.groupStdDev != 0.0
      && r.zScore == ZScore(r.reductionRate, GroupStats(r.groupMean, r.groupStdDev))
      && r.riskScore == RiskScore(r.zScore, exp)
      && 0.0 < r.riskScore < 1.0
      && (r.isAnomaly <==> r.zScore > 2.0)
  {
    AnalyzeOk(data, sqrt, exp);
  }

  /** With a true square root every group deviation is positive. */
  lemma AnalyzeStdDevPositive(data: seq<CarbonProject>, sqrt: real -> real, exp: real -> real, i: nat)
    requires IsExp(exp) && IsSqrt(sqrt) && DurationsPositive(data) && i < |data|
    ensures Analyze(data, sqrt, exp).Ok? && |Analyze(data, sqrt, exp).value| == |data|
    ensures Analyze(data, sqrt, exp).value[i].groupStdDev > 0.0
  {
    AnalyzeUsesPeerStatistics(data, sqrt, exp, i);
    StdDevFloor(PeerRates(data, data[i].projectType), sqrt);
  }

  /** When all projects of one type have the same rate, each of them gets deviation 1, z-score 0,
      risk score 1/(1 + exp(1.5)) and no flag. */
  lemma AnalyzeUniformGroup(data: seq<CarbonProject>, sqrt: real -> real, exp: real -> real, t: ProjectType)
    requires IsExp(exp) && IsSqrt(sqrt) && DurationsPositive(data)
    requires forall i, j :: 0 <= i < |data| && 0 <= j < |data| ==>
      (data[i].projectType == t && data[j].projectType == t ==> Rate(data[i]) == Rate(data[j]))
    ensures Analyze(data, sqrt, exp).Ok? && |Analyze(data, sqrt, exp).value| == |data|
    ensures forall i :: 0 <= i < |data| && data[i].projectType == t ==>
      var r := Analyze(data, sqrt, exp).value[i];
      && r.groupMean == r.reductionRate
      && r.groupStdDev == 1.0
      && r.zScore == 0.0
      && r.riskScore == 1.0 / (1.0 + exp(1.5))
      && !r.isAnomaly
  {
    AnalyzeOk(data, sqrt, exp);
    forall i | 0 <= i < |data| && data[i].projectType == t
      ensures var r := Analyze(data, sqrt, exp).value[i];
        && r.groupMean == r.reductionRate && r.groupStdDev == 1.0 && r.zScore == 0.0
        && r.riskScore == 1.0 / (1.0 + exp(1.5)) && !r.isAnomaly
    {
      UniformGroupMember(data, sqrt, exp, t, i);
    }
  }

  /** One record of a type whose rates are all equal: its peer group is uniform. */
  lemma UniformGroupMember(data: seq<CarbonProject>, sqrt: real -> real, exp: real -> real, t: ProjectType, i: nat)
    requires IsExp(exp) && IsSqrt(sqrt) && DurationsPositive(data)
    requires forall i, j :: 0 <= i < |data| && 0 <= j < |data| ==>
      (data[i].projectType == t && data[j].projectType == t ==> Rate(data[i]) == Rate(data[j]))
    requires i < |data| && data[i].projectType == t
    ensures Analyze(data, sqrt, exp).Ok? && |Analyze(data, sqrt, exp).value| == |data|
    ensures var r := Analyze(data, sqrt, exp).value[i];
      && r.groupMean == r.reductionRate && r.groupStdDev == 1.0 && r.zScore == 0.0
      && r.riskScore == 1.0 / (1.0 + exp(1.5)) && !r.isAnomaly
  {
    AnalyzeOk(data, sqrt, exp);
    var rated := Normalize(data);
    var group := RatesOfType(rated, t);
    RatesOfTypeIsTypeFilter(rated, t);
    var idx := TypeIndices(rated, t);
    forall j | 0 <= j < |group| ensures group[j] == group[0] {
      assert rated[idx[j]].reductionRate == Rate(data[idx[j]]);
      assert rated[idx[0]].reductionRate == Rate(data[idx[0]]);
    }
    assert rated[i].project.projectType == t;
    var k :| 0 <= k < |idx| && idx[k] == i;
    UniformGroupScoresZero(group, sqrt, k);
    assert -1.0 * (0.0 - RiskCentre) == 1.5;
  }

  /** Region, name, id and credits play no part in scoring: two inputs that agree on every
      record's type, claim and duration get the same computed fields. */
  lemma AnalyzeIgnoresRegion(a: seq<CarbonProject>, b: seq<CarbonProject>, sqrt: real -> real, exp: real -> real)
    requires IsExp(exp) && DurationsPositive(a) && |a| == |b|
    requires forall i :: 0 <= i < |a| ==>
      && a[i].projectType == b[i].projectType
      && a[i].claimedReduction == b[i].claimedReduction
      && a[i].durationMonths == b[i].durationMonths
    ensures Analyze(a, sqrt, exp).Ok? && Analyze(b, sqrt, exp).Ok?
    ensures var ra := Analyze(a, sqrt, exp).value; var rb := Analyze(b, sqrt, exp).value;
      && |ra| == |rb| == |a|
      && forall i :: 0 <= i < |a| ==> ra[i].(project := b[i]) == rb[i]
  {
    AnalyzeOk(a, sqrt, exp);
    AnalyzeOk(b, sqrt, exp);
    PeerGroupsIgnoreRegion(Normalize(a), Normalize(b));
  }
}
