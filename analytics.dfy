/** The peer-group risk-scoring pipeline `analyzeDataset` (utils/analytics.ts): rate
    normalisation, grouping by project type, per-group mean and population standard deviation
    with the zero floor, and z-score, risk-score and anomaly assembly. */
module Analytics {
  import opened Types
  import opened Numerics

  /** The logistic risk score is centred here: a z-score of 1.5 scores one half. */
  const RiskCentre: real := 1.5
  /** A project is flagged when its z-score is strictly above this value. */
  const AnomalyThreshold: real := 2.0

  /** The run is rejected at the first record whose duration cannot divide its claim. */
  datatype AnalysisError = NonPositiveDuration(index: nat, id: string)

  datatype Result<T> = Ok(value: T) | Err(error: AnalysisError)

  /** A project after step 1: the record and its per-month reduction rate. */
  datatype RatedProject = RatedProject(project: CarbonProject, reductionRate: real)

  /** A peer group's statistics; `std` is the standard deviation after the zero floor. */
  datatype GroupStats = GroupStats(mean: real, std: real)

  // ---------------------------------------------------------------------------------------
  // Step 1: rates

  /** The index of the first record whose duration is not positive, or |data| if none is. */
  function FirstBadDuration(data: seq<CarbonProject>): (k: nat)
    ensures k <= |data|
    ensures forall i :: 0 <= i < k ==> data[i].durationMonths > 0.0
    ensures k < |data| ==> data[k].durationMonths <= 0.0
  {
    if data == [] then 0
    else if data[0].durationMonths <= 0.0 then 0
    else 1 + FirstBadDuration(data[1..])
  }

  /** Every record has a duration that can divide its claim. */
  predicate DurationsPositive(data: seq<CarbonProject>): (ok: bool)
    ensures ok <==> FirstBadDuration(data) == |data|
  {
    forall i :: 0 <= i < |data| ==> data[i].durationMonths > 0.0
  }

  /** The claimed reduction per month of one project. */
  function Rate(p: CarbonProject): (rate: real)
    requires p.durationMonths > 0.0
    ensures rate * p.durationMonths == p.claimedReduction
    ensures p.claimedReduction >= 0.0 ==> rate >= 0.0
  {
    p.claimedReduction / p.durationMonths
  }

  /** Every record paired with its rate, in input order. */
  function Normalize(data: seq<CarbonProject>): (rated: seq<RatedProject>)
    requires DurationsPositive(data)
    ensures |rated| == |data|
    ensures forall i :: 0 <= i < |data| ==>
      && rated[i].project == data[i]
      && rated[i].reductionRate * data[i].durationMonths == data[i].claimedReduction
  {
    seq(|data|, i requires 0 <= i < |data| => RatedProject(data[i], Rate(data[i])))
  }

  // ---------------------------------------------------------------------------------------
  // Step 2: peer groups

  /** The project types that occur among the rated records. */
  function TypesIn(rated: seq<RatedProject>): (types: set<ProjectType>)
    ensures forall i :: 0 <= i < |rated| ==> rated[i].project.projectType in types
  {
    set i | 0 <= i < |rated| :: rated[i].project.projectType
  }

  /** The rates of the records of type `t`, in input order, duplicates kept. */
  function RatesOfType(rated: seq<RatedProject>, t: ProjectType): (rates: seq<real>)
    ensures |rates| <= |rated|
  {
    if rated == [] then []
    else
      var last := rated[|rated| - 1];
      RatesOfType(rated[..|rated| - 1], t) + (if last.project.projectType == t then [last.reductionRate] else [])
  }

  /** The grouping table: one entry per type that occurs, holding that type's rates. */
  function PeerGroups(rated: seq<RatedProject>): (groups: map<ProjectType, seq<real>>)
    ensures forall i :: 0 <= i < |rated| ==> rated[i].project.projectType in groups
  {
    map t | t in TypesIn(rated) :: RatesOfType(rated, t)
  }

  /** Appending a record adds its rate to its own type's group, creating the group if it is new. */
  lemma PeerGroupsSnoc(rated: seq<RatedProject>, r: RatedProject)
    ensures var key := r.project.projectType;
            var groups := PeerGroups(rated);
            PeerGroups(rated + [r]) == groups[key := (if key in groups then groups[key] else []) + [r.reductionRate]]
  {
    var s := rated + [r];
    var key := r.project.projectType;
    var groups := PeerGroups(rated);
    assert s[..|s| - 1] == rated;
    assert TypesIn(s) == TypesIn(rated) + {key} by {
      forall t | t in TypesIn(s) ensures t in TypesIn(rated) + {key} {
        var i :| 0 <= i < |s| && s[i].project.projectType == t;
        if i < |rated| { assert rated[i] == s[i]; }
      }
      forall t | t in TypesIn(rated) ensures t in TypesIn(s) {
        var i :| 0 <= i < |rated| && rated[i].project.projectType == t;
        assert s[i] == rated[i];
      }
      assert s[|rated|] == r;
    }
    var rhs := groups[key := (if key in groups then groups[key] else []) + [r.reductionRate]];
    assert PeerGroups(s).Keys == rhs.Keys;
    forall t | t in TypesIn(s) ensures RatesOfType(s, t) == rhs[t] {
      assert RatesOfType(s, t) == RatesOfType(rated, t) + (if key == t then [r.reductionRate] else []);
      if t == key && key !in groups {
        RatesOfTypeAbsent(rated, key);
      }
    }
  }

  /** A type that does not occur has no rates. */
  lemma {:induction false} RatesOfTypeAbsent(rated: seq<RatedProject>, t: ProjectType)
    requires t !in TypesIn(rated)
    ensures RatesOfType(rated, t) == []
  {
    if rated != [] {
      var init := rated[..|rated| - 1];
      assert TypesIn(init) <= TypesIn(rated) by {
        forall u | u in TypesIn(init) ensures u in TypesIn(rated) {
          var i :| 0 <= i < |init| && init[i].project.projectType == u;
          assert rated[i] == init[i];
        }
      }
      assert rated[|rated| - 1].project.projectType in TypesIn(rated);
      RatesOfTypeAbsent(init, t);
    }
  }

  /** Fills the grouping table record by record: a group is created on the first sighting of
      its type and each record's rate is pushed onto its type's group. */
  method GroupRates(rated: seq<RatedProject>) returns (groups: map<ProjectType, seq<real>>)
    ensures groups == PeerGroups(rated)
  {
    groups := map[];
    for i := 0 to |rated|
      invariant groups == PeerGroups(rated[..i])
    {
      var r := rated[i];
      var key := r.project.projectType;
      PeerGroupsSnoc(rated[..i], r);
      assert rated[..i + 1] == rated[..i] + [r];
      if key !in groups {
        groups := groups[key := []];
      }
      groups := groups[key := groups[key] + [r.reductionRate]];
    }
    assert rated[..|rated|] == rated;
  }

  // ---------------------------------------------------------------------------------------
  // Step 3: peer statistics

  /** The left-to-right sum of `xs`, starting from 0. */
  function Sum(xs: seq<real>): (s: real)
    ensures (forall i :: 0 <= i < |xs| ==> xs[i] >= 0.0) ==> s >= 0.0
  {
    if xs == [] then 0.0 else Sum(xs[..|xs| - 1]) + xs[|xs| - 1]
  }

  /** The arithmetic mean of a non-empty list. */
  function Mean(xs: seq<real>): (m: real)
    requires |xs| > 0
    ensures m * (|xs| as real) == Sum(xs)
  {
    Sum(xs) / (|xs| as real)
  }

  /** The squared deviation of every element from `m`. */
  function SquaredDeviations(xs: seq<real>, m: real): (ds: seq<real>)
    ensures |ds| == |xs|
    ensures forall i :: 0 <= i < |xs| ==> ds[i] >= 0.0 && (ds[i] == 0.0 <==> xs[i] == m)
  {
    seq(|xs|, i requires 0 <= i < |xs| => Square(xs[i] - m))
  }

  /** `Math.pow(a, 2)`: non-negative, and zero only at zero. */
  function Square(a: real): (r: real)
    ensures r >= 0.0 && (r == 0.0 <==> a == 0.0)
  {
    ProductZero(a, a);
    assert a < 0.0 ==> a * a == (-a) * (-a);
    a * a
  }

  /** The population variance: the mean squared deviation from the mean (no Bessel correction). */
  function Variance(xs: seq<real>): (v: real)
    requires |xs| > 0
    ensures v >= 0.0
    ensures v * (|xs| as real) == Sum(SquaredDeviations(xs, Mean(xs)))
  {
    Sum(SquaredDeviations(xs, Mean(xs))) / (|xs| as real)
  }

  /** The `std || 1` substitution: a zero standard deviation becomes 1. */
  function FloorStd(std: real): (s: real)
    ensures s != 0.0
    ensures std != 0.0 ==> s == std
  {
    if std == 0.0 then 1.0 else std
  }

  /** No group of the table is empty. */
  predicate GroupsNonEmpty(groups: map<ProjectType, seq<real>>) {
    forall t :: t in groups ==> |groups[t]| > 0
  }

  /** The statistics of one peer group. */
  function Stats(rates: seq<real>, sqrt: real -> real): (st: GroupStats)
    requires |rates| > 0
    ensures st.mean * (|rates| as real) == Sum(rates)
    ensures st.std != 0.0
  {
    GroupStats(Mean(rates), FloorStd(sqrt(Variance(rates))))
  }

  /** The statistics table: one entry per group. */
  function StatsTable(groups: map<ProjectType, seq<real>>, sqrt: real -> real): (stats: map<ProjectType, GroupStats>)
    requires GroupsNonEmpty(groups)
    ensures stats.Keys == groups.Keys
    ensures forall t :: t in stats ==> stats[t].std != 0.0
  {
    map t | t in groups :: Stats(groups[t], sqrt)
  }

  /** Fills the statistics table key by key, in whatever order the keys come. */
  method ComputeGroupStats(groups: map<ProjectType, seq<real>>, sqrt: real -> real)
    returns (stats: map<ProjectType, GroupStats>)
    requires GroupsNonEmpty(groups)
    ensures stats == StatsTable(groups, sqrt)
  {
    stats := map[];
    var pending := groups.Keys;
    while pending != {}
      invariant pending <= groups.Keys
      invariant stats.Keys == groups.Keys - pending
      invariant forall t :: t in stats ==> stats[t] == Stats(groups[t], sqrt)
      decreases pending
    {
      var key :| key in pending;
      var rates := groups[key];
      var mean := Mean(rates);
      var std := sqrt(Variance(rates));
      stats := stats[key := GroupStats(mean, FloorStd(std))];
      pending := pending - {key};
    }
  }

  // ---------------------------------------------------------------------------------------
  // Step 4: scoring and assembly

  /** The signed distance of `rate` from the group mean, in group standard deviations. */
  function ZScore(rate: real, stats: GroupStats): (z: real)
    requires stats.std != 0.0
    ensures z * stats.std == rate - stats.mean
  {
    (rate - stats.mean) / stats.std
  }

  /** The logistic risk score, centred at a z-score of 1.5. */
  function RiskScore(z: real, exp: real -> real): (risk: real)
    requires IsExp(exp)
    ensures 0.0 < risk < 1.0
  {
    var e := exp(-1.0 * (z - RiskCentre));
    assert 0.0 < e;
    1.0 / (1.0 + e)
  }

  /** The anomaly flag: strictly above the threshold. */
  predicate IsAnomaly(z: real): (flagged: bool)
    ensures flagged ==> z > 2.0
    ensures z == 2.0 ==> !flagged
  {
    z > AnomalyThreshold
  }

  /** One output record, built from one rated record and its group's statistics. */
  function ScoreRecord(r: RatedProject, stats: GroupStats, exp: real -> real): (res: AnalysisResult)
    requires stats.std != 0.0 && IsExp(exp)
    ensures res.project == r.project && res.reductionRate == r.reductionRate
    ensures res.groupMean == stats.mean && res.groupStdDev == stats.std
    ensures res.zScore * stats.std == r.reductionRate - stats.mean
    ensures res.riskScore == RiskScore(res.zScore, exp)
    ensures res.isAnomaly <==> res.zScore > AnomalyThreshold
  {
    var z := ZScore(r.reductionRate, stats);
    AnalysisResult(r.project, r.reductionRate, stats.mean, stats.std, z, RiskScore(z, exp), IsAnomaly(z))
  }

  /** The statistics of every record's type are in the table and usable as a divisor. */
  ghost predicate Covers(rated: seq<RatedProject>, stats: map<ProjectType, GroupStats>) {
    forall i :: 0 <= i < |rated| ==>
      rated[i].project.projectType in stats && stats[rated[i].project.projectType].std != 0.0
  }

  /** The scoring map: output record i is built from rated record i. */
  function ScoreAll(rated: seq<RatedProject>, stats: map<ProjectType, GroupStats>, exp: real -> real)
    : (results: seq<AnalysisResult>)
    requires Covers(rated, stats) && IsExp(exp)
    ensures |results| == |rated|
    ensures forall i :: 0 <= i < |rated| ==>
      results[i] == ScoreRecord(rated[i], stats[rated[i].project.projectType], exp)
  {
    seq(|rated|, i requires 0 <= i < |rated| =>
      ScoreRecord(rated[i], stats[rated[i].project.projectType], exp))
  }

  /** Every group in the grouping table has at least one rate. */
  lemma PeerGroupsNonEmpty(rated: seq<RatedProject>)
    ensures GroupsNonEmpty(PeerGroups(rated))
  {
    forall t | t in PeerGroups(rated) ensures |RatesOfType(rated, t)| > 0 {
      RatesOfTypePresent(rated, t);
    }
  }

  /** A type that occurs has a non-empty group. */
  lemma {:induction false} RatesOfTypePresent(rated: seq<RatedProject>, t: ProjectType)
    requires t in TypesIn(rated)
    ensures |RatesOfType(rated, t)| > 0
  {
    var init := rated[..|rated| - 1];
    if rated[|rated| - 1].project.projectType != t {
      var i :| 0 <= i < |rated| && rated[i].project.projectType == t;
      assert init[i] == rated[i];
      RatesOfTypePresent(init, t);
    }
  }

  /** The statistics table built from the grouping table covers every record. */
  lemma StatsTableCovers(rated: seq<RatedProject>, sqrt: real -> real)
    requires GroupsNonEmpty(PeerGroups(rated))
    ensures Covers(rated, StatsTable(PeerGroups(rated), sqrt))
  {
    forall i | 0 <= i < |rated|
      ensures rated[i].project.projectType in TypesIn(rated)
    {
    }
  }

  /** The whole pipeline as a function of its input: rejected at the first non-positive duration,
      otherwise one scored record per input record. */
  function Analyze(data: seq<CarbonProject>, sqrt: real -> real, exp: real -> real)
    : (result: Result<seq<AnalysisResult>>)
    requires IsExp(exp)
    ensures result.Ok? <==> DurationsPositive(data)
    ensures result.Ok? ==> |result.value| == |data|
    ensures result.Err? ==> result.error.index < |data| && data[result.error.index].durationMonths <= 0.0
  {
    var k := FirstBadDuration(data);
    if k < |data| then Err(NonPositiveDuration(k, data[k].id))
    else
      var rated := Normalize(data);
      var groups := PeerGroups(rated);
      PeerGroupsNonEmpty(rated);
      StatsTableCovers(rated, sqrt);
      Ok(ScoreAll(rated, StatsTable(groups, sqrt), exp))
  }

  /** `analyzeDataset`: the rates, then the grouping table and the statistics table filled in
      place, then the scoring map. */
  method AnalyzeDataset(data: seq<CarbonProject>, sqrt: real -> real, exp: real -> real)
    returns (result: Result<seq<AnalysisResult>>)
    requires IsExp(exp)
    ensures result == Analyze(data, sqrt, exp)
  {
    var k := FirstBadDuration(data);
    if k < |data| {
      return Err(NonPositiveDuration(k, data[k].id));
    }
    var rated := Normalize(data);
    var groups := GroupRates(rated);
    PeerGroupsNonEmpty(rated);
    var stats := ComputeGroupStats(groups, sqrt);
    StatsTableCovers(rated, sqrt);
    result := Ok(ScoreAll(rated, stats, exp));
  }
}
