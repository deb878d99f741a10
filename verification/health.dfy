/**
 * Health scoring: five component scores, their weighted overall score and
 * grade for one project, the portfolio aggregate over all active projects,
 * and the day-keyed upserts that store both.
 */
module Health {
  import opened Basics
  import opened Records
  import opened Tables

  // ---------------------------------------------------------------------
  // Component scores
  // ---------------------------------------------------------------------

  /** Score of the latest velocity trend; no pattern and unknown trends score 50. */
  function VelocityScore(pattern: Option<PatternAnalysis>): (s: real)
    ensures 10.0 <= s <= 90.0
    ensures pattern.None? ==> s == 50.0
    ensures pattern.Some? ==> s == match pattern.value.trend
      case Accelerating => 90.0
      case Stable => 70.0
      case Decelerating => 40.0
      case Stagnant => 10.0
      case OtherTrend => 50.0
  {
    if pattern.None? then 50.0
    else match pattern.value.trend
      case Accelerating => 90.0
      case Stable => 70.0
      case Decelerating => 40.0
      case Stagnant => 10.0
      case _ => 50.0
  }

  function TrendRank(t: Trend): int
  {
    match t
    case Stagnant => 0
    case Decelerating => 1
    case OtherTrend => 2
    case Stable => 3
    case Accelerating => 4
  }

  /** A faster trend never scores lower. */
  lemma VelocityScoreMonotone(p: PatternAnalysis, q: PatternAnalysis)
    requires TrendRank(p.trend) <= TrendRank(q.trend)
    ensures VelocityScore(Some(p)) <= VelocityScore(Some(q))
  {
  }

  /** The lookup `{ low: 100, medium: 60, high: 30, critical: 0 }[level]`;
      `None` is the `undefined` of a missing key. */
  function RiskTable(level: Option<Level>): (v: Option<real>)
    ensures level.None? <==> v.None?
  {
    match level
    case None => None
    case Some(Low) => Some(100.0)
    case Some(Medium) => Some(60.0)
    case Some(High) => Some(30.0)
    case Some(Critical) => Some(0.0)
  }

  /** `riskLevels[level] || 50`: the fallback applies to the missing key and to
      the falsy 0 of a critical level alike. */
  function RiskScore(level: Option<Level>): (s: real)
    ensures 30.0 <= s <= 100.0
    ensures s == 50.0 <==> level.None? || level == Some(Critical)
    ensures level == Some(Low) ==> s == 100.0
    ensures level == Some(Medium) ==> s == 60.0
    ensures level == Some(High) ==> s == 30.0
  {
    var v := RiskTable(level);
    if v.Some? && v.value != 0.0 then v.value else 50.0
  }

  /** The fallback inverts the scale at the top: a critical project scores as an
      unknown one, better than a high-risk one. */
  lemma CriticalRiskScoresAboveHigh()
    ensures RiskScore(Some(Critical)) == RiskScore(None)
    ensures RiskScore(Some(Critical)) > RiskScore(Some(High))
  {
  }

  /** `rationale?.length || 0`. */
  function RationaleLength(d: Decision): nat
  {
    if d.rationale.Some? then |d.rationale.value| else 0
  }

  function TotalRationale(ds: seq<Decision>): nat
  {
    if ds == [] then 0 else RationaleLength(ds[0]) + TotalRationale(ds[1..])
  }

  predicate IsExecuted(d: Decision)
  {
    d.status == Executed
  }

  /** Decision quality: the mean of the execution rate (as a percentage) and of
      the average rationale length measured against 200 characters (capped at
      100); 50 when the project has no decision. */
  function DecisionQualityScore(ds: seq<Decision>): (s: real)
    ensures 0.0 <= s <= 100.0
    ensures ds == [] ==> s == 50.0
    ensures ds != [] ==>
      (s == 100.0 <==> CountWhere(ds, IsExecuted) == |ds| && TotalRationale(ds) >= 200 * |ds|)
  {
    if ds == [] then 50.0
    else
      var n := |ds| as real;
      var executed := CountWhere(ds, IsExecuted) as real;
      var avgLength := TotalRationale(ds) as real / n;
      var executionScore := executed / n * 100.0;
      var rationaleScore := MinReal(100.0, avgLength / 200.0 * 100.0);
      assert 0.0 <= executionScore <= 100.0 by { Fraction(executed, n); }
      assert executionScore == 100.0 <==> executed == n by { Fraction(executed, n); }
      assert avgLength / 200.0 * 100.0 >= 100.0 <==> TotalRationale(ds) as real >= 200.0 * n by {
        AtLeastAverage(TotalRationale(ds) as real, n);
      }
      (executionScore + rationaleScore) / 2.0
  }

  lemma Fraction(k: real, n: real)
    requires 0.0 <= k <= n && n > 0.0
    ensures 0.0 <= k / n * 100.0 <= 100.0
    ensures k / n * 100.0 == 100.0 <==> k == n
  {
    assert n / n == 1.0;
    assert k / n <= n / n;
  }

  lemma AtLeastAverage(total: real, n: real)
    requires n > 0.0
    ensures total / n / 200.0 * 100.0 >= 100.0 <==> total >= 200.0 * n
  {
    var avg := total / n;
    assert avg * n == total;
    assert avg / 200.0 * 100.0 == avg / 2.0;
    if avg >= 200.0 {
      assert avg * n >= 200.0 * n;
    } else {
      assert avg * n < 200.0 * n;
    }
  }

  // ---------------------------------------------------------------------
  // Overall score and grade
  // ---------------------------------------------------------------------

  /** Weighted overall score; the weights 0.30, 0.25, 0.20, 0.15, 0.10 sum to 1. */
  function Overall(completion: real, velocity: real, risk: real, cash: real, quality: real): real
  {
    completion * 0.30 + velocity * 0.25 + risk * 0.20 + cash * 0.15 + quality * 0.10
  }

  /** The overall score is a weighted mean: it lies between the least and the
      greatest component, hence in [0, 100] when every component does. */
  lemma OverallBetween(c: real, v: real, r: real, ci: real, q: real, lo: real, hi: real)
    requires lo <= c <= hi && lo <= v <= hi && lo <= r <= hi && lo <= ci <= hi && lo <= q <= hi
    ensures lo <= Overall(c, v, r, ci, q) <= hi
  {
    assert Overall(lo, lo, lo, lo, lo) == lo;
    assert Overall(hi, hi, hi, hi, hi) == hi;
  }

  /** `getGrade`: excellent from 85, good from 70, warning from 50, else critical. */
  function GradeOf(score: real): (g: Grade)
    ensures g == Excellent <==> score >= 85.0
    ensures g == Good <==> 70.0 <= score < 85.0
    ensures g == Warning <==> 50.0 <= score < 70.0
    ensures g == CriticalGrade <==> score < 50.0
  {
    if score >= 85.0 then Excellent
    else if score >= 70.0 then Good
    else if score >= 50.0 then Warning
    else CriticalGrade
  }

  function GradeRank(g: Grade): int
  {
    match g
    case CriticalGrade => 0
    case Warning => 1
    case Good => 2
    case Excellent => 3
  }

  /** A higher score never gets a worse grade. */
  lemma GradeMonotone(a: real, b: real)
    requires a <= b
    ensures GradeRank(GradeOf(a)) <= GradeRank(GradeOf(b))
  {
  }

  /** `pattern?.momentum_score || 50`: a missing pattern and a momentum of 0
      both give 50. */
  function HealthMomentum(pattern: Option<PatternAnalysis>): (m: int)
    ensures m == 50 <==> pattern.None? || pattern.value.momentum in {0, 50}
    ensures pattern.Some? && pattern.value.momentum != 0 ==> m == pattern.value.momentum
  {
    if pattern.Some? && pattern.value.momentum != 0 then pattern.value.momentum else 50
  }

  /** The overall score before rounding; the grade is taken from this value. */
  function RawOverall(s: Snapshot): real
  {
    Overall(s.project.completion, VelocityScore(LatestPattern(s)), RiskScore(s.project.riskLevel),
            s.project.cashImpact * 10.0, DecisionQualityScore(s.decisions))
  }

  /** `calculateProjectHealth`; `None` when the project does not exist. */
  function ProjectHealth(s: Option<Snapshot>): (r: Option<HealthScore>)
    ensures r.Some? <==> s.Some?
    ensures r.Some? ==> r.value.projectId == s.value.project.id
    ensures r.Some? ==> r.value.grade == GradeOf(RawOverall(s.value))
    ensures r.Some? ==> RawOverall(s.value) - 0.005 < r.value.overall <= RawOverall(s.value) + 0.005
    ensures r.Some? && 0.0 <= s.value.project.completion <= 100.0 && 0.0 <= s.value.project.cashImpact <= 10.0
            ==> 0.0 <= r.value.overall <= 100.0
    ensures r.Some? ==> r.value.momentum == HealthMomentum(LatestPattern(s.value))
    ensures r.Some? ==>
      var h := r.value;
      h.completionScore == s.value.project.completion
      && h.velocityScore == VelocityScore(LatestPattern(s.value))
      && h.riskScore == RiskScore(s.value.project.riskLevel)
      && h.cashImpactScore == s.value.project.cashImpact * 10.0
      && h.decisionQualityScore == DecisionQualityScore(s.value.decisions)
    ensures r.Some? ==>
      var h := r.value;
      var fromStored := Overall(h.completionScore, h.velocityScore, h.riskScore, h.cashImpactScore,
                                h.decisionQualityScore);
      h.overall == Round2(fromStored) && h.grade == GradeOf(fromStored)
  {
    match s
    case None => None
    case Some(snap) =>
      var c := snap.project.completion;
      var v := VelocityScore(LatestPattern(snap));
      var risk := RiskScore(snap.project.riskLevel);
      var cash := snap.project.cashImpact * 10.0;
      var q := DecisionQualityScore(snap.decisions);
      var raw := Overall(c, v, risk, cash, q);
      assert 0.0 <= c <= 100.0 && 0.0 <= cash <= 100.0 ==> 0.0 <= raw <= 100.0 by {
        if 0.0 <= c <= 100.0 && 0.0 <= cash <= 100.0 {
          OverallBetween(c, v, risk, cash, q, 0.0, 100.0);
        }
      }
      Round2Within(raw, 0.0, 100.0);
      Some(HealthScore(snap.project.id, Round2(raw), c, v, risk, cash, q,
                       HealthMomentum(LatestPattern(snap)), GradeOf(raw)))
  }

  /** Rounding to two decimals keeps a value inside bounds that are themselves
      whole hundredths. */
  lemma Round2Within(x: real, lo: real, hi: real)
    requires lo == 0.0 && hi == 100.0
    ensures lo <= x <= hi ==> lo <= Round2(x) <= hi
  {
    if lo <= x <= hi {
      var n := Round(x * 100.0);
      assert n as real - 0.5 <= x * 100.0 < n as real + 0.5;
      assert 0 <= n <= 10000;
    }
  }

  /** The grade comes from the unrounded score: a project scoring 84.996 is
      stored with overall 85 but graded good. */
  lemma GradeBeforeRounding()
    ensures Round2(84.996) == 85.0 && GradeOf(84.996) == Good && GradeOf(85.0) == Excellent
  {
    assert Round(8499.6) == 8500;
  }

  /** A project at 40% completion, with a critical risk level, a cash impact of
      9, no pattern and no decision: the velocity and decision-quality
      components fall back to 50, and so does the risk component, so the
      overall score is 53 and the grade is warning. */
  lemma CriticalRiskExample(p: Project)
    requires p.completion == 40.0 && p.riskLevel == Some(Critical) && p.cashImpact == 9.0
    ensures var h := ProjectHealth(Some(Snapshot(p, [], [], [], [], [], [])));
      h.Some? && h.value.riskScore == 50.0 && h.value.overall == 53.0 && h.value.grade == Warning
  {
    var s := Snapshot(p, [], [], [], [], [], []);
    assert RawOverall(s) == 53.0;
    assert Round(5300.0) == 5300;
  }

  // ---------------------------------------------------------------------
  // Portfolio
  // ---------------------------------------------------------------------

  predicate IsHealthy(h: HealthScore) { h.overall >= 70.0 }
  predicate IsWarning(h: HealthScore) { 50.0 <= h.overall < 70.0 }
  predicate IsCritical(h: HealthScore) { h.overall < 50.0 }

  /** Every score falls in exactly one band, so the three counts add up to the
      number of projects. */
  lemma {:induction false} BandsPartition(hs: seq<HealthScore>)
    ensures CountWhere(hs, IsHealthy) + CountWhere(hs, IsWarning) + CountWhere(hs, IsCritical) == |hs|
  {
    if hs != [] {
      assert hs == [hs[0]] + hs[1..];
      FilterAppend([hs[0]], hs[1..], IsHealthy);
      FilterAppend([hs[0]], hs[1..], IsWarning);
      FilterAppend([hs[0]], hs[1..], IsCritical);
      assert [hs[0]][1..] == [];
      BandsPartition(hs[1..]);
    }
  }

  /** A history row dated at least `days` days before now. */
  predicate OldEnough(row: PortfolioRow, days: int, nowMs: int)
  {
    row.scoreDay * MsPerDay <= nowMs - days * MsPerDay
  }

  /** `calculateTrend`: the current score minus the score of the newest row
      dated at least `days` days ago; 0 when there is no history or no such row. */
  function CalculateTrend(history: Option<seq<PortfolioRow>>, days: int, current: real, nowMs: int): (t: real)
    ensures history.None? || history.value == [] ==> t == 0.0
    ensures history.Some? && (forall i :: 0 <= i < |history.value| ==> !OldEnough(history.value[i], days, nowMs))
            ==> t == 0.0
    ensures history.Some? ==>
              forall i :: 0 <= i < |history.value| && OldEnough(history.value[i], days, nowMs)
                          && (forall j :: 0 <= j < i ==> !OldEnough(history.value[j], days, nowMs))
                          ==> t == current - history.value[i].overall
  {
    if history.None? || history.value == [] then 0.0
    else
      match FindIndex(history.value, (h: PortfolioRow) => OldEnough(h, days, nowMs))
      case None => 0.0
      case Some(i) => current - history.value[i].overall
  }

  /** The greatest momentum among the candidates, starting from `best` and
      replacing it only on a strictly greater momentum (the reduce behind the
      top opportunity). */
  function MaxMomentumFrom(best: HealthScore, cands: seq<HealthScore>): (r: HealthScore)
    ensures r == best || r in cands
    ensures r.momentum >= best.momentum
    ensures forall c :: c in cands ==> c.momentum <= r.momentum
    ensures r != best ==> r.momentum > best.momentum
    decreases |cands|
  {
    if cands == [] then best
    else MaxMomentumFrom(if cands[0].momentum > best.momentum then cands[0] else best, cands[1..])
  }

  /** The reduce keeps the start value exactly when no candidate beats its
      momentum. */
  lemma {:induction false} MaxMomentumFromKeepsStart(best: HealthScore, cands: seq<HealthScore>)
    ensures MaxMomentumFrom(best, cands) == best <==> forall c :: c in cands ==> c.momentum <= best.momentum
    decreases |cands|
  {
    if cands != [] {
      var next := if cands[0].momentum > best.momentum then cands[0] else best;
      MaxMomentumFromKeepsStart(next, cands[1..]);
      assert forall c :: c in cands ==> c == cands[0] || c in cands[1..];
    }
  }

  /** Otherwise the reduce ends on the first candidate of greatest momentum:
      every candidate before it has a strictly smaller one. */
  lemma {:induction false} MaxMomentumFromIsFirst(best: HealthScore, cands: seq<HealthScore>)
    ensures var r := MaxMomentumFrom(best, cands);
      r != best ==> exists i :: (0 <= i < |cands| && cands[i] == r
                                 && forall j :: 0 <= j < i ==> cands[j].momentum < r.momentum)
    decreases |cands|
  {
    if cands != [] {
      var next := if cands[0].momentum > best.momentum then cands[0] else best;
      var rest := cands[1..];
      MaxMomentumFromIsFirst(next, rest);
      var r := MaxMomentumFrom(next, rest);
      assert MaxMomentumFrom(best, cands) == r;
      if r != next {
        var k :| 0 <= k < |rest| && rest[k] == r && forall j :: 0 <= j < k ==> rest[j].momentum < r.momentum;
        assert cands[k + 1] == r;
        forall j | 0 <= j < k + 1
          ensures cands[j].momentum < r.momentum
        {
          if j > 0 {
            assert cands[j] == rest[j - 1];
          }
        }
      } else if next != best {
        assert cands[0] == r;
      }
    }
  }

  predicate BelowEighty(h: HealthScore) { h.overall < 80.0 }

  /** `Promise.all(projects.map(p => calculateProjectHealth(p.id)))`: the
      health of each project, in project order. */
  function ProjectHealths(ps: seq<Snapshot>): (hs: seq<HealthScore>)
    ensures |hs| == |ps|
    ensures forall i :: 0 <= i < |ps| ==> ProjectHealth(Some(ps[i])) == Some(hs[i])
  {
    seq(|ps|, i requires 0 <= i < |ps| => ProjectHealth(Some(ps[i])).value)
  }

  /** The history query's `limit(30)`: the 30 newest stored rows, or none
      when the query failed. */
  function RecentHistory(history: Option<seq<PortfolioRow>>): (r: Option<seq<PortfolioRow>>)
    ensures r.Some? <==> history.Some?
    ensures r.Some? ==> |r.value| <= 30 && r.value <= history.value
    ensures r.Some? && |history.value| >= 30 ==> |r.value| == 30
  {
    if history.Some? then Some(Take(history.value, 30)) else None
  }

  /** What a portfolio record states about the health scores `hs` of the
      active projects: their count, the rounded mean, the three bands, the
      trends against the history, the first project with the lowest score
      as the concern, and as the opportunity the reduce over the projects
      under 80 that starts from the first project: that project unless one
      under 80 strictly beats it, else the first one under 80 with the
      greatest momentum. */
  predicate Summarises(r: PortfolioHealth, hs: seq<HealthScore>, history: Option<seq<PortfolioRow>>, nowMs: int)
    requires |hs| > 0
  {
    var mean := Mean(OverallScores(hs));
    && r.projectsCount == |hs|
    && r.overall == Round2(mean)
    && r.healthy == CountWhere(hs, IsHealthy)
    && r.warning == CountWhere(hs, IsWarning)
    && r.critical == CountWhere(hs, IsCritical)
    && r.trend7d == Round2(CalculateTrend(RecentHistory(history), 7, mean, nowMs))
    && r.trend30d == Round2(CalculateTrend(RecentHistory(history), 30, mean, nowMs))
    && (exists k :: 0 <= k < |hs| && r.topConcern == Some(hs[k].projectId)
                    && (forall j :: 0 <= j < |hs| ==> hs[k].overall <= hs[j].overall)
                    && (forall j :: 0 <= j < k ==> hs[k].overall < hs[j].overall))
    && (var o := MaxMomentumFrom(hs[0], Filter(hs, BelowEighty));
        r.topOpportunity == Some(o.projectId)
        && o in hs && (o == hs[0] || o.overall < 80.0)
        && o.momentum >= hs[0].momentum
        && (forall h :: h in hs && h.overall < 80.0 ==> h.momentum <= o.momentum))
  }

  /** The portfolio record of a non-empty list of project health scores. */
  function PortfolioFrom(hs: seq<HealthScore>, history: Option<seq<PortfolioRow>>, nowMs: int)
    : (r: PortfolioHealth)
    requires |hs| > 0
    ensures Summarises(r, hs, history, nowMs)
    ensures r.healthy + r.warning + r.critical == |hs|
  {
    var mean := Mean(OverallScores(hs));
    var recent := RecentHistory(history);
    var k := FirstMinIndex(OverallScores(hs));
    var opportunity := MaxMomentumFrom(hs[0], Filter(hs, BelowEighty));
    BandsPartition(hs);
    TopConcernIsFirstLowest(hs);
    TopOpportunityHasHighestMomentum(hs);
    PortfolioHealth(Round2(mean), |hs|,
                    CountWhere(hs, IsHealthy), CountWhere(hs, IsWarning), CountWhere(hs, IsCritical),
                    Round2(CalculateTrend(recent, 7, mean, nowMs)),
                    Round2(CalculateTrend(recent, 30, mean, nowMs)),
                    Some(hs[k].projectId), Some(opportunity.projectId))
  }

  /** `calculatePortfolioHealth` over the health of each active project and the
      stored portfolio history (newest first); the concern and the opportunity
      are given by project id. */
  function PortfolioHealthOf(projects: Option<seq<Snapshot>>, history: Option<seq<PortfolioRow>>, nowMs: int)
    : (r: PortfolioHealth)
    ensures projects.None? || projects.value == [] ==>
      r == PortfolioHealth(0.0, 0, 0, 0, 0, 0.0, 0.0, None, None)
    ensures projects.Some? ==> r.projectsCount == |projects.value|
    ensures r.healthy + r.warning + r.critical == r.projectsCount
    ensures projects.Some? && projects.value != [] ==>
      Summarises(r, ProjectHealths(projects.value), history, nowMs)
  {
    if projects.None? || projects.value == [] then PortfolioHealth(0.0, 0, 0, 0, 0, 0.0, 0.0, None, None)
    else
      var hs := ProjectHealths(projects.value);
      PortfolioFrom(hs, history, nowMs)
  }

  /** The top concern is the first project with the lowest overall score. */
  lemma TopConcernIsFirstLowest(hs: seq<HealthScore>)
    requires |hs| > 0
    ensures var k := FirstMinIndex(OverallScores(hs));
      (forall j :: 0 <= j < |hs| ==> hs[k].overall <= hs[j].overall)
      && (forall j :: 0 <= j < k ==> hs[k].overall < hs[j].overall)
  {
  }

  /** The top opportunity is the first project or one scoring under 80, and
      its momentum is at least that of every project scoring under 80. */
  lemma TopOpportunityHasHighestMomentum(hs: seq<HealthScore>)
    requires |hs| > 0
    ensures var o := MaxMomentumFrom(hs[0], Filter(hs, BelowEighty));
      o in hs && (o == hs[0] || o.overall < 80.0)
      && forall h :: h in hs && h.overall < 80.0 ==> h.momentum <= o.momentum
  {
  }

  // ---------------------------------------------------------------------
  // Persistence
  // ---------------------------------------------------------------------

  /** `saveHealthScore`: upsert keyed on (project, day of the run). */
  method SaveHealthScore(table: KeyedTable<(string, int), HealthScore>, h: HealthScore, nowMs: int)
    modifies table
    ensures table.rows == old(table.rows)[(h.projectId, Day(nowMs)) := h]
  {
    table.Upsert((h.projectId, Day(nowMs)), h);
  }

  /** `savePortfolioHealth`: upsert keyed on the day of the run. */
  method SavePortfolioHealth(table: KeyedTable<int, PortfolioHealth>, p: PortfolioHealth, nowMs: int)
    modifies table
    ensures table.rows == old(table.rows)[Day(nowMs) := p]
  {
    table.Upsert(Day(nowMs), p);
  }
}
