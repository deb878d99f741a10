/**
 * Completion forecasting: the days left at the current 30-day velocity, an
 * optimistic and a pessimistic variant of them, and a confidence level taken
 * from the velocity trend.
 */
module Completion {
  import opened Basics
  import opened Records
  import opened Tables

  datatype Forecast = Forecast(
    projectId: string,
    currentCompletion: real,
    predictedDay: int,
    optimisticDay: int,
    realisticDay: int,
    pessimisticDay: int,
    confidence: int,
    velocityAssumption: real,
    blockersAssumed: int)

  /** The confidence level for a velocity trend. */
  function TrendConfidence(t: Trend): int
  {
    match t
    case Stable => 75
    case Accelerating => 80
    case Decelerating => 50
    case Stagnant => 30
    case OtherTrend => 60
  }

  /** The confidence as the source computes it: a baseline of 60 overwritten
      by each matching trend test in turn. */
  method ConfidenceLevel(t: Trend) returns (level: int)
    ensures level == TrendConfidence(t)
    ensures 30 <= level <= 80
  {
    level := 60;
    if t == Stable { level := 75; }
    if t == Accelerating { level := 80; }
    if t == Decelerating { level := 50; }
    if t == Stagnant { level := 30; }
  }

  function TrendOrder(t: Trend): int
  {
    match t
    case Stagnant => 0
    case Decelerating => 1
    case OtherTrend => 2
    case Stable => 3
    case Accelerating => 4
  }

  /** A better trend never lowers the confidence; an unknown trend sits
      between decelerating and stable. */
  lemma ConfidenceFollowsTrend(t1: Trend, t2: Trend)
    requires TrendOrder(t1) <= TrendOrder(t2)
    ensures TrendConfidence(t1) <= TrendConfidence(t2)
  {
  }

  /** `forecastProjectCompletion`: no forecast for a missing or finished
      project, a missing pattern analysis or a non-positive velocity. */
  function ForecastOf(s: Option<Snapshot>, nowMs: int): (r: Option<Forecast>)
    ensures r.None? <==>
      s.None? || s.value.project.completion == 100.0 || s.value.patterns == []
      || s.value.patterns[0].velocity30d / 30.0 <= 0.0
    ensures r.Some? ==>
      var p, pa := s.value.project, s.value.patterns[0];
      r.value.projectId == p.id && r.value.currentCompletion == p.completion
      && r.value.velocityAssumption == pa.velocity30d / 30.0 && r.value.velocityAssumption > 0.0
      && r.value.blockersAssumed == pa.blockersCount
      && r.value.confidence == TrendConfidence(pa.trend)
      && r.value.predictedDay == r.value.realisticDay
      && var days := (100.0 - p.completion) / r.value.velocityAssumption;
         r.value.realisticDay == DayAfterDays(nowMs, days)
         && r.value.optimisticDay == DayAfterDays(nowMs, days * 0.8)
         && r.value.pessimisticDay == DayAfterDays(nowMs, days * 1.4)
  {
    if s.None? || s.value.project.completion == 100.0 || s.value.patterns == [] then None
    else
      var p, pa := s.value.project, s.value.patterns[0];
      var daily := pa.velocity30d / 30.0;
      if daily <= 0.0 then None
      else
        var days := (100.0 - p.completion) / daily;
        var realistic := DayAfterDays(nowMs, days);
        Some(Forecast(p.id, p.completion, realistic, DayAfterDays(nowMs, days * 0.8), realistic,
                      DayAfterDays(nowMs, days * 1.4), TrendConfidence(pa.trend), daily, pa.blockersCount))
  }

  /** For an unfinished project the optimistic date is never after the
      realistic one, which is never after the pessimistic one, and none is
      before today. */
  lemma ScenarioOrder(s: Snapshot, nowMs: int)
    requires s.project.completion < 100.0
    requires ForecastOf(Some(s), nowMs).Some?
    ensures var f := ForecastOf(Some(s), nowMs).value;
      Day(nowMs) <= f.optimisticDay <= f.realisticDay <= f.pessimisticDay
  {
    var daily := s.patterns[0].velocity30d / 30.0;
    var days := (100.0 - s.project.completion) / daily;
    assert days > 0.0;
    DayAfterDaysMonotone(nowMs, days * 0.8, days);
    DayAfterDaysMonotone(nowMs, days, days * 1.4);
  }

  /** Past completion (above 100) the remaining days are negative and the
      scenarios run backwards: the optimistic date is the latest. */
  lemma OverCompleteRunsBackwards(s: Snapshot, nowMs: int)
    requires s.project.completion > 100.0
    requires ForecastOf(Some(s), nowMs).Some?
    ensures var f := ForecastOf(Some(s), nowMs).value;
      f.pessimisticDay <= f.realisticDay <= f.optimisticDay
  {
    var daily := s.patterns[0].velocity30d / 30.0;
    var days := (100.0 - s.project.completion) / daily;
    assert days < 0.0;
    DayAfterDaysMonotone(nowMs, days, days * 0.8);
    DayAfterDaysMonotone(nowMs, days * 1.4, days);
  }

  predicate Unfinished(s: Snapshot)
  {
    s.project.completion < 100.0
  }

  /** The forecast of each project, in project order. */
  function ForecastsOf(ps: seq<Snapshot>, nowMs: int): (fs: seq<Option<Forecast>>)
    ensures |fs| == |ps|
    ensures forall i :: 0 <= i < |ps| ==> fs[i] == ForecastOf(Some(ps[i]), nowMs)
  {
    seq(|ps|, i requires 0 <= i < |ps| => ForecastOf(Some(ps[i]), nowMs))
  }

  lemma ForecastsOfMembers(ps: seq<Snapshot>, nowMs: int, f: Forecast)
    ensures Some(f) in ForecastsOf(ps, nowMs) <==> exists s :: s in ps && ForecastOf(Some(s), nowMs) == Some(f)
  {
    var fs := ForecastsOf(ps, nowMs);
    if Some(f) in fs {
      var i :| 0 <= i < |fs| && fs[i] == Some(f);
      assert ps[i] in ps;
    }
    if exists s :: s in ps && ForecastOf(Some(s), nowMs) == Some(f) {
      var s :| s in ps && ForecastOf(Some(s), nowMs) == Some(f);
      var i :| 0 <= i < |ps| && ps[i] == s;
      assert fs[i] == Some(f);
    }
  }

  /** `forecastAllProjectsCompletion`: the forecasts of the active projects
      under 100 %, without the missing ones; no project list gives []. */
  function AllForecasts(projects: Option<seq<Snapshot>>, nowMs: int): (r: seq<Forecast>)
    ensures projects.None? ==> r == []
    ensures projects.Some? ==> |r| <= |projects.value|
    ensures projects.Some? ==> forall f :: f in r <==>
      exists s :: s in projects.value && Unfinished(s) && ForecastOf(Some(s), nowMs) == Some(f)
  {
    if projects.None? then []
    else
      var ps := Filter(projects.value, Unfinished);
      forall f ensures Some(f) in ForecastsOf(ps, nowMs) <==> exists s :: s in ps && ForecastOf(Some(s), nowMs) == Some(f) {
        ForecastsOfMembers(ps, nowMs, f);
      }
      Somes(ForecastsOf(ps, nowMs))
  }

  /** `saveCompletionForecast`: one row per project and forecast day. */
  method SaveCompletionForecast(table: KeyedTable<(string, int), Forecast>, f: Forecast, nowMs: int)
    modifies table
    ensures table.rows == old(table.rows)[(f.projectId, Day(nowMs)) := f]
  {
    table.Upsert((f.projectId, Day(nowMs)), f);
  }
}
