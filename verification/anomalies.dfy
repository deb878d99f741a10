/**
 * Anomaly detection: four threshold rules over the recent health scores,
 * pattern analyses and risks of a project, run in a fixed order, and the
 * de-duplicating write that keeps at most one open anomaly per project and
 * type.
 */
module Anomalies {
  import opened Basics
  import opened Records

  datatype AnomalyType = VelocityDrop | VelocitySpike | Stagnation | HealthDrop | RiskSpike

  datatype Anomaly = Anomaly(
    projectId: string,
    kind: AnomalyType,
    severity: Level,
    baseline: real,
    current: real,
    deviation: real,
    isPositive: bool)

  /** Position of each rule in the detection order. */
  function RuleRank(t: AnomalyType): int
  {
    match t
    case VelocityDrop => 0
    case VelocitySpike => 0
    case Stagnation => 1
    case HealthDrop => 2
    case RiskSpike => 3
  }

  /** `calculateBaseline` (overall part): the mean overall score of the rows,
      or nothing for no rows. */
  function Baseline(rows: seq<HealthScore>): (b: Option<real>)
    ensures b.None? <==> rows == []
    ensures b.Some? ==> b.value * |rows| as real == SumReals(OverallScores(rows))
  {
    if rows == [] then None else Some(Mean(OverallScores(rows)))
  }

  /** Relative change of the 7-day velocity in percent, against the previous
      value or against 1 when the previous value is 0. */
  function VelocityChange(current: real, previous: real): real
  {
    (current - previous) / (if previous == 0.0 then 1.0 else previous) * 100.0
  }

  function Abs(x: real): (r: real)
    ensures r >= 0.0 && (r == x || r == -x)
  {
    if x < 0.0 then -x else x
  }

  /** `detectVelocityAnomaly` on the two newest pattern analyses. */
  function DetectVelocityAnomaly(pid: string, history: seq<PatternAnalysis>): (r: Option<Anomaly>)
    ensures |history| < 2 ==> r.None?
    ensures |history| >= 2 ==>
      var change := VelocityChange(history[0].velocity7d, history[1].velocity7d);
      (r.Some? <==> Abs(change) > 40.0)
      && (r.Some? ==> r.value.kind == (if change < 0.0 then VelocityDrop else VelocitySpike)
                      && (r.value.severity == Critical <==> Abs(change) > 60.0)
                      && r.value.severity in {High, Critical}
                      && r.value.isPositive == (change > 0.0))
    ensures |history| >= 2 && history[1].velocity7d > 0.0 ==>
      var cur, prev := history[0].velocity7d, history[1].velocity7d;
      (r.Some? <==> cur > prev * 1.4 || cur < prev * 0.6)
      && (r.Some? ==> (r.value.kind == VelocityDrop <==> cur < prev))
  {
    if |history| < 2 then None
    else
      var cur, prev := history[0].velocity7d, history[1].velocity7d;
      var change := VelocityChange(cur, prev);
      ChangeAgainstPrevious(cur, prev);
      if Abs(change) > 40.0 then
        Some(Anomaly(pid, if change < 0.0 then VelocityDrop else VelocitySpike,
                     if Abs(change) > 60.0 then Critical else High,
                     prev, cur, Abs(change), change > 0.0))
      else None
  }

  /** For a positive previous velocity the percentage thresholds are plain
      proportions of it. */
  lemma ChangeAgainstPrevious(cur: real, prev: real)
    ensures prev > 0.0 ==>
      (Abs(VelocityChange(cur, prev)) > 40.0 <==> cur > prev * 1.4 || cur < prev * 0.6)
      && (VelocityChange(cur, prev) < 0.0 <==> cur < prev)
  {
    if prev > 0.0 {
      var change := VelocityChange(cur, prev);
      var q := (cur - prev) / prev;
      assert q * prev == cur - prev;
      assert change == q * 100.0;
      assert Abs(change) > 40.0 <==> q > 0.4 || q < -0.4;
      RatioThreshold(q, 0.4, cur, prev);
      RatioThreshold(q, -0.4, cur, prev);
      RatioThreshold(q, 0.0, cur, prev);
    }
  }

  /** A relative change `q` against a positive previous value crosses a
      threshold `t` exactly when the current value crosses `prev × (1 + t)`. */
  lemma RatioThreshold(q: real, t: real, cur: real, prev: real)
    requires prev > 0.0 && q * prev == cur - prev
    ensures q > t <==> cur > prev * (1.0 + t)
    ensures q < t <==> cur < prev * (1.0 + t)
  {
    ScaleOrder(q, t, prev);
    ScaleOrder(t, q, prev);
    assert prev * (1.0 + t) == prev + t * prev;
  }

  lemma ScaleOrder(a: real, b: real, c: real)
    requires c > 0.0
    ensures a > b <==> a * c > b * c
  {
    assert a * c - b * c == (a - b) * c;
  }

  /** `detectStagnation`: more than 14 days without activity in the newest
      pattern analysis. */
  function DetectStagnation(pid: string, history: seq<PatternAnalysis>): (r: Option<Anomaly>)
    ensures r.Some? <==> |history| > 0 && history[0].lastActivityDays > 14
    ensures r.Some? ==> r.value.kind == Stagnation && !r.value.isPositive && r.value.baseline == 7.0
    ensures r.Some? ==> (r.value.severity == Critical <==> history[0].lastActivityDays > 30)
    ensures r.Some? ==> r.value.severity in {High, Critical}
  {
    if |history| == 0 then None
    else
      var days := history[0].lastActivityDays;
      if days > 14 then
        Some(Anomaly(pid, Stagnation, if days > 30 then Critical else High,
                     7.0, days as real, (days as real - 7.0) / 7.0 * 100.0, false))
      else None
  }

  /** `detectHealthDrop`: the current overall score is more than 15 points
      under the baseline. */
  function DetectHealthDrop(pid: string, current: HealthScore, baseline: Option<real>): (r: Option<Anomaly>)
    ensures r.Some? <==> baseline.Some? && baseline.value - current.overall > 15.0
    ensures r.Some? ==> r.value.kind == HealthDrop && !r.value.isPositive
    ensures r.Some? ==>
      var drop := baseline.value - current.overall;
      (r.value.severity == Critical <==> drop > 30.0)
      && (r.value.severity == High <==> 20.0 < drop <= 30.0)
      && (r.value.severity == Medium <==> drop <= 20.0)
  {
    if baseline.None? then None
    else
      var b := baseline.value;
      var drop := b - current.overall;
      if drop > 15.0 then
        Some(Anomaly(pid, HealthDrop, if drop > 30.0 then Critical else if drop > 20.0 then High else Medium,
                     b, current.overall, if b == 0.0 then 0.0 else drop / b * 100.0, false))
      else None
  }

  predicate CreatedSince(r: RiskRow, cutoffMs: int)
  {
    r.createdMs >= cutoffMs
  }

  /** `detectRiskSpike`: more than two risks created in the last 7 days. */
  function DetectRiskSpike(pid: string, risks: seq<RiskRow>, nowMs: int): (r: Option<Anomaly>)
    ensures var n := CountWhere(risks, (x: RiskRow) => CreatedSince(x, nowMs - 7 * MsPerDay));
      (r.Some? <==> n > 2)
      && (r.Some? ==> r.value.kind == RiskSpike && r.value.current == n as real
                      && (r.value.severity == Critical <==> n > 4) && r.value.severity in {High, Critical})
  {
    var n := CountWhere(risks, (x: RiskRow) => CreatedSince(x, nowMs - 7 * MsPerDay));
    if n > 2 then
      Some(Anomaly(pid, RiskSpike, if n > 4 then Critical else High, 1.0, n as real,
                   (n as real - 1.0) / 1.0 * 100.0, false))
    else None
  }

  /** `healthHistory.slice(1, 8)`: the up to seven scores before the current one. */
  function BaselineWindow(health: seq<HealthScore>): (w: seq<HealthScore>)
    requires |health| >= 1
    ensures |w| == if |health| < 8 then |health| - 1 else 7
    ensures forall i :: 0 <= i < |w| ==> w[i] == health[i + 1]
  {
    health[1..if |health| < 8 then |health| else 8]
  }

  /** The four rule results in detection order. */
  function Candidates(s: Snapshot, nowMs: int): seq<Option<Anomaly>>
    requires |s.health| >= 2
  {
    var pid := s.project.id;
    [ if |s.patterns| >= 2 then DetectVelocityAnomaly(pid, s.patterns) else None,
      DetectStagnation(pid, s.patterns),
      DetectHealthDrop(pid, s.health[0], Baseline(BaselineWindow(s.health))),
      DetectRiskSpike(pid, s.risks, nowMs) ]
  }

  /** What `detectAnomalies` returns: nothing for a missing project or fewer
      than two health scores, otherwise every rule that fired, in order. */
  function AnomaliesOf(s: Option<Snapshot>, nowMs: int): (r: seq<Anomaly>)
    ensures s.None? || |s.value.health| < 2 ==> r == []
    ensures |r| <= 4
    ensures forall i, j :: 0 <= i < j < |r| ==> RuleRank(r[i].kind) < RuleRank(r[j].kind)
    ensures s.Some? && |s.value.health| >= 2 ==>
      var snap, pid := s.value, s.value.project.id;
      forall a :: a in r <==>
        (|snap.patterns| >= 2 && DetectVelocityAnomaly(pid, snap.patterns) == Some(a))
        || DetectStagnation(pid, snap.patterns) == Some(a)
        || DetectHealthDrop(pid, snap.health[0], Baseline(BaselineWindow(snap.health))) == Some(a)
        || DetectRiskSpike(pid, snap.risks, nowMs) == Some(a)
  {
    if s.None? || |s.value.health| < 2 then []
    else
      var c := Candidates(s.value, nowMs);
      SomesKeepOrder(c, (a: Anomaly) => RuleRank(a.kind));
      Somes(c)
  }

  /** `detectAnomalies`: the rules run in order, each pushing its anomaly when
      it fires. */
  method DetectAnomalies(s: Option<Snapshot>, nowMs: int) returns (anomalies: seq<Anomaly>)
    ensures anomalies == AnomaliesOf(s, nowMs)
    ensures |anomalies| <= 4
  {
    anomalies := [];
    if s.None? { return; }
    var snap := s.value;
    if |snap.health| < 2 { return; }
    var pid := snap.project.id;
    var current := snap.health[0];
    var baseline := Baseline(BaselineWindow(snap.health));
    var velocity := if |snap.patterns| >= 2 then DetectVelocityAnomaly(pid, snap.patterns) else None;
    anomalies := PushPresent(anomalies, velocity);
    var stagnation := DetectStagnation(pid, snap.patterns);
    anomalies := PushPresent(anomalies, stagnation);
    var healthDrop := DetectHealthDrop(pid, current, baseline);
    anomalies := PushPresent(anomalies, healthDrop);
    var riskSpike := DetectRiskSpike(pid, snap.risks, nowMs);
    anomalies := PushPresent(anomalies, riskSpike);
    SomesOfFour(velocity, stagnation, healthDrop, riskSpike);
    assert [] + ToSeq(velocity) == ToSeq(velocity);
  }

  /** A project with at least two health scores whose newest pattern records
      35 idle days gets a critical stagnation anomaly. */
  lemma LongInactivityIsCriticalStagnation(s: Snapshot, nowMs: int)
    requires |s.health| >= 2 && |s.patterns| > 0 && s.patterns[0].lastActivityDays == 35
    ensures exists a :: a in AnomaliesOf(Some(s), nowMs) && a.kind == Stagnation && a.severity == Critical
  {
    var c := Candidates(s, nowMs);
    var a := DetectStagnation(s.project.id, s.patterns).value;
    assert Some(a) in c by { assert c[1] == Some(a); }
  }

  /** `detectAllAnomalies`: the per-project results, concatenated; no
      project list gives []. */
  function AllAnomalies(projects: Option<seq<Snapshot>>, nowMs: int): (r: seq<Anomaly>)
    ensures projects.None? ==> r == []
    ensures projects.Some? ==> |r| <= 4 * |projects.value|
    ensures projects.Some? ==> forall a :: a in r <==>
      exists i :: 0 <= i < |projects.value| && a in AnomaliesOf(Some(projects.value[i]), nowMs)
  {
    if projects.None? then []
    else
      var ps := projects.value;
      var per := seq(|ps|, i requires 0 <= i < |ps| => AnomaliesOf(Some(ps[i]), nowMs));
      FlattenBound(per, 4);
      assert forall a :: a in Flatten(per) <==> exists i :: 0 <= i < |ps| && a in AnomaliesOf(Some(ps[i]), nowMs) by {
        forall a ensures a in Flatten(per) <==> exists i :: 0 <= i < |per| && a in per[i] {
          FlattenMember(per, a);
        }
        assert forall i :: 0 <= i < |ps| ==> per[i] == AnomaliesOf(Some(ps[i]), nowMs);
      }
      Flatten(per)
  }

  // ---------------------------------------------------------------------
  // The anomalies table
  // ---------------------------------------------------------------------

  datatype StoredAnomaly = StoredAnomaly(anomaly: Anomaly, resolved: bool)

  predicate IsOpen(r: StoredAnomaly, pid: string, kind: AnomalyType)
  {
    !r.resolved && r.anomaly.projectId == pid && r.anomaly.kind == kind
  }

  predicate HasOpen(rows: seq<StoredAnomaly>, pid: string, kind: AnomalyType)
  {
    exists i :: 0 <= i < |rows| && IsOpen(rows[i], pid, kind)
  }

  /** No two unresolved rows share a project and a type. */
  predicate AtMostOneOpen(rows: seq<StoredAnomaly>)
  {
    forall i, j :: 0 <= i < j < |rows| && !rows[i].resolved && !rows[j].resolved ==>
      rows[i].anomaly.projectId != rows[j].anomaly.projectId || rows[i].anomaly.kind != rows[j].anomaly.kind
  }

  /** The table after `saveAnomaly(a)`. */
  function AfterSave(rows: seq<StoredAnomaly>, a: Anomaly): seq<StoredAnomaly>
  {
    if HasOpen(rows, a.projectId, a.kind) then rows else rows + [StoredAnomaly(a, false)]
  }

  lemma SaveKeepsAtMostOneOpen(rows: seq<StoredAnomaly>, a: Anomaly)
    requires AtMostOneOpen(rows)
    ensures AtMostOneOpen(AfterSave(rows, a))
  {
  }

  /** Saving the same anomaly again changes nothing. */
  lemma SaveIdempotent(rows: seq<StoredAnomaly>, a: Anomaly)
    ensures AfterSave(AfterSave(rows, a), a) == AfterSave(rows, a)
  {
    if !HasOpen(rows, a.projectId, a.kind) {
      var n := AfterSave(rows, a);
      assert IsOpen(n[|rows|], a.projectId, a.kind);
    }
  }

  /** After a save there is an open anomaly of that project and type, and at
      most one row was added. */
  lemma SaveLeavesOneOpen(rows: seq<StoredAnomaly>, a: Anomaly)
    ensures HasOpen(AfterSave(rows, a), a.projectId, a.kind)
    ensures |rows| <= |AfterSave(rows, a)| <= |rows| + 1
    ensures AfterSave(rows, a)[..|rows|] == rows
  {
    var n := AfterSave(rows, a);
    if !HasOpen(rows, a.projectId, a.kind) {
      assert IsOpen(n[|rows|], a.projectId, a.kind);
    }
  }

  class AnomalyTable {
    var rows: seq<StoredAnomaly>

    ghost predicate Valid()
      reads this
    {
      AtMostOneOpen(rows)
    }

    constructor ()
      ensures Valid() && rows == []
    {
      rows := [];
    }

    /** `saveAnomaly`: looks for an unresolved row of the same project and
        type and inserts the anomaly only when there is none. */
    method Save(a: Anomaly)
      requires Valid()
      modifies this
      ensures Valid()
      ensures rows == AfterSave(old(rows), a)
    {
      var i := 0;
      var found := false;
      while i < |rows| && !found
        invariant 0 <= i <= |rows|
        invariant found ==> HasOpen(rows, a.projectId, a.kind)
        invariant !found ==> forall k :: 0 <= k < i ==> !IsOpen(rows[k], a.projectId, a.kind)
      {
        found := IsOpen(rows[i], a.projectId, a.kind);
        i := i + 1;
      }
      if !found {
        rows := rows + [StoredAnomaly(a, false)];
      }
      SaveKeepsAtMostOneOpen(old(rows), a);
    }
  }
}
