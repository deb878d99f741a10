/**
 * Pattern analysis of one project: linear velocities, the velocity trend, the
 * recurring blockers, the decision cadence, the days since the last event and
 * the clamped momentum score built from all of them.
 */
module Patterns {
  import opened Basics
  import opened Records

  /** Progress over `days` days, extrapolated from the completion reached as if
      it had been earned over the last 30 days. */
  function Velocity(completion: real, days: real): (v: real)
    ensures v * 30.0 == completion * days
  {
    completion / 30.0 * days
  }

  /** The two windows the analysis uses: the 30-day velocity is the completion
      itself and the 7-day velocity is 7/30 of it. */
  lemma VelocityWindows(completion: real)
    ensures Velocity(completion, 30.0) == completion
    ensures Velocity(completion, 7.0) * 30.0 == 7.0 * completion
  {
  }

  /** The trend compares the 7-day velocity with the weekly share of the
      30-day velocity (30 days being taken as 4.3 weeks).  A zero 30-day
      velocity makes the ratio infinite, of the sign of the 7-day velocity. */
  function TrendOf(v7: real, v30: real): (t: Trend)
    ensures t != OtherTrend
    ensures t == Stagnant <==> v7 == 0.0 && v30 == 0.0
    ensures v30 > 0.0 ==> (t == Accelerating <==> v7 * 4.3 > 1.2 * v30)
    ensures v30 > 0.0 ==> (t == Decelerating <==> v7 * 4.3 < 0.8 * v30)
    ensures v30 == 0.0 && v7 != 0.0 ==> (t == Accelerating <==> v7 > 0.0)
    ensures v30 == 0.0 && v7 != 0.0 ==> (t == Decelerating <==> v7 < 0.0)
  {
    if v7 == 0.0 && v30 == 0.0 then Stagnant
    else if v30 == 0.0 then (if v7 > 0.0 then Accelerating else Decelerating)
    else
      var ratio := v7 / (v30 / 4.3);
      RatioAgainst(v7, v30, 1.2);
      RatioAgainst(v7, v30, 0.8);
      if ratio > 1.2 then Accelerating
      else if ratio < 0.8 then Decelerating
      else Stable
  }

  /** For a positive 30-day velocity, comparing the ratio with a threshold is
      comparing the two sides multiplied out. */
  lemma RatioAgainst(v7: real, v30: real, k: real)
    requires v30 != 0.0
    ensures v30 > 0.0 ==> (v7 / (v30 / 4.3) > k <==> v7 * 4.3 > k * v30)
    ensures v30 > 0.0 ==> (v7 / (v30 / 4.3) < k <==> v7 * 4.3 < k * v30)
  {
    var ratio := v7 / (v30 / 4.3);
    assert ratio * v30 == v7 * 4.3;
    assert ratio * v30 - k * v30 == (ratio - k) * v30;
  }

  /** The thresholds are strict: a ratio of exactly 1.2 or 0.8 is stable. */
  lemma BoundaryRatiosAreStable(v30: real)
    requires v30 > 0.0
    ensures TrendOf(1.2 * v30 / 4.3, v30) == Stable
    ensures TrendOf(0.8 * v30 / 4.3, v30) == Stable
  {
  }

  /** With the linear velocities the ratio is always 7·4.3/30 (about 1.0033):
      any started project is stable and an unstarted one stagnant. */
  lemma {:induction false} AnalysedTrend(completion: real)
    ensures TrendOf(Velocity(completion, 7.0), Velocity(completion, 30.0))
            == if completion == 0.0 then Stagnant else Stable
  {
    var v7, v30 := Velocity(completion, 7.0), Velocity(completion, 30.0);
    VelocityWindows(completion);
    assert v7 * 4.3 == 30.1 / 30.0 * v30;
    if v30 > 0.0 {
      assert 0.8 * v30 <= v7 * 4.3 <= 1.2 * v30;
    } else if v30 < 0.0 {
      assert v30 / 4.3 != 0.0;
      assert v7 / (v30 / 4.3) == 30.1 / 30.0;
    }
  }

  // ---------------------------------------------------------------------
  // Momentum
  // ---------------------------------------------------------------------

  /** `v7 / (v30 / 4.3 || 1)`: a zero weekly average falls back to 1. */
  function MomentumRatio(v7: real, v30: real): real
  {
    var weekly := v30 / 4.3;
    v7 / (if weekly == 0.0 then 1.0 else weekly)
  }

  /** Velocity contribution, from −20 to +30 points; every threshold is
      strict, so a ratio of exactly 1.5, 1.2 or 0.8 earns the lower band and
      exactly 0.5 earns nothing. */
  function VelocityPoints(ratio: real): (p: int)
    ensures -20 <= p <= 30
    ensures p == 30 <==> ratio > 1.5
    ensures p == 20 <==> 1.2 < ratio <= 1.5
    ensures p == 10 <==> 0.8 < ratio <= 1.2
    ensures p == 0 <==> 0.5 <= ratio <= 0.8
    ensures p == -20 <==> ratio < 0.5
  {
    if ratio > 1.5 then 30
    else if ratio > 1.2 then 20
    else if ratio > 0.8 then 10
    else if ratio < 0.5 then -20
    else 0
  }

  /** Decision cadence contribution, from −10 to +20 points. */
  function DecisionPoints(decisions: int): (p: int)
    ensures -10 <= p <= 20
    ensures p == 20 <==> decisions >= 6
    ensures p == 10 <==> 3 <= decisions <= 5
    ensures p == 0 <==> decisions in {1, 2} || decisions < 0
    ensures p == -10 <==> decisions == 0
  {
    if decisions > 5 then 20
    else if decisions > 2 then 10
    else if decisions == 0 then -10
    else 0
  }

  /** Inactivity penalty, from −30 to 0 points. */
  function InactivityPoints(days: int): (p: int)
    ensures -30 <= p <= 0
    ensures p == -30 <==> days >= 31
    ensures p == -15 <==> 15 <= days <= 30
    ensures p == -5 <==> 8 <= days <= 14
    ensures p == 0 <==> days <= 7
  {
    if days > 30 then -30
    else if days > 14 then -15
    else if days > 7 then -5
    else 0
  }

  /** `Math.max(lo, Math.min(hi, x))`. */
  function Clamp(x: int, lo: int, hi: int): (r: int)
    requires lo <= hi
    ensures lo <= r <= hi
    ensures lo <= x <= hi ==> r == x
    ensures x < lo ==> r == lo
    ensures x > hi ==> r == hi
  {
    if x < lo then lo else if x > hi then hi else x
  }

  /** The momentum score: baseline 50 plus the contributions, minus 10 per
      blocker, clamped to [0, 100]. */
  function Momentum(v7: real, v30: real, decisions: int, days: int, blockers: int): (m: int)
    ensures 0 <= m <= 100
  {
    Clamp(50 + VelocityPoints(MomentumRatio(v7, v30)) + DecisionPoints(decisions)
             + InactivityPoints(days) - 10 * blockers, 0, 100)
  }

  /** The score as the source computes it: one running total updated rule
      after rule, then clamped. */
  method MomentumScore(v7: real, v30: real, decisions: int, days: int, blockers: int)
    returns (score: int)
    ensures 0 <= score <= 100
    ensures score == Momentum(v7, v30, decisions, days, blockers)
  {
    score := 50;
    var weekly := v30 / 4.3;
    var ratio := v7 / (if weekly == 0.0 then 1.0 else weekly);
    if ratio > 1.5 { score := score + 30; }
    else if ratio > 1.2 { score := score + 20; }
    else if ratio > 0.8 { score := score + 10; }
    else if ratio < 0.5 { score := score - 20; }

    if decisions > 5 { score := score + 20; }
    else if decisions > 2 { score := score + 10; }
    else if decisions == 0 { score := score - 10; }

    if days > 30 { score := score - 30; }
    else if days > 14 { score := score - 15; }
    else if days > 7 { score := score - 5; }

    score := score - blockers * 10;
    score := if score < 0 then 0 else if score > 100 then 100 else score;
  }

  /** More inactivity or more blockers never raise the momentum, and more
      recent decisions never lower it. */
  lemma MomentumMonotone(v7: real, v30: real, dec1: int, dec2: int, days1: int, days2: int, b1: int, b2: int)
    requires 0 <= dec1 <= dec2 && days1 <= days2 && b1 <= b2
    ensures Momentum(v7, v30, dec2, days1, b1) >= Momentum(v7, v30, dec1, days2, b2)
  {
  }

  // ---------------------------------------------------------------------
  // Inputs read from the store
  // ---------------------------------------------------------------------

  /** `main_blocker && main_blocker !== 'Aucun' ? 1 : 0`. */
  function BlockersCount(mainBlocker: Option<string>): (n: int)
    ensures n == 1 <==> IsBlocker(mainBlocker)
    ensures n == 0 || n == 1
  {
    if IsBlocker(mainBlocker) then 1 else 0
  }

  predicate MentionsBlocker(e: Event)
  {
    Contains(Lower(e.description), "blocker")
  }

  function Descriptions(events: seq<Event>): (r: seq<string>)
    ensures |r| == |events|
    ensures forall i :: 0 <= i < |events| ==> r[i] == events[i].description
  {
    seq(|events|, i requires 0 <= i < |events| => events[i].description)
  }

  /** The ten most recent events mentioning "blocker" (any case), their
      descriptions deduplicated in order of first occurrence. */
  function RecurringBlockers(events: seq<Event>): (r: seq<string>)
    ensures |r| <= 10
    ensures NoDuplicates(r)
    ensures forall b :: b in r <==>
      exists i :: 0 <= i < |Take(Filter(events, MentionsBlocker), 10)|
                  && Take(Filter(events, MentionsBlocker), 10)[i].description == b
  {
    var recent := Take(Filter(events, MentionsBlocker), 10);
    Dedup(Descriptions(recent))
  }

  /** Decisions created within the last `days` days (inclusive cutoff). */
  function DecisionsVelocity(decisions: seq<Decision>, nowMs: int, days: int): (n: nat)
    ensures n <= |decisions|
    ensures n == |Filter(decisions, (d: Decision) => d.createdMs >= nowMs - days * MsPerDay)|
  {
    CountWhere(decisions, (d: Decision) => d.createdMs >= nowMs - days * MsPerDay)
  }

  /** Whole days since the newest event, or the sentinel 999 when there is none. */
  function LastActivityDays(events: seq<Event>, nowMs: int): (d: int)
    ensures events == [] ==> d == 999
    ensures events != [] ==>
      d * MsPerDay <= nowMs - events[0].createdMs < d * MsPerDay + MsPerDay
  {
    if events == [] then 999 else Day(nowMs - events[0].createdMs)
  }

  /** The analysis of one project; `None` when the project does not exist
      (the source throws "Project not found"). */
  function AnalyzeProjectPatterns(s: Option<Snapshot>, nowMs: int): (r: Option<PatternAnalysis>)
    ensures r.Some? <==> s.Some?
    ensures r.Some? ==> r.value.projectId == s.value.project.id
    ensures r.Some? ==> r.value.velocity30d == s.value.project.completion
    ensures r.Some? ==> r.value.trend == (if s.value.project.completion == 0.0 then Stagnant else Stable)
    ensures r.Some? ==> 0 <= r.value.momentum <= 100
    ensures r.Some? ==> |r.value.blockersRecurring| <= 10 && NoDuplicates(r.value.blockersRecurring)
    ensures r.Some? ==> (r.value.lastActivityDays == 999 <== s.value.events == [])
    ensures r.Some? ==>
      var snap, a := s.value, r.value;
      a.velocity7d == Velocity(snap.project.completion, 7.0)
      && a.blockersCount == BlockersCount(snap.project.mainBlocker)
      && a.blockersRecurring == RecurringBlockers(snap.events)
      && a.decisionsVelocity == DecisionsVelocity(snap.decisions, nowMs, 30)
      && a.lastActivityDays == LastActivityDays(snap.events, nowMs)
      && a.momentum == Momentum(a.velocity7d, a.velocity30d, a.decisionsVelocity, a.lastActivityDays, a.blockersCount)
  {
    match s
    case None => None
    case Some(snap) =>
      var c := snap.project.completion;
      var v7 := Velocity(c, 7.0);
      var v30 := Velocity(c, 30.0);
      var blockers := BlockersCount(snap.project.mainBlocker);
      var decisions := DecisionsVelocity(snap.decisions, nowMs, 30);
      var days := LastActivityDays(snap.events, nowMs);
      AnalysedTrend(c);
      VelocityWindows(c);
      Some(PatternAnalysis(snap.project.id, v7, v30, TrendOf(v7, v30), blockers,
                           RecurringBlockers(snap.events), decisions, days,
                           Momentum(v7, v30, decisions, days, blockers)))
  }

  /** One analysis per active project, in order; no project list gives []. */
  function AnalyzeAllProjectsPatterns(projects: Option<seq<Snapshot>>, nowMs: int): (r: seq<PatternAnalysis>)
    ensures projects.None? ==> r == []
    ensures projects.Some? ==> |r| == |projects.value|
    ensures projects.Some? ==> forall i :: 0 <= i < |r| ==>
      Some(r[i]) == AnalyzeProjectPatterns(Some(projects.value[i]), nowMs)
  {
    match projects
    case None => []
    case Some(ps) =>
      seq(|ps|, i requires 0 <= i < |ps| => AnalyzeProjectPatterns(Some(ps[i]), nowMs).value)
  }
}
