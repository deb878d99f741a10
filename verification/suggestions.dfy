/**
 * Smart suggestions: five recommendation rules run over every active project
 * and the portfolio, then the recommendations ordered by priority (a stable
 * sort) and cut to the ten most urgent.
 */
module Suggestions {
  import opened Basics
  import opened Steps
  import opened Records

  /** The calendar day `k` whole days after now, as `deadline_date` stores it. */
  function DeadlineIn(nowMs: int, k: int): (d: int)
    ensures d == Day(nowMs) + k
  {
    DayAfter(nowMs, k);
    Day(nowMs + k * MsPerDay)
  }

  /** `generateFocusRecommendation`: a latest health score under 60 asks for
      the CEO's focus, urgently (priority 1, a deadline in a week) under 50. */
  function FocusRecommendation(s: Snapshot, nowMs: int): (r: Option<Recommendation>)
    ensures r.Some? <==> |s.health| > 0 && s.health[0].overall < 60.0
    ensures r.Some? ==>
      var critical := s.health[0].overall < 50.0;
      r.value.category == Focus && r.value.priority == (if critical then 1 else 2)
      && r.value.impact == High && r.value.effort == ModerateEffort
      && r.value.timeSensitive == critical
      && r.value.deadlineDay == (if critical then Some(Day(nowMs) + 7) else None)
      && r.value.target == ProjectTarget(s.project.id)
      && |r.value.steps| == 5
      && r.value.steps[0] == AnalyseBlockerRootCause(OrElse(s.project.mainBlocker, "Non spécifié"))
      && r.value.confidence == 85.0 && r.value.playbookId.None?
  {
    match LatestHealth(s)
    case None => None
    case Some(h) =>
      if h.overall >= 60.0 then None
      else
        var critical := h.overall < 50.0;
        Some(Recommendation(
          Focus, if critical then 1 else 2, High, ModerateEffort, critical,
          if critical then Some(DeadlineIn(nowMs, 7)) else None,
          ProjectTarget(s.project.id),
          [AnalyseBlockerRootCause(OrElse(s.project.mainBlocker, "Non spécifié")),
           OrganiseFocusSession, IdentifyBlockingDecisions, DefineTimedActionPlan, AllocateResourcesIfNeeded],
          85.0, None))
  }

  /** A stored prediction worth acting on: active, with a probability of 60 or more. */
  predicate Actionable(p: StoredPrediction)
  {
    p.active && p.probability >= 60.0
  }

  /** The stored mitigation suggestions, as steps. */
  function TextSteps(texts: seq<string>): (r: seq<Step>)
    ensures |r| == |texts|
    ensures forall i :: 0 <= i < |r| ==> r[i] == Text(texts[i])
  {
    seq(|texts|, i requires 0 <= i < |texts| => Text(texts[i]))
  }

  /** One iteration of `generateRiskMitigationRecommendations`. */
  function MitigationRecommendation(pid: string, p: StoredPrediction, nowMs: int): (r: Option<Recommendation>)
    ensures r.Some? <==> Actionable(p)
    ensures r.Some? ==>
      r.value.category == RiskMitigation
      && r.value.priority == (if p.probability >= 75.0 then 1 else 3)
      && r.value.impact == (if p.impact == Some(Major) || p.impact == Some(Severe) then High else Medium)
      && r.value.effort == ModerateEffort && r.value.timeSensitive
      && r.value.deadlineDay == Some(DayAfterDays(nowMs, p.horizonDays as real * 0.7))
      && r.value.target == ProjectTarget(pid)
      && r.value.steps == (if p.mitigation.Some? then TextSteps(p.mitigation.value)
                           else [AnalyseRiskFactors, PrepareMitigationPlan, AllocatePreventionResources])
      && r.value.confidence == (if p.confidence.Some? && p.confidence.value != 0.0 then p.confidence.value else 70.0)
      && r.value.playbookId.None?
  {
    if !Actionable(p) then None
    else
      var steps := if p.mitigation.Some? then TextSteps(p.mitigation.value)
                   else [AnalyseRiskFactors, PrepareMitigationPlan, AllocatePreventionResources];
      var confidence := if p.confidence.Some? && p.confidence.value != 0.0 then p.confidence.value else 70.0;
      Some(Recommendation(
        RiskMitigation, if p.probability >= 75.0 then 1 else 3,
        if p.impact == Some(Major) || p.impact == Some(Severe) then High else Medium,
        ModerateEffort, true, Some(DayAfterDays(nowMs, p.horizonDays as real * 0.7)),
        ProjectTarget(pid), steps, confidence, None))
  }

  /** The mitigation recommendations of a list of stored predictions, one per
      actionable prediction, in list order. */
  function MitigationRecommendations(pid: string, preds: seq<StoredPrediction>, nowMs: int): (r: seq<Recommendation>)
    ensures |r| <= |preds|
    ensures forall x :: x in r ==>
      x.category == RiskMitigation && x.priority in {1, 3} && x.timeSensitive && x.target == ProjectTarget(pid)
    ensures forall x :: x in r <==>
      exists i :: 0 <= i < |preds| && MitigationRecommendation(pid, preds[i], nowMs) == Some(x)
  {
    if preds == [] then []
    else
      var n := |preds| - 1;
      var front := MitigationRecommendations(pid, preds[..n], nowMs);
      assert forall i :: 0 <= i < n ==> preds[..n][i] == preds[i];
      front + ToSeq(MitigationRecommendation(pid, preds[n], nowMs))
  }

  /** Every prediction's possible recommendation, in list order. */
  function MitigationOptions(pid: string, preds: seq<StoredPrediction>, nowMs: int): (r: seq<Option<Recommendation>>)
    ensures |r| == |preds|
    ensures forall i :: 0 <= i < |preds| ==> r[i] == MitigationRecommendation(pid, preds[i], nowMs)
  {
    seq(|preds|, i requires 0 <= i < |preds| => MitigationRecommendation(pid, preds[i], nowMs))
  }

  /** The mitigation recommendations keep the order of their predictions:
      they are the present entries of the per-prediction list. */
  lemma {:induction false} MitigationsInListOrder(pid: string, preds: seq<StoredPrediction>, nowMs: int)
    ensures MitigationRecommendations(pid, preds, nowMs) == Somes(MitigationOptions(pid, preds, nowMs))
  {
    if preds != [] {
      var n := |preds| - 1;
      MitigationsInListOrder(pid, preds[..n], nowMs);
      var all := MitigationOptions(pid, preds, nowMs);
      assert all == MitigationOptions(pid, preds[..n], nowMs) + [all[n]];
      SomesAppend(MitigationOptions(pid, preds[..n], nowMs), [all[n]]);
      SomesSingle(all[n]);
    }
  }

  /** Exactly one recommendation per actionable prediction. */
  lemma {:induction false} MitigationCount(pid: string, preds: seq<StoredPrediction>, nowMs: int)
    ensures |MitigationRecommendations(pid, preds, nowMs)| == CountWhere(preds, Actionable)
  {
    if preds != [] {
      var n := |preds| - 1;
      assert preds == preds[..n] + [preds[n]];
      FilterAppend(preds[..n], [preds[n]], Actionable);
      MitigationCount(pid, preds[..n], nowMs);
    }
  }

  /** `generateRiskMitigationRecommendations`: skip the inactive and unlikely
      predictions, push one recommendation for each other one. */
  method RiskMitigationRecommendations(pid: string, preds: seq<StoredPrediction>, nowMs: int)
    returns (recs: seq<Recommendation>)
    ensures recs == MitigationRecommendations(pid, preds, nowMs)
  {
    recs := [];
    if |preds| == 0 {
      return;
    }
    for i := 0 to |preds|
      invariant recs == MitigationRecommendations(pid, preds[..i], nowMs)
    {
      assert preds[..i + 1][..i] == preds[..i];
      var p := preds[i];
      if !p.active || p.probability < 60.0 {
        continue;
      }
      var rec := MitigationRecommendation(pid, p, nowMs);
      recs := recs + [rec.value];
    }
    assert preds[..|preds|] == preds;
  }

  /** `generateOpportunityRecommendation`: strong momentum on a healthy,
      unfinished project is worth accelerating within two weeks. */
  function OpportunityRecommendation(s: Snapshot, nowMs: int): (r: Option<Recommendation>)
    ensures r.Some? <==>
      |s.patterns| > 0 && |s.health| > 0 && s.patterns[0].momentum > 70
      && s.health[0].overall > 60.0 && s.project.completion < 90.0
    ensures r.Some? ==>
      r.value.category == Opportunity && r.value.priority == 2 && r.value.impact == High
      && r.value.effort == ModerateEffort && r.value.timeSensitive
      && r.value.deadlineDay == Some(Day(nowMs) + 14)
      && r.value.target == ProjectTarget(s.project.id)
      && |r.value.steps| == 5 && r.value.steps[4] == CashImpactRoi(s.project.cashImpact)
      && r.value.confidence == 75.0 && r.value.playbookId.None?
  {
    match (LatestPattern(s), LatestHealth(s))
    case (Some(pa), Some(h)) =>
      if pa.momentum > 70 && h.overall > 60.0 && s.project.completion < 90.0 then
        Some(Recommendation(
          Opportunity, 2, High, ModerateEffort, true, Some(DeadlineIn(nowMs, 14)),
          ProjectTarget(s.project.id),
          [BuildOnMomentum, RaiseAllocationTemporarily, PrioritiseForTwoWeeks, DeliverBeforeMonthEnd,
           CashImpactRoi(s.project.cashImpact)],
          75.0, None))
      else None
    case _ => None
  }

  /** `generateResourceRecommendation`: a weak project with a high cash impact
      needs a resource decision; failing that, a very weak one with a low cash
      impact may be paused.  The portfolio health the source passes in is not
      read. */
  function ResourceRecommendation(s: Snapshot): (r: Option<Recommendation>)
    ensures r.Some? <==>
      |s.health| > 0
      && ((s.health[0].overall < 55.0 && s.project.cashImpact > 7.0)
          || (s.health[0].overall < 50.0 && s.project.cashImpact < 5.0))
    ensures r.Some? ==>
      r.value.category == Resource && r.value.deadlineDay.None?
      && r.value.target == ProjectTarget(s.project.id) && r.value.playbookId.None?
    ensures r.Some? && s.health[0].overall < 55.0 && s.project.cashImpact > 7.0 ==>
      r.value.priority == 2 && r.value.impact == High && r.value.effort == Significant
      && r.value.timeSensitive && |r.value.steps| == 5 && r.value.confidence == 80.0
    ensures r.Some? && !(s.health[0].overall < 55.0 && s.project.cashImpact > 7.0) ==>
      r.value.priority == 3 && r.value.impact == Medium && r.value.effort == QuickWin
      && !r.value.timeSensitive && |r.value.steps| == 4 && r.value.confidence == 70.0
  {
    match LatestHealth(s)
    case None => None
    case Some(h) =>
      if h.overall < 55.0 && s.project.cashImpact > 7.0 then
        Some(Recommendation(
          Resource, 2, High, Significant, true, None, ProjectTarget(s.project.id),
          [AnalyseUnderperformance, DoubleResources, PauseAndReallocate, CeoDecisionWithinWeek, DocumentRationale],
          80.0, None))
      else if h.overall < 50.0 && s.project.cashImpact < 5.0 then
        Some(Recommendation(
          Resource, 3, Medium, QuickWin, false, None, ProjectTarget(s.project.id),
          [ReassessStrategicRoi, CompareOpportunities, PauseIfNotCritical, DocumentResumeCriteria],
          70.0, None))
      else None
  }

  /** `generatePortfolioRecommendation`: a portfolio health that lost more
      than 5 points in a week calls for a strategic session within three days. */
  function PortfolioRecommendation(ph: Option<PortfolioHealth>, nowMs: int): (r: Option<Recommendation>)
    ensures r.Some? <==> ph.Some? && ph.value.trend7d < -5.0
    ensures r.Some? ==>
      r.value.category == Focus && r.value.priority == 1 && r.value.impact == High
      && r.value.effort == Significant && r.value.timeSensitive
      && r.value.deadlineDay == Some(Day(nowMs) + 3) && r.value.target == PortfolioTarget
      && |r.value.steps| == 5 && r.value.confidence == 90.0 && r.value.playbookId.None?
  {
    if ph.Some? && ph.value.trend7d < -5.0 then
      Some(Recommendation(
        Focus, 1, High, Significant, true, Some(DeadlineIn(nowMs, 3)), PortfolioTarget,
        [StrategicSession, ReviewCriticalProjects, FindCommonPatterns, ReallocateIfNeeded, RecoveryPlan],
        90.0, None))
    else None
  }

  predicate Urgency(x: Recommendation)
  {
    x.priority in {1, 2, 3}
  }

  /** The recommendations one project contributes, in push order: focus, its
      risk mitigations, opportunity, resource. */
  function ProjectRecommendations(s: Snapshot, nowMs: int): (r: seq<Recommendation>)
    ensures forall x :: x in r ==> Urgency(x) && x.target == ProjectTarget(s.project.id)
    ensures |r| == |ToSeq(FocusRecommendation(s, nowMs))| + CountWhere(s.predictions, Actionable)
                   + |ToSeq(OpportunityRecommendation(s, nowMs))| + |ToSeq(ResourceRecommendation(s))|
    ensures r == ToSeq(FocusRecommendation(s, nowMs)) + MitigationRecommendations(s.project.id, s.predictions, nowMs)
                 + ToSeq(OpportunityRecommendation(s, nowMs)) + ToSeq(ResourceRecommendation(s))
  {
    var focus := ToSeq(FocusRecommendation(s, nowMs));
    var mitigations := MitigationRecommendations(s.project.id, s.predictions, nowMs);
    var opportunity := ToSeq(OpportunityRecommendation(s, nowMs));
    var resource := ToSeq(ResourceRecommendation(s));
    MitigationCount(s.project.id, s.predictions, nowMs);
    var target := ProjectTarget(s.project.id);
    assert forall x :: x in focus ==> Urgency(x) && x.target == target;
    assert forall x :: x in mitigations ==> Urgency(x) && x.target == target;
    assert forall x :: x in opportunity ==> Urgency(x) && x.target == target;
    assert forall x :: x in resource ==> Urgency(x) && x.target == target;
    assert forall x :: x in focus + mitigations + opportunity + resource ==>
      x in focus || x in mitigations || x in opportunity || x in resource;
    focus + mitigations + opportunity + resource
  }

  function PerProject(ps: seq<Snapshot>, nowMs: int): (r: seq<seq<Recommendation>>)
    ensures |r| == |ps|
    ensures forall i :: 0 <= i < |ps| ==> r[i] == ProjectRecommendations(ps[i], nowMs)
  {
    seq(|ps|, i requires 0 <= i < |ps| => ProjectRecommendations(ps[i], nowMs))
  }

  /** Every recommendation pushed before sorting: each project's, then the
      portfolio's. */
  function Generated(ps: seq<Snapshot>, ph: Option<PortfolioHealth>, nowMs: int): (r: seq<Recommendation>)
    ensures forall x :: x in r ==> Urgency(x)
    ensures forall x :: x in r <==>
      (exists i :: 0 <= i < |ps| && x in ProjectRecommendations(ps[i], nowMs))
      || Some(x) == PortfolioRecommendation(ph, nowMs)
  {
    var per := PerProject(ps, nowMs);
    forall x ensures x in Flatten(per) <==> exists i :: 0 <= i < |per| && x in per[i] {
      FlattenMember(per, x);
    }
    Flatten(per) + ToSeq(PortfolioRecommendation(ph, nowMs))
  }

  function Priority(r: Recommendation): int
  {
    r.priority
  }

  /** The recommendations of priority `k`, in their original order. */
  function AtPriority(rs: seq<Recommendation>, k: int): (r: seq<Recommendation>)
    ensures forall x :: x in r <==> x in rs && x.priority == k
  {
    Group(rs, Priority, k)
  }

  /** `sort((a, b) => a.priority - b.priority)` on priorities 1 to 3: the
      sort is stable, so it gathers the priority-1 recommendations, then the
      priority-2 ones, then the priority-3 ones, each group in its original
      order. */
  function ByPriority(rs: seq<Recommendation>): (r: seq<Recommendation>)
    ensures forall i, j :: 0 <= i < j < |r| ==> r[i].priority <= r[j].priority
  {
    var a, b, c := AtPriority(rs, 1), AtPriority(rs, 2), AtPriority(rs, 3);
    var r := a + b + c;
    forall i | 0 <= i < |r|
      ensures r[i].priority == if i < |a| then 1 else if i < |a| + |b| then 2 else 3
    {
      if i < |a| {
        assert r[i] == a[i];
      } else if i < |a| + |b| {
        assert r[i] == b[i - |a|];
      } else {
        assert r[i] == c[i - |a| - |b|];
      }
    }
    r
  }

  /** The sort loses and invents nothing when every priority is 1, 2 or 3. */
  lemma ByPriorityIsPermutation(rs: seq<Recommendation>)
    requires forall x :: x in rs ==> Urgency(x)
    ensures multiset(ByPriority(rs)) == multiset(rs)
  {
    ThreeGroupsArePermutation(rs, Priority, 1, 2, 3);
  }

  /** The sort is stable: within each priority the order is the original one. */
  lemma ByPriorityIsStable(rs: seq<Recommendation>, k: int)
    requires k in {1, 2, 3}
    ensures AtPriority(ByPriority(rs), k) == AtPriority(rs, k)
  {
    ThreeGroupsKeepOrder(rs, Priority, 1, 2, 3, k);
  }

  /** `generateSmartSuggestions`: no project list gives []; otherwise the
      first ten recommendations by priority. */
  function SmartSuggestions(projects: Option<seq<Snapshot>>, ph: Option<PortfolioHealth>, nowMs: int)
    : (r: seq<Recommendation>)
    ensures projects.None? ==> r == []
    ensures |r| <= 10
    ensures forall i, j :: 0 <= i < j < |r| ==> r[i].priority <= r[j].priority
    ensures projects.Some? ==> multiset(r) <= multiset(Generated(projects.value, ph, nowMs))
    ensures projects.Some? && |Generated(projects.value, ph, nowMs)| <= 10 ==>
      multiset(r) == multiset(Generated(projects.value, ph, nowMs))
  {
    if projects.None? then []
    else
      var all := Generated(projects.value, ph, nowMs);
      var sorted := ByPriority(all);
      ByPriorityIsPermutation(all);
      TakeIsSubMultiset(sorted, 10);
      Take(sorted, 10)
  }

  /** A recommendation that did not make the cut is never more urgent than
      the last one kept. */
  lemma DroppedNotMoreUrgent(projects: seq<Snapshot>, ph: Option<PortfolioHealth>, nowMs: int, x: Recommendation)
    requires x in Generated(projects, ph, nowMs)
    requires x !in SmartSuggestions(Some(projects), ph, nowMs)
    ensures var r := SmartSuggestions(Some(projects), ph, nowMs);
      |r| == 10 && x.priority >= r[9].priority
  {
    var all := Generated(projects, ph, nowMs);
    var sorted := ByPriority(all);
    ByPriorityIsPermutation(all);
    assert x in multiset(sorted);
    PrefixKeepsSmallest(sorted, (y: Recommendation) => y.priority, 10, x);
  }

  /** The body of the per-project loop of `generateSmartSuggestions`: push
      the focus recommendation, the risk mitigations, the opportunity and the
      resource recommendation, each when there is one. */
  method PushProjectRecommendations(recs: seq<Recommendation>, s: Snapshot, nowMs: int)
    returns (out: seq<Recommendation>)
    ensures out == recs + ProjectRecommendations(s, nowMs)
  {
    var focus := FocusRecommendation(s, nowMs);
    out := PushPresent(recs, focus);
    var risks := RiskMitigationRecommendations(s.project.id, s.predictions, nowMs);
    out := out + risks;
    var opportunity := OpportunityRecommendation(s, nowMs);
    out := PushPresent(out, opportunity);
    var resource := ResourceRecommendation(s);
    out := PushPresent(out, resource);
    AppendFour(recs, ToSeq(focus), risks, ToSeq(opportunity), ToSeq(resource));
  }

  /** `generateSmartSuggestions` as the source runs it: the per-project
      pushes in a loop, the portfolio push, then sort and cut. */
  method GenerateSmartSuggestions(projects: Option<seq<Snapshot>>, ph: Option<PortfolioHealth>, nowMs: int)
    returns (recs: seq<Recommendation>)
    ensures recs == SmartSuggestions(projects, ph, nowMs)
  {
    recs := [];
    if projects.None? {
      return;
    }
    var ps := projects.value;
    for i := 0 to |ps|
      invariant recs == Flatten(PerProject(ps, nowMs)[..i])
    {
      recs := PushProjectRecommendations(recs, ps[i], nowMs);
      FlattenPrefixSnoc(PerProject(ps, nowMs), i);
    }
    assert PerProject(ps, nowMs)[..|ps|] == PerProject(ps, nowMs);
    var portfolio := PortfolioRecommendation(ph, nowMs);
    recs := PushPresent(recs, portfolio);
    recs := Take(ByPriority(recs), 10);
  }
}
