/**
 * Risk prediction: four independent threshold rules over a project, its
 * newest pattern analysis and its newest health score, each yielding at most
 * one predicted risk dated a fixed number of days ahead.
 */
module Risks {
  import opened Basics
  import opened Records

  datatype RiskPrediction = RiskPrediction(
    projectId: string,
    riskType: RiskType,
    severity: Level,
    probability: int,
    impact: Impact,
    horizonDays: int,
    occurrenceDay: int,
    confidence: int,
    mitigation: seq<Advice>)

  /** The fixed mitigation suggestions, each rendered by `AdviceText`. */
  datatype Advice =
    | SeniorDeveloperTime | TechnicalDebtSprint | DocumentSolutions
    | CeoFocusSession | UnblockPendingDecisions | ReallocateResources
    | ConsolidateFocus | PostponeDecisions | SimplifyScope
    | ReviewBudget | AccelerateOrPause | CeoContinuationDecision

  function AdviceText(a: Advice): string
  {
    match a
    case SeniorDeveloperTime => "Allouer temps développeur senior pour résoudre dette technique"
    case TechnicalDebtSprint => "Créer sprint dédié résolution blockers techniques"
    case DocumentSolutions => "Documenter solutions pour éviter récurrence"
    case CeoFocusSession => "Planifier session focus CEO sur ce projet"
    case UnblockPendingDecisions => "Identifier et débloquer décisions pending"
    case ReallocateResources => "Réallouer ressources si nécessaire"
    case ConsolidateFocus => "Consolider focus sur 1-2 priorités max"
    case PostponeDecisions => "Reporter décisions non-critiques"
    case SimplifyScope => "Simplifier scope si possible"
    case ReviewBudget => "Réévaluer allocation budget/ressources"
    case AccelerateOrPause => "Accélérer ou pauser selon priorités stratégiques"
    case CeoContinuationDecision => "Décision CEO requise sur continuation"
  }

  /** Position of each rule in `predictProjectRisks`. */
  function RiskRank(t: RiskType): int
  {
    match t
    case Technical => 0
    case Administrative => 1
    case Dispersion => 2
    case Financial => 3
  }

  /** A prediction whose occurrence date is the calendar day `horizon` days
      after now. */
  function Predict(pid: string, t: RiskType, sev: Level, prob: int, impact: Impact, horizon: int,
                   conf: int, mitigation: seq<Advice>, nowMs: int): (r: RiskPrediction)
    ensures r.occurrenceDay == Day(nowMs) + horizon
    ensures r.projectId == pid && r.riskType == t && r.severity == sev && r.probability == prob
    ensures r.impact == impact && r.horizonDays == horizon && r.confidence == conf
    ensures r.mitigation == mitigation
  {
    DayAfter(nowMs, horizon);
    RiskPrediction(pid, t, sev, prob, impact, horizon, Day(nowMs + horizon * MsPerDay), conf, mitigation)
  }

  /** `pattern?.blockers_recurring?.some(...)` with the technical-debt keywords. */
  predicate HasTechnicalBlockers(pattern: Option<PatternAnalysis>)
  {
    pattern.Some? && SomeMentions(pattern.value.blockersRecurring, ["technique", "bug", "css", "tailwind"])
  }

  /** `project.main_blocker?.toLowerCase().includes('css')`. */
  predicate BlockerMentionsCss(p: Project)
  {
    p.mainBlocker.Some? && Contains(Lower(p.mainBlocker.value), "css")
  }

  /** `predictTechnicalRisk`. */
  function TechnicalRisk(p: Project, pattern: Option<PatternAnalysis>, nowMs: int): (r: Option<RiskPrediction>)
    ensures r.Some? <==> HasTechnicalBlockers(pattern) || BlockerMentionsCss(p)
    ensures r.Some? ==> r.value.riskType == Technical && r.value.probability == 75
                        && r.value.horizonDays == 14 && r.value.confidence == 70
                        && r.value.severity == High && r.value.impact == Major
                        && r.value.occurrenceDay == Day(nowMs) + 14 && |r.value.mitigation| == 3
  {
    if HasTechnicalBlockers(pattern) || BlockerMentionsCss(p) then
      Some(Predict(p.id, Technical, High, 75, Major, 14, 70,
                   [SeniorDeveloperTime, TechnicalDebtSprint, DocumentSolutions], nowMs))
    else None
  }

  /** `predictStagnationRisk` (an administrative risk). */
  function StagnationRisk(p: Project, pattern: Option<PatternAnalysis>, nowMs: int): (r: Option<RiskPrediction>)
    ensures r.Some? <==> pattern.Some? && (pattern.value.trend == Decelerating || pattern.value.momentum < 40)
    ensures r.Some? ==> r.value.riskType == Administrative && r.value.confidence == 65
                        && r.value.severity == Medium && r.value.impact == Moderate
                        && (r.value.probability == 80 <==> pattern.value.momentum < 30)
                        && r.value.probability in {60, 80}
                        && (r.value.horizonDays == 7 <==> pattern.value.lastActivityDays > 7)
                        && r.value.horizonDays in {7, 14}
                        && r.value.occurrenceDay == Day(nowMs) + r.value.horizonDays
  {
    match pattern
    case None => None
    case Some(pa) =>
      if pa.trend == Decelerating || pa.momentum < 40 then
        Some(Predict(p.id, Administrative, Medium, if pa.momentum < 30 then 80 else 60, Moderate,
                     if pa.lastActivityDays > 7 then 7 else 14, 65,
                     [CeoFocusSession, UnblockPendingDecisions, ReallocateResources], nowMs))
      else None
  }

  /** `predictDispersionRisk`. */
  function DispersionRisk(p: Project, pattern: Option<PatternAnalysis>, nowMs: int): (r: Option<RiskPrediction>)
    ensures r.Some? <==> pattern.Some? && (pattern.value.decisionsVelocity > 5 || pattern.value.blockersCount > 2)
    ensures r.Some? ==> r.value.riskType == Dispersion && r.value.probability == 55
                        && r.value.horizonDays == 21 && r.value.confidence == 60
                        && r.value.severity == Medium && r.value.impact == Moderate
                        && r.value.occurrenceDay == Day(nowMs) + 21
  {
    match pattern
    case None => None
    case Some(pa) =>
      if pa.decisionsVelocity > 5 || pa.blockersCount > 2 then
        Some(Predict(p.id, Dispersion, Medium, 55, Moderate, 21, 60,
                     [ConsolidateFocus, PostponeDecisions, SimplifyScope], nowMs))
      else None
  }

  /** `predictResourceRisk` (a financial risk). */
  function ResourceRisk(p: Project, health: Option<HealthScore>, nowMs: int): (r: Option<RiskPrediction>)
    ensures r.Some? <==> health.Some? && p.cashImpact > 7.0 && health.value.overall < 60.0
    ensures r.Some? ==> r.value.riskType == Financial && r.value.probability == 70
                        && r.value.horizonDays == 30 && r.value.confidence == 65
                        && r.value.severity == High && r.value.impact == Major
                        && r.value.occurrenceDay == Day(nowMs) + 30
  {
    match health
    case None => None
    case Some(h) =>
      if p.cashImpact > 7.0 && h.overall < 60.0 then
        Some(Predict(p.id, Financial, High, 70, Major, 30, 65,
                     [ReviewBudget, AccelerateOrPause, CeoContinuationDecision], nowMs))
      else None
  }

  /** The four rule results in the order the source runs them. */
  function RiskCandidates(s: Snapshot, nowMs: int): seq<Option<RiskPrediction>>
  {
    var pattern, health := LatestPattern(s), LatestHealth(s);
    [TechnicalRisk(s.project, pattern, nowMs), StagnationRisk(s.project, pattern, nowMs),
     DispersionRisk(s.project, pattern, nowMs), ResourceRisk(s.project, health, nowMs)]
  }

  /** What `predictProjectRisks` returns: [] for a missing project, otherwise
      the predictions that fired, at most one per type, in rule order. */
  function ProjectRisks(s: Option<Snapshot>, nowMs: int): (r: seq<RiskPrediction>)
    ensures s.None? ==> r == []
    ensures |r| <= 4
    ensures forall i, j :: 0 <= i < j < |r| ==> RiskRank(r[i].riskType) < RiskRank(r[j].riskType)
    ensures s.Some? ==> forall x :: x in r ==> x.projectId == s.value.project.id
    ensures s.Some? ==> forall x :: x in r <==> Some(x) in RiskCandidates(s.value, nowMs)
  {
    if s.None? then []
    else
      var c := RiskCandidates(s.value, nowMs);
      CandidatesInRuleOrder(s.value, nowMs);
      SomesKeepOrder(c, (x: RiskPrediction) => RiskRank(x.riskType));
      Somes(c)
  }

  lemma CandidatesInRuleOrder(s: Snapshot, nowMs: int)
    ensures var c := RiskCandidates(s, nowMs);
      forall k :: 0 <= k < |c| && c[k].Some? ==>
        RiskRank(c[k].value.riskType) == k && c[k].value.projectId == s.project.id
  {
    var c := RiskCandidates(s, nowMs);
    var pattern, health := LatestPattern(s), LatestHealth(s);
    assert c[0] == TechnicalRisk(s.project, pattern, nowMs);
    assert c[1] == StagnationRisk(s.project, pattern, nowMs);
    assert c[2] == DispersionRisk(s.project, pattern, nowMs);
    assert c[3] == ResourceRisk(s.project, health, nowMs);
  }

  /** Ranks strictly increasing means no type occurs twice. */
  lemma ProjectRisksDistinctTypes(s: Option<Snapshot>, nowMs: int)
    ensures forall i, j :: 0 <= i < j < |ProjectRisks(s, nowMs)| ==>
      ProjectRisks(s, nowMs)[i].riskType != ProjectRisks(s, nowMs)[j].riskType
  {
  }

  /** `predictProjectRisks`: the rules run in order, each pushing its
      prediction when it fires. */
  method PredictProjectRisks(s: Option<Snapshot>, nowMs: int) returns (predictions: seq<RiskPrediction>)
    ensures predictions == ProjectRisks(s, nowMs)
  {
    predictions := [];
    if s.None? { return; }
    var project := s.value.project;
    var pattern := LatestPattern(s.value);
    var health := LatestHealth(s.value);
    var technical := TechnicalRisk(project, pattern, nowMs);
    predictions := PushPresent(predictions, technical);
    var stagnation := StagnationRisk(project, pattern, nowMs);
    predictions := PushPresent(predictions, stagnation);
    var dispersion := DispersionRisk(project, pattern, nowMs);
    predictions := PushPresent(predictions, dispersion);
    var resource := ResourceRisk(project, health, nowMs);
    predictions := PushPresent(predictions, resource);
    SomesOfFour(technical, stagnation, dispersion, resource);
    assert [] + ToSeq(technical) == ToSeq(technical);
  }

  /** A project with no pattern analysis and no health score can only get a
      technical risk, and only through its main blocker. */
  lemma NoHistoryOnlyTechnical(s: Snapshot, nowMs: int)
    requires s.patterns == [] && s.health == []
    ensures ProjectRisks(Some(s), nowMs) == if BlockerMentionsCss(s.project) then [TechnicalRisk(s.project, None, nowMs).value] else []
  {
    var c := RiskCandidates(s, nowMs);
    assert c == [TechnicalRisk(s.project, None, nowMs), None, None, None];
    var none: seq<Option<RiskPrediction>> := [None, None, None];
    assert c == [c[0]] + none;
    SomesAppend([c[0]], none);
    assert Somes(none) == [];
  }

  /** Each project's list, in project order. */
  function PerProject(ps: seq<Snapshot>, nowMs: int): (per: seq<seq<RiskPrediction>>)
    ensures |per| == |ps|
    ensures forall i :: 0 <= i < |ps| ==> per[i] == ProjectRisks(Some(ps[i]), nowMs) && |per[i]| <= 4
  {
    seq(|ps|, i requires 0 <= i < |ps| => ProjectRisks(Some(ps[i]), nowMs))
  }

  lemma PerProjectMembers(ps: seq<Snapshot>, nowMs: int, x: RiskPrediction)
    ensures x in Flatten(PerProject(ps, nowMs)) <==> exists i :: 0 <= i < |ps| && x in ProjectRisks(Some(ps[i]), nowMs)
  {
    var per := PerProject(ps, nowMs);
    FlattenMember(per, x);
    if x in Flatten(per) {
      var i :| 0 <= i < |per| && x in per[i];
      assert x in ProjectRisks(Some(ps[i]), nowMs);
    }
    if exists i :: 0 <= i < |ps| && x in ProjectRisks(Some(ps[i]), nowMs) {
      var i :| 0 <= i < |ps| && x in ProjectRisks(Some(ps[i]), nowMs);
      assert x in per[i];
    }
  }

  /** `predictAllProjectsRisks`: the per-project lists concatenated; no
      project list gives []. */
  function AllProjectsRisks(projects: Option<seq<Snapshot>>, nowMs: int): (r: seq<RiskPrediction>)
    ensures projects.None? ==> r == []
    ensures projects.Some? ==> |r| <= 4 * |projects.value|
    ensures projects.Some? ==> forall x :: x in r <==>
      exists i :: 0 <= i < |projects.value| && x in ProjectRisks(Some(projects.value[i]), nowMs)
  {
    if projects.None? then []
    else
      var ps := projects.value;
      FlattenBound(PerProject(ps, nowMs), 4);
      forall x ensures x in Flatten(PerProject(ps, nowMs)) <==>
        exists i :: 0 <= i < |ps| && x in ProjectRisks(Some(ps[i]), nowMs) {
        PerProjectMembers(ps, nowMs, x);
      }
      Flatten(PerProject(ps, nowMs))
  }

  /** The concatenation keeps each project's list as a consecutive block. */
  lemma AllProjectsRisksSnoc(ps: seq<Snapshot>, s: Snapshot, nowMs: int)
    ensures AllProjectsRisks(Some(ps + [s]), nowMs) == AllProjectsRisks(Some(ps), nowMs) + ProjectRisks(Some(s), nowMs)
  {
    assert PerProject(ps + [s], nowMs) == PerProject(ps, nowMs) + [ProjectRisks(Some(s), nowMs)];
    FlattenSnoc(PerProject(ps, nowMs), ProjectRisks(Some(s), nowMs));
  }
}
