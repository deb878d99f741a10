/**
 * Bottleneck prediction: three threshold rules over a project's decisions and
 * its newest pattern analysis.
 */
module Bottlenecks {
  import opened Basics
  import opened Records

  datatype BottleneckType = ResourceBottleneck | DependencyBottleneck | TechnicalBottleneck | DecisionBottleneck

  /** The fixed mitigation actions, each rendered by `ActionText`. */
  datatype Action =
    | PlanDecisionSession | PrioritiseDecisions | DelegateDecisions
    | AssessResources | ConsiderBudget | FindParallelTasks
    | DebtSprint | RefactorCriticalCode | DocumentSolutions

  function ActionText(a: Action): string
  {
    match a
    case PlanDecisionSession => "Planifier session décisions CEO cette semaine"
    case PrioritiseDecisions => "Prioriser décisions par impact/urgence"
    case DelegateDecisions => "Déléguer décisions non-stratégiques si possible"
    case AssessResources => "Évaluer allocation ressources actuelles"
    case ConsiderBudget => "Considérer augmentation budget/équipe"
    case FindParallelTasks => "Identifier tâches parallélisables"
    case DebtSprint => "Sprint dédié résolution dette technique"
    case RefactorCriticalCode => "Refactoring code critique"
    case DocumentSolutions => "Documentation solutions pour éviter récurrence"
  }

  /** The description: the pending count for a decision bottleneck, a fixed
      sentence otherwise (rendered by `DescriptionText`). */
  datatype Description = PendingDecisions(count: int) | SlowProgress | RecurringDebt

  function DescriptionText(d: Description): string
  {
    match d
    case PendingDecisions(n) => IntText(n) + " décisions pending bloquent progression"
    case SlowProgress => "Bon momentum mais progression lente - ressources insuffisantes possible"
    case RecurringDebt => "Dette technique récurrente ralentit développement"
  }

  datatype Bottleneck = Bottleneck(
    projectId: string,
    kind: BottleneckType,
    description: Description,
    probability: int,
    impactDays: int,
    horizonDays: int,
    occurrenceDay: int,
    actions: seq<Action>,
    priority: Level)

  /** Position of each rule in `predictProjectBottlenecks`. */
  function BottleneckRank(t: BottleneckType): int
  {
    match t
    case DecisionBottleneck => 0
    case ResourceBottleneck => 1
    case TechnicalBottleneck => 2
    case DependencyBottleneck => 3
  }

  /** The occurrence date is the calendar day `horizon` days after now. */
  function Make(pid: string, kind: BottleneckType, d: Description, prob: int, impactDays: int,
                horizon: int, actions: seq<Action>, priority: Level, nowMs: int): (b: Bottleneck)
    ensures b.occurrenceDay == Day(nowMs) + horizon
    ensures b.projectId == pid && b.kind == kind && b.description == d && b.probability == prob
    ensures b.impactDays == impactDays && b.horizonDays == horizon && b.actions == actions
    ensures b.priority == priority
  {
    DayAfter(nowMs, horizon);
    Bottleneck(pid, kind, d, prob, impactDays, horizon, Day(nowMs + horizon * MsPerDay), actions, priority)
  }

  predicate IsPending(d: Decision)
  {
    d.status == Pending
  }

  /** `detectDecisionBottleneck`: two or more pending decisions, with or
      without a pattern analysis. */
  function DecisionBottleneckOf(p: Project, decisions: seq<Decision>, nowMs: int): (r: Option<Bottleneck>)
    ensures var n := |Filter(decisions, IsPending)|;
      (r.Some? <==> n >= 2)
      && (r.Some? ==> r.value.kind == DecisionBottleneck && r.value.impactDays == 3 * n
                      && r.value.description == PendingDecisions(n)
                      && (r.value.priority == Critical <==> n > 3) && r.value.priority in {High, Critical}
                      && r.value.probability == 80 && r.value.horizonDays == 7
                      && r.value.occurrenceDay == Day(nowMs) + 7)
  {
    var n := |Filter(decisions, IsPending)|;
    if n >= 2 then
      Some(Make(p.id, DecisionBottleneck, PendingDecisions(n), 80, n * 3, 7,
                [PlanDecisionSession, PrioritiseDecisions, DelegateDecisions],
                if n > 3 then Critical else High, nowMs))
    else None
  }

  /** `detectResourceBottleneck`: good momentum but little progress. */
  function ResourceBottleneckOf(p: Project, pattern: Option<PatternAnalysis>, nowMs: int): (r: Option<Bottleneck>)
    ensures r.Some? <==> pattern.Some? && pattern.value.momentum > 70 && p.completion < 50.0
    ensures r.Some? ==> r.value.kind == ResourceBottleneck && r.value.priority == Medium
                        && r.value.probability == 60 && r.value.impactDays == 14
                        && r.value.horizonDays == 21 && r.value.occurrenceDay == Day(nowMs) + 21
  {
    match pattern
    case None => None
    case Some(pa) =>
      if pa.momentum > 70 && p.completion < 50.0 then
        Some(Make(p.id, ResourceBottleneck, SlowProgress, 60, 14, 21,
                  [AssessResources, ConsiderBudget, FindParallelTasks], Medium, nowMs))
      else None
  }

  /** `detectTechnicalBottleneck`: a recurring blocker mentions technique,
      bug or debt (not css or tailwind, unlike the technical risk rule). */
  function TechnicalBottleneckOf(p: Project, pattern: Option<PatternAnalysis>, nowMs: int): (r: Option<Bottleneck>)
    ensures r.Some? <==> pattern.Some? && SomeMentions(pattern.value.blockersRecurring, ["technique", "bug", "debt"])
    ensures r.Some? ==> r.value.kind == TechnicalBottleneck && r.value.priority == High
                        && r.value.probability == 75 && r.value.impactDays == 10
                        && r.value.horizonDays == 14 && r.value.occurrenceDay == Day(nowMs) + 14
  {
    match pattern
    case None => None
    case Some(pa) =>
      if SomeMentions(pa.blockersRecurring, ["technique", "bug", "debt"]) then
        Some(Make(p.id, TechnicalBottleneck, RecurringDebt, 75, 10, 14,
                  [DebtSprint, RefactorCriticalCode, DocumentSolutions], High, nowMs))
      else None
  }

  /** The three rule results in the order the source runs them. */
  function BottleneckCandidates(s: Snapshot, nowMs: int): seq<Option<Bottleneck>>
  {
    var pattern := LatestPattern(s);
    [DecisionBottleneckOf(s.project, s.decisions, nowMs), ResourceBottleneckOf(s.project, pattern, nowMs),
     TechnicalBottleneckOf(s.project, pattern, nowMs)]
  }

  lemma CandidatesInRuleOrder(s: Snapshot, nowMs: int)
    ensures var c := BottleneckCandidates(s, nowMs);
      forall k :: 0 <= k < |c| && c[k].Some? ==>
        BottleneckRank(c[k].value.kind) == k && c[k].value.projectId == s.project.id
  {
    var c := BottleneckCandidates(s, nowMs);
    var pattern := LatestPattern(s);
    assert c[0] == DecisionBottleneckOf(s.project, s.decisions, nowMs);
    assert c[1] == ResourceBottleneckOf(s.project, pattern, nowMs);
    assert c[2] == TechnicalBottleneckOf(s.project, pattern, nowMs);
  }

  /** What `predictProjectBottlenecks` returns: [] for a missing project,
      otherwise the bottlenecks that fired, at most one per type, in rule
      order. */
  function ProjectBottlenecks(s: Option<Snapshot>, nowMs: int): (r: seq<Bottleneck>)
    ensures s.None? ==> r == []
    ensures |r| <= 3
    ensures forall i, j :: 0 <= i < j < |r| ==> BottleneckRank(r[i].kind) < BottleneckRank(r[j].kind)
    ensures forall x :: x in r ==> x.kind != DependencyBottleneck
    ensures s.Some? ==> forall x :: x in r ==> x.projectId == s.value.project.id
    ensures s.Some? ==> forall x :: x in r <==> Some(x) in BottleneckCandidates(s.value, nowMs)
  {
    if s.None? then []
    else
      var c := BottleneckCandidates(s.value, nowMs);
      CandidatesInRuleOrder(s.value, nowMs);
      SomesKeepOrder(c, (x: Bottleneck) => BottleneckRank(x.kind));
      Somes(c)
  }

  /** `predictProjectBottlenecks`: the rules run in order, each pushing its
      bottleneck when it fires. */
  method PredictProjectBottlenecks(s: Option<Snapshot>, nowMs: int) returns (bottlenecks: seq<Bottleneck>)
    ensures bottlenecks == ProjectBottlenecks(s, nowMs)
  {
    bottlenecks := [];
    if s.None? { return; }
    var project := s.value.project;
    var pattern := LatestPattern(s.value);
    var decision := DecisionBottleneckOf(project, s.value.decisions, nowMs);
    bottlenecks := PushPresent(bottlenecks, decision);
    var resource := ResourceBottleneckOf(project, pattern, nowMs);
    bottlenecks := PushPresent(bottlenecks, resource);
    var technical := TechnicalBottleneckOf(project, pattern, nowMs);
    bottlenecks := PushPresent(bottlenecks, technical);
    SomesOfThree(decision, resource, technical);
    assert [] + ToSeq(decision) == ToSeq(decision);
  }

  /** Without a pattern analysis only the decision rule can fire. */
  lemma NoPatternOnlyDecisions(s: Snapshot, nowMs: int)
    requires s.patterns == []
    ensures forall x :: x in ProjectBottlenecks(Some(s), nowMs) ==> x.kind == DecisionBottleneck
  {
    var c := BottleneckCandidates(s, nowMs);
    assert c[1] == None && c[2] == None;
    forall x | x in ProjectBottlenecks(Some(s), nowMs)
      ensures x.kind == DecisionBottleneck
    {
      var k :| 0 <= k < |c| && c[k] == Some(x);
    }
  }

  /** `predictAllBottlenecks`: the per-project lists concatenated; no project
      list gives []. */
  function AllBottlenecks(projects: Option<seq<Snapshot>>, nowMs: int): (r: seq<Bottleneck>)
    ensures projects.None? ==> r == []
    ensures projects.Some? ==> |r| <= 3 * |projects.value|
    ensures projects.Some? ==> forall x :: x in r <==>
      exists i :: 0 <= i < |projects.value| && x in ProjectBottlenecks(Some(projects.value[i]), nowMs)
  {
    if projects.None? then []
    else
      var ps := projects.value;
      var per := PerProject(ps, nowMs);
      FlattenBound(per, 3);
      forall x ensures x in Flatten(per) <==> exists i :: 0 <= i < |per| && x in per[i] {
        FlattenMember(per, x);
      }
      Flatten(per)
  }

  /** `projects.map(p => predictBottlenecks(p.id))`: each project's list, in
      project order. */
  function PerProject(ps: seq<Snapshot>, nowMs: int): (per: seq<seq<Bottleneck>>)
    ensures |per| == |ps|
    ensures forall i :: 0 <= i < |ps| ==> per[i] == ProjectBottlenecks(Some(ps[i]), nowMs)
    ensures forall i :: 0 <= i < |per| ==> |per[i]| <= 3
  {
    seq(|ps|, i requires 0 <= i < |ps| => ProjectBottlenecks(Some(ps[i]), nowMs))
  }
}
