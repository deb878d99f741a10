/**
 * The rows the engine reads from its data store, as values.  Each scoring
 * function in the engine fetches a project together with its related rows;
 * here that fetch is a `Snapshot`, and every "latest" row is the first one of
 * the corresponding history, which the model takes to be ordered newest
 * first.  The separate history queries ask for that order; the embedded
 * `health_scores(*)` and `pattern_analyses(*)` selects do not, so there the
 * first row is whatever the store returns first, and the model assumes it is
 * the newest.
 */
module Records {
  import opened Basics
  import opened Steps

  /** `velocity_trend`; `OtherTrend` stands for any other stored text. */
  datatype Trend = Accelerating | Stable | Decelerating | Stagnant | OtherTrend

  /** The low / medium / high / critical scale used for risk levels,
      severities, probabilities and priorities. */
  datatype Level = Low | Medium | High | Critical

  datatype Grade = Excellent | Good | Warning | CriticalGrade

  datatype DecisionStatus = Pending | Executed | OtherStatus

  datatype RiskType = Technical | Administrative | Financial | Dispersion

  datatype Impact = Minor | Moderate | Major | Severe

  /** A `projects` row.  `riskLevel` is `None` for a missing or unrecognised level. */
  datatype Project = Project(
    id: string,
    name: string,
    slug: string,
    completion: real,
    cashImpact: real,
    riskLevel: Option<Level>,
    mainBlocker: Option<string>)

  /** A pattern analysis, as computed and as stored in `pattern_analyses`. */
  datatype PatternAnalysis = PatternAnalysis(
    projectId: string,
    velocity7d: real,
    velocity30d: real,
    trend: Trend,
    blockersCount: int,
    blockersRecurring: seq<string>,
    decisionsVelocity: int,
    lastActivityDays: int,
    momentum: int)

  /** A health score, as computed and as stored in `health_scores`. */
  datatype HealthScore = HealthScore(
    projectId: string,
    overall: real,
    completionScore: real,
    velocityScore: real,
    riskScore: real,
    cashImpactScore: real,
    decisionQualityScore: real,
    momentum: int,
    grade: Grade)

  /** The overall score of each health row, in order. */
  function OverallScores(hs: seq<HealthScore>): (r: seq<real>)
    ensures |r| == |hs|
    ensures forall i :: 0 <= i < |hs| ==> r[i] == hs[i].overall
  {
    seq(|hs|, i requires 0 <= i < |hs| => hs[i].overall)
  }

  /** A `decisions` row, with the name of its project when the join found one. */
  datatype Decision = Decision(
    id: string,
    title: string,
    status: DecisionStatus,
    rationale: Option<string>,
    createdMs: int,
    projectName: Option<string>)

  /** An `events` row of the project. */
  datatype Event = Event(description: string, createdMs: int)

  /** A `risks` row; `None` stands for a value outside the known scale. */
  datatype RiskRow = RiskRow(
    category: Option<RiskType>,
    severity: Option<Level>,
    probability: Option<Level>,
    active: bool,
    createdMs: int)

  /** A `risk_predictions` row as the recommendation rules read it back. */
  datatype StoredPrediction = StoredPrediction(
    riskType: RiskType,
    active: bool,
    probability: real,
    impact: Option<Impact>,
    horizonDays: int,
    mitigation: Option<seq<string>>,
    confidence: Option<real>)

  /** A project together with every related row the engine reads. */
  datatype Snapshot = Snapshot(
    project: Project,
    health: seq<HealthScore>,
    patterns: seq<PatternAnalysis>,
    decisions: seq<Decision>,
    risks: seq<RiskRow>,
    predictions: seq<StoredPrediction>,
    events: seq<Event>)

  /** `health_scores?.[0]`. */
  function LatestHealth(s: Snapshot): (h: Option<HealthScore>)
    ensures h.Some? <==> |s.health| > 0
    ensures h.Some? ==> h.value == s.health[0]
  {
    if |s.health| > 0 then Some(s.health[0]) else None
  }

  /** `pattern_analyses?.[0]`. */
  function LatestPattern(s: Snapshot): (p: Option<PatternAnalysis>)
    ensures p.Some? <==> |s.patterns| > 0
    ensures p.Some? ==> p.value == s.patterns[0]
  {
    if |s.patterns| > 0 then Some(s.patterns[0]) else None
  }

  /** A `portfolio_health` row. */
  datatype PortfolioHealth = PortfolioHealth(
    overall: real,
    projectsCount: int,
    healthy: int,
    warning: int,
    critical: int,
    trend7d: real,
    trend30d: real,
    topConcern: Option<string>,
    topOpportunity: Option<string>)

  /** The two columns of `portfolio_health` that the trend computation reads. */
  datatype PortfolioRow = PortfolioRow(scoreDay: int, overall: real)

  datatype Category = Focus | DecisionCategory | Resource | RiskMitigation | Opportunity

  datatype Effort = QuickWin | ModerateEffort | Significant

  datatype Target = NoTarget | ProjectTarget(projectId: string) | PortfolioTarget

  /** A `recommendations` row; `deadlineDay` is the calendar day of `deadline_date`. */
  datatype Recommendation = Recommendation(
    category: Category,
    priority: int,
    impact: Level,
    effort: Effort,
    timeSensitive: bool,
    deadlineDay: Option<int>,
    target: Target,
    steps: seq<Step>,
    confidence: real,
    playbookId: Option<string>)
}
