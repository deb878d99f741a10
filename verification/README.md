# aramisbrain scoring and forecasting engine, in Dafny

This project models the deterministic part of aramisbrain, a personal
portfolio "brain" that follows a handful of projects. Each day it reads
a project's rows and derives:

- **pattern analysis**: 7- and 30-day velocity, trend, blocker frequency and momentum;
- **health score**: velocity, risk and momentum sub-scores, an overall score and a grade;
- **portfolio health**: the active projects' averages and their grade bands;
- **anomalies**: a velocity drop, a health drop, stagnation;
- **predictions**: risks (technical, administrative, financial, dispersion),
  bottlenecks and a completion forecast;
- **recommendations**: smart suggestions, playbook matches and decision
  support for pace and blockers;
- **the oracle**: weekly focus trajectories, strategic questions and the
  weekly summary;
- **the risk radar** endpoint, which scores each risk category from the
  `risks` table.

One Dafny module stands for each source file. The modules are `Patterns`,
`Health`, `Anomalies`, `Risks`, `Bottlenecks`, `Completion`, `Suggestions`,
`Playbooks`, `Decisions` (plus `DecisionTexts` for its option texts),
`Trajectories`, `Questions`, `Summary` and `Radar`. They share four modules:

- `Records` holds the rows the engine reads and writes.
- `Steps` holds the enumerated texts that recommendations carry.
- `Tables` holds the two ways the engine stores results:
  - a keyed upsert: one row per project and day, or per week;
  - a week refresh: delete the rows of the current week, then insert the new ones.
- `Basics` holds the calendar, rounding and list helpers.

Conventions of the model:

- **Queries.** What the store returns is a parameter:
  - a failed query or a missing row is `None`;
  - a history is a sequence, taken to be newest first;
  - a "latest" row (`?.[0]`) is the head of that sequence. The separate
    history queries order their rows that way. The embedded
    `health_scores(*)` and `pattern_analyses(*)` selects do not, so the
    model assumes an order the source does not ask for (see "Left out").
- **Time.** The clock is a parameter `nowMs`, in milliseconds since the epoch.
  - A calendar day is `nowMs` divided by the length of a day, the UTC date
    that `toISOString().split('T')[0]` names.
  - A week starts on Monday.
- **Arithmetic.** Numbers are exact reals.
  - `Math.round` is the floor of x + 1/2.
  - `Math.ceil` and `Math.floor` are written out.
- **Sorting.** Stable sorts on keys drawn from a small fixed set (priorities
  1 to 3, playbook scores 75 and 100) are concatenations of per-key filters.
  So each sort is ordered, a permutation and stable by construction.
- **Stored results.** Methods of the `Tables` and `Anomalies.AnomalyTable`
  classes update the stored rows. Every `save…` operation the model keeps
  states its whole new table.

Behaviours of the code worth noting:

- **Critical risk level.** The health risk sub-score maps `critical` to 0 in
  its table. Because of `|| 50`, it scores 50, above a `high` risk's 30.
  `Health.CriticalRiskExample` works one project through: overall 53, grade
  `warning`.
- **Balance allocation.** The `Balance` trajectory gives every active
  project `Math.round(100 / n)` percent. So the allocation totals 100 only
  when n divides evenly enough: it stays within 95 to 105 up to 17 projects
  and reaches 108 at 18. `Trajectories.BalanceTotalDrift` states this.
  `Trajectories.FixedAllocationTotals` shows that the other trajectories
  total 100 unless a project's slug is `autres`, which collides with the
  shared key.
- **Weekly summary window.** The decision window is Monday 00:00 up to
  `weekEnd`, which is Sunday 00:00. So decisions taken on Sunday fall outside
  it (`Summary.SundayAfterMidnightLeftOut`).
- **Pattern velocities.** The velocities are linear in the completion
  percentage: the 7-day velocity is 7/30 of the 30-day one, so the trend's
  ratio v7/(v30/4.3) is always 30.1/30 (about 1.0033), inside the stable
  band. Every started project is `stable` and an unstarted one `stagnant`
  (`Patterns.AnalysedTrend`).

## Model

| member | source | states |
|---|---|---|
| Patterns.Velocity | src/lib/analysis/patterns.ts:70-75 | the velocity over `days` spreads the completion linearly over 30 days: velocity × 30 = completion × days |
| Patterns.VelocityWindows | src/lib/analysis/patterns.ts:27-31 | the 30-day velocity equals the completion; the 7-day velocity is 7/30 of it |
| Patterns.TrendOf | src/lib/analysis/patterns.ts:77-84 | never an unknown trend; stagnant exactly when both velocities are 0; for a positive 30-day velocity, accelerating iff v7 × 4.3 > 1.2 × v30 and decelerating iff v7 × 4.3 < 0.8 × v30; for a zero 30-day velocity the sign of v7 decides (division by zero) |
| Patterns.RatioAgainst | src/lib/analysis/patterns.ts:78-82 | for a positive 30-day velocity the ratio test against a threshold is the cross-multiplied comparison, in both directions |
| Patterns.BoundaryRatiosAreStable | src/lib/analysis/patterns.ts:81-83 | the thresholds are strict: a ratio of exactly 1.2 or exactly 0.8 is stable |
| Patterns.AnalysedTrend | src/lib/analysis/patterns.ts:27-34 | with the linear velocities every started project is stable and an unstarted one stagnant, whatever its completion |
| Patterns.VelocityPoints | src/lib/analysis/patterns.ts:146-151 | +30 above a ratio of 1.5, +20 above 1.2 up to 1.5, +10 above 0.8 up to 1.2, −20 below 0.5 and 0 from 0.5 to 0.8: each band stated as an iff, so the strict thresholds put a boundary ratio in the lower band |
| Patterns.DecisionPoints | src/lib/analysis/patterns.ts:153-156 | +20 for six or more recent decisions, +10 for three to five, −10 for none and 0 for one or two: each band as an iff |
| Patterns.InactivityPoints | src/lib/analysis/patterns.ts:158-161 | −30 after more than 30 idle days, −15 for 15 to 30, −5 for 8 to 14 and 0 for a week or less: each band as an iff |
| Patterns.Clamp | src/lib/analysis/patterns.ts:166 | the result lies in [lo, hi], is the input when inside, and the nearer bound when outside |
| Patterns.Momentum | src/lib/analysis/patterns.ts:137-167 | the momentum score lies in [0, 100] |
| Patterns.MomentumScore | src/lib/analysis/patterns.ts:137-167 | the running total updated rule by rule ends in [0, 100] and equals `Momentum` |
| Patterns.MomentumMonotone | src/lib/analysis/patterns.ts:153-164 | more decisions never lower the momentum; more inactive days or more blockers never raise it |
| Patterns.BlockersCount | src/lib/analysis/patterns.ts:37 | 1 exactly when the project has a main blocker other than 'Aucun', else 0 |
| Patterns.Descriptions | src/lib/analysis/patterns.ts:98 | one description per event, in event order |
| Patterns.RecurringBlockers | src/lib/analysis/patterns.ts:86-100 | at most 10 texts, no repeats, and a text is listed exactly when one of the 10 newest events mentioning "blocker" has it as description |
| Patterns.DecisionsVelocity | src/lib/analysis/patterns.ts:102-114 | the number of decisions created at or after the cutoff `days` days back, never more than the decisions given |
| Patterns.LastActivityDays | src/lib/analysis/patterns.ts:116-135 | 999 without events; otherwise the whole days elapsed since the newest event (floor division) |
| Patterns.AnalyzeProjectPatterns | src/lib/analysis/patterns.ts:15-68 | none exactly for a missing project; otherwise the analysis of that project: its 7-day velocity 7/30 of its completion and its 30-day velocity equal to it, its trend stable (stagnant at 0 %), one blocker exactly when the main blocker is set and not 'Aucun', the recurring blockers (at most 10, distinct) of its events, its decision velocity over 30 days, the days since its newest event (999 without events), and the momentum those values give, in [0, 100] |
| Patterns.AnalyzeAllProjectsPatterns | src/lib/analysis/patterns.ts:169-184 | [] when the project query fails; otherwise one analysis per active project, in order |
| Health.VelocityScore | src/lib/analysis/health.ts:90-100 | 50 without a pattern; otherwise 90, 70, 40, 10 for accelerating, stable, decelerating, stagnant and 50 for an unknown trend; always within [10, 90] |
| Health.VelocityScoreMonotone | src/lib/analysis/health.ts:93-98 | a faster trend never scores lower |
| Health.RiskTable | src/lib/analysis/health.ts:104 | the table has an entry for every known risk level and none for a missing one |
| Health.RiskScore | src/lib/analysis/health.ts:102-106 | 100, 60, 30 for low, medium, high; 50 exactly for a missing level or for critical (the table's 0 is falsy); always within [30, 100] |
| Health.CriticalRiskScoresAboveHigh | src/lib/analysis/health.ts:104-105 | the fallback inverts the scale: critical scores like a missing level, above high |
| Health.DecisionQualityScore | src/lib/analysis/health.ts:108-128 | 50 without decisions; otherwise within [0, 100], and 100 exactly when every decision is executed and the rationales average at least 200 characters |
| Health.Fraction | src/lib/analysis/health.ts:118-124 | an execution rate of k out of n decisions is a percentage in [0, 100] that reaches 100 only when all are executed |
| Health.AtLeastAverage | src/lib/analysis/health.ts:121-125 | the rationale score reaches its cap of 100 exactly when the total rationale length is at least 200 per decision |
| Health.OverallBetween | src/lib/analysis/health.ts:57-62 | the weighted overall score lies between the smallest and the largest component |
| Health.GradeOf | src/lib/analysis/health.ts:130-135 | excellent iff score ≥ 85, good iff 70 ≤ score < 85, warning iff 50 ≤ score < 70, critical iff score < 50 |
| Health.GradeMonotone | src/lib/analysis/health.ts:130-135 | a higher score never gets a worse grade |
| Health.HealthMomentum | src/lib/analysis/health.ts:54 | the momentum of the latest pattern, except that a missing pattern and a momentum of 0 both give 50 |
| Health.ProjectHealth | src/lib/analysis/health.ts:28-84 | none exactly for a missing project; otherwise the project's id; the five stored components (completion, velocity of the latest pattern, risk of the level, ten times the cash impact, decision quality); an overall score that is the weighted sum of those stored components rounded to hundredths, with the grade of the unrounded sum; in [0, 100] when completion and cash impact are in range; and the momentum with its fallback |
| Health.Round2Within | src/lib/analysis/health.ts:68 | rounding to two decimals keeps a score inside [0, 100] |
| Health.GradeBeforeRounding | src/lib/analysis/health.ts:64-68 | the grade is taken before rounding: 84.996 is stored as 85 yet graded good |
| Health.CriticalRiskExample | src/lib/analysis/health.ts:49-64 | a project at 40 % with a critical risk level, cash impact 9, no pattern and no decision scores 53, warning, with a risk component of 50 |
| Health.BandsPartition | src/lib/analysis/health.ts:165-167 | every score is in exactly one of the healthy, warning and critical bands, so the three counts add up to the number of projects |
| Health.CalculateTrend | src/lib/analysis/health.ts:218-232 | 0 without history or without a row at least `days` old; otherwise the current score minus the score of the first (newest) such row |
| Health.MaxMomentumFrom | src/lib/analysis/health.ts:193-195 | the start value or a candidate, with a momentum at least the start's and at least every candidate's; strictly greater than the start's when it is not the start |
| Health.MaxMomentumFromKeepsStart | src/lib/analysis/health.ts:193-195 | the reduce keeps the start value exactly when no candidate has a greater momentum |
| Health.MaxMomentumFromIsFirst | src/lib/analysis/health.ts:193-195 | otherwise it ends on a candidate before which every candidate has a strictly smaller momentum: the first of greatest momentum |
| Health.PortfolioHealthOf | src/lib/analysis/health.ts:137-216 | the all-zero portfolio when the query fails or there is no active project; otherwise the record Summarises the health of every active project: their count, the rounded mean, the three band counts, the 7- and 30-day trends against the 30 newest history rows, the first lowest-scoring project as the concern and, as the opportunity, `MaxMomentumFrom` run from the first project over those under 80: the first project or one under 80, with no project under 80 of greater momentum |
| Health.ProjectHealths | src/lib/analysis/health.ts:159-161 | the health of each project, one per project, in project order |
| Health.RecentHistory | src/lib/analysis/health.ts:170-174 | the history query's limit: at most the 30 newest rows, exactly 30 when there are that many; none when the query failed |
| Health.PortfolioFrom | src/lib/analysis/health.ts:163-215 | the record Summarises the given non-empty project scores, and its bands add up to their number |
| Health.TopConcernIsFirstLowest | src/lib/analysis/health.ts:180-182 | the top concern has the lowest overall score, and no earlier project has that score |
| Health.TopOpportunityHasHighestMomentum | src/lib/analysis/health.ts:193-195 | the top opportunity is the first project or a project under 80, and no project under 80 has a greater momentum |
| Health.SaveHealthScore | src/lib/analysis/health.ts:234-252 | the row keyed by (project, day of the run) becomes the score; every other row is unchanged |
| Health.SavePortfolioHealth | src/lib/analysis/health.ts:254-271 | the row keyed by the day of the run becomes the portfolio; every other row is unchanged |
| Records.OverallScores | src/lib/analysis/anomalies.ts:74 | the overall scores of the health rows, one per row, in order |
| Anomalies.Baseline | src/lib/analysis/anomalies.ts:70-77 | none exactly for an empty window; otherwise the mean overall score of the window |
| Anomalies.Abs | src/lib/analysis/anomalies.ts:87 | a non-negative value equal to the input or to its negation |
| Anomalies.DetectVelocityAnomaly | src/lib/analysis/anomalies.ts:79-104 | none with fewer than two analyses; an anomaly exactly when the change exceeds 40 %, a drop when the change is negative, critical exactly above 60 %, positive exactly for a rise; for a positive previous velocity, fires exactly when the current one is above 1.4 × or below 0.6 × the previous, and is a drop exactly when it fell |
| Anomalies.ChangeAgainstPrevious | src/lib/analysis/anomalies.ts:85-90 | for a positive previous velocity the ±40 % test and the sign test are plain comparisons with proportions of it |
| Anomalies.RatioThreshold | src/lib/analysis/anomalies.ts:85-87 | a relative change against a positive value exceeds (falls below) a threshold exactly when the current value exceeds (falls below) the previous scaled by 1 + threshold |
| Anomalies.ScaleOrder | src/lib/analysis/anomalies.ts:85-87 | multiplying by a positive factor keeps the strict order of the two sides |
| Anomalies.DetectStagnation | src/lib/analysis/anomalies.ts:106-126 | an anomaly exactly when the newest analysis records more than 14 inactive days; a negative stagnation against a baseline of 7, critical exactly above 30 days, otherwise high |
| Anomalies.DetectHealthDrop | src/lib/analysis/anomalies.ts:128-148 | an anomaly exactly when there is a baseline and the current score is more than 15 points under it; critical above 30, high above 20, medium otherwise; never positive |
| Anomalies.DetectRiskSpike | src/lib/analysis/anomalies.ts:150-178 | an anomaly exactly when more than two risks were created in the last 7 days; its current value is that count, critical exactly above 4, otherwise high |
| Anomalies.AnomaliesOf | src/lib/analysis/anomalies.ts:15-68 | nothing for a missing project or fewer than two health scores; otherwise an anomaly is listed exactly when the velocity rule (with at least two analyses), the stagnation rule, the health-drop rule against the mean of up to seven earlier scores, or the risk-spike rule reports it; at most four, in rule order with no rule repeated |
| Anomalies.BaselineWindow | src/lib/analysis/anomalies.ts:47 | the up to seven health scores that follow the current one, in order |
| Anomalies.DetectAnomalies | src/lib/analysis/anomalies.ts:15-68 | the list built by pushing each rule's anomaly in turn equals `AnomaliesOf`, so holds at most four |
| Anomalies.LongInactivityIsCriticalStagnation | src/lib/analysis/anomalies.ts:56-57 | a project with two health scores whose newest analysis shows 35 inactive days reports a critical stagnation |
| Anomalies.AllAnomalies | src/lib/analysis/anomalies.ts:180-195 | [] when the project query fails; otherwise at most four per project, and an anomaly is listed exactly when one project's detection reports it |
| Anomalies.SaveKeepsAtMostOneOpen | src/lib/analysis/anomalies.ts:197-223 | saving keeps at most one unresolved anomaly per project and type |
| Anomalies.SaveIdempotent | src/lib/analysis/anomalies.ts:200-210 | saving the same anomaly twice leaves the table as one save does |
| Anomalies.SaveLeavesOneOpen | src/lib/analysis/anomalies.ts:197-223 | after a save the project has an unresolved anomaly of that type; the table grows by at most one row and the existing rows are kept |
| Anomalies.AnomalyTable.constructor | src/lib/analysis/anomalies.ts:197-223 | an empty anomalies table satisfying the one-open-per-type invariant |
| Anomalies.AnomalyTable.Save | src/lib/analysis/anomalies.ts:197-223 | inserts the anomaly unless an unresolved one of the same project and type exists, and keeps the invariant |
| Risks.Predict | src/lib/predictions/risks.ts:79-98 | a prediction carrying exactly the given project, type, severity, probability, impact, horizon, confidence and mitigations, dated `horizon` calendar days after the day of the run |
| Risks.TechnicalRisk | src/lib/predictions/risks.ts:66-102 | a prediction exactly when a recurring blocker mentions technique, bug, css or tailwind, or the main blocker mentions css; then technical, high, probability 75, major, 14 days, confidence 70, three mitigations |
| Risks.StagnationRisk | src/lib/predictions/risks.ts:104-134 | a prediction exactly when there is a pattern that is decelerating or has momentum under 40; administrative, medium, moderate, confidence 65; probability 80 exactly under momentum 30, else 60; horizon 7 exactly after more than 7 inactive days, else 14 |
| Risks.DispersionRisk | src/lib/predictions/risks.ts:136-162 | a prediction exactly when there is a pattern with more than 5 recent decisions or more than 2 blockers; dispersion, medium, probability 55, moderate, 21 days, confidence 60 |
| Risks.ResourceRisk | src/lib/predictions/risks.ts:164-191 | a prediction exactly when there is a health score under 60 and the cash impact exceeds 7; financial, high, probability 70, major, 30 days, confidence 65 |
| Risks.ProjectRisks | src/lib/predictions/risks.ts:16-64 | [] for a missing project; otherwise at most four predictions, all for that project, in rule order, and a prediction is listed exactly when its rule fired |
| Risks.CandidatesInRuleOrder | src/lib/predictions/risks.ts:47-61 | the k-th rule can only produce the k-th risk type, for the project at hand |
| Risks.ProjectRisksDistinctTypes | src/lib/predictions/risks.ts:47-63 | no risk type is predicted twice for one project |
| Risks.PredictProjectRisks | src/lib/predictions/risks.ts:16-64 | the list built by pushing each rule's prediction in turn equals `ProjectRisks` |
| Risks.NoHistoryOnlyTechnical | src/lib/predictions/risks.ts:66-191 | without pattern analysis and health score, the only possible prediction is the technical one, exactly when the main blocker mentions css |
| Risks.PerProject | src/lib/predictions/risks.ts:203-205 | one prediction list per project, in project order, each of at most four |
| Risks.PerProjectMembers | src/lib/predictions/risks.ts:203-207 | a prediction is in the concatenation exactly when it is in one project's list |
| Risks.AllProjectsRisks | src/lib/predictions/risks.ts:193-208 | [] when the project query fails; otherwise at most four per project, and a prediction is listed exactly when it is predicted for one of the projects |
| Risks.AllProjectsRisksSnoc | src/lib/predictions/risks.ts:207 | the concatenation keeps each project's predictions as one consecutive block, in project order |
| Records.LatestPattern | src/lib/predictions/risks.ts:30-36 | the newest pattern analysis of the project, none when there is none |
| Records.LatestHealth | src/lib/predictions/risks.ts:39-45 | the newest health score of the project, none when there is none |
| Bottlenecks.Make | src/lib/predictions/bottlenecks.ts:54-68 | a bottleneck carrying exactly the given fields, dated `horizon` calendar days after the day of the run |
| Bottlenecks.DecisionBottleneckOf | src/lib/predictions/bottlenecks.ts:50-72 | a bottleneck exactly when at least two decisions are pending; then probability 80, 3 impact days per pending decision, 7 days ahead, critical exactly above three pending, else high |
| Bottlenecks.ResourceBottleneckOf | src/lib/predictions/bottlenecks.ts:74-96 | a bottleneck exactly when there is a pattern with momentum above 70 and completion is under 50 %; then medium, probability 60, 14 impact days, 21 days ahead |
| Bottlenecks.TechnicalBottleneckOf | src/lib/predictions/bottlenecks.ts:98-126 | a bottleneck exactly when there is a pattern one of whose recurring blockers mentions technique, bug or debt; then high, probability 75, 10 impact days, 14 days ahead |
| Bottlenecks.CandidatesInRuleOrder | src/lib/predictions/bottlenecks.ts:35-45 | the k-th rule can only produce the k-th bottleneck type, for the project at hand |
| Bottlenecks.ProjectBottlenecks | src/lib/predictions/bottlenecks.ts:15-48 | [] for a missing project; otherwise at most three bottlenecks, all for that project, in rule order, never of the dependency type, and a bottleneck is listed exactly when its rule fired |
| Bottlenecks.PredictProjectBottlenecks | src/lib/predictions/bottlenecks.ts:15-48 | the list built by pushing each rule's bottleneck in turn equals `ProjectBottlenecks` |
| Bottlenecks.NoPatternOnlyDecisions | src/lib/predictions/bottlenecks.ts:74-105 | without a pattern analysis only the decision bottleneck can be reported |
| Bottlenecks.AllBottlenecks | src/lib/predictions/bottlenecks.ts:128-143 | [] when the project query fails; otherwise at most three per project, and a bottleneck is listed exactly when it is predicted for one of the projects |
| Bottlenecks.PerProject | src/lib/predictions/bottlenecks.ts:138-140 | each project's bottlenecks, one list per project in project order, each of at most three |
| Completion.ConfidenceLevel | src/lib/predictions/completion.ts:61-66 | the level left by overwriting the baseline 60 trend test by trend is 75, 80, 50, 30 for stable, accelerating, decelerating, stagnant, 60 otherwise, within [30, 80] |
| Completion.ConfidenceFollowsTrend | src/lib/predictions/completion.ts:62-66 | a better trend never lowers the confidence, with an unknown trend between decelerating and stable |
| Completion.ForecastOf | src/lib/predictions/completion.ts:16-85 | no forecast exactly for a missing project, one at exactly 100 %, one without pattern analysis or one whose daily velocity (30-day velocity / 30) is not positive; otherwise the project's completion, that daily velocity, its blockers, the trend's confidence, a realistic (= predicted) date at remaining / daily velocity days from now, an optimistic date at 0.8 times and a pessimistic date at 1.4 times those days |
| Completion.ScenarioOrder | src/lib/predictions/completion.ts:50-59 | for an unfinished project today ≤ optimistic ≤ realistic ≤ pessimistic date |
| Completion.OverCompleteRunsBackwards | src/lib/predictions/completion.ts:47-59 | above 100 % the remaining days are negative and the order flips: pessimistic ≤ realistic ≤ optimistic |
| Completion.ForecastsOf | src/lib/predictions/completion.ts:98-100 | one forecast result per project, in project order |
| Completion.ForecastsOfMembers | src/lib/predictions/completion.ts:98-102 | a forecast is among the results exactly when it is the forecast of one of the projects |
| Completion.AllForecasts | src/lib/predictions/completion.ts:87-103 | [] when the project query fails; otherwise at most one per project, and a forecast is listed exactly when it is the forecast of an active project under 100 % |
| Completion.SaveCompletionForecast | src/lib/predictions/completion.ts:105-123 | the row keyed by (project, day of the run) becomes the forecast; every other row is unchanged |
| Suggestions.DeadlineIn | src/lib/recommendations/suggestions.ts:76 | the deadline `k` whole days after the run falls on the calendar day `k` days after today |
| Suggestions.FocusRecommendation | src/lib/recommendations/suggestions.ts:60-88 | a recommendation exactly when the latest health score is under 60; priority 1, time-sensitive, with a deadline in 7 days exactly under 50, otherwise priority 2 without deadline; five steps, the first naming the blocker or "Non spécifié"; confidence 85 |
| Suggestions.TextSteps | src/lib/recommendations/suggestions.ts:114 | the stored mitigation texts become the steps one for one, in order |
| Suggestions.MitigationRecommendation | src/lib/recommendations/suggestions.ts:97-120 | a recommendation exactly for an active prediction with probability ≥ 60; priority 1 exactly from 75, else 3; high impact exactly for major or severe; deadline at 70 % of the horizon; the stored mitigations or the three default steps; the stored confidence unless missing or 0, then 70 |
| Suggestions.MitigationRecommendations | src/lib/recommendations/suggestions.ts:90-124 | at most one recommendation per prediction, each a time-sensitive risk mitigation of priority 1 or 3 for the project; a recommendation is listed exactly when some prediction gives it |
| Suggestions.MitigationCount | src/lib/recommendations/suggestions.ts:97-121 | exactly one recommendation per actionable prediction |
| Suggestions.MitigationOptions | src/lib/recommendations/suggestions.ts:97-121 | the possible recommendation of each prediction, one per prediction, in list order |
| Suggestions.MitigationsInListOrder | src/lib/recommendations/suggestions.ts:97-121 | the mitigation recommendations are the present entries of that list, in prediction order |
| Suggestions.RiskMitigationRecommendations | src/lib/recommendations/suggestions.ts:90-124 | the loop that skips inactive or unlikely predictions and pushes the rest returns `MitigationRecommendations` |
| Suggestions.OpportunityRecommendation | src/lib/recommendations/suggestions.ts:126-160 | a recommendation exactly when there are a pattern with momentum above 70 and a health score above 60 and completion is under 90 %; priority 2, high impact, deadline in 14 days, five steps ending with the cash-impact step, confidence 75 |
| Suggestions.ResourceRecommendation | src/lib/recommendations/suggestions.ts:162-213 | a recommendation exactly when the latest health is under 55 with cash impact above 7, or under 50 with cash impact under 5; the first case wins (priority 2, significant, time-sensitive, five steps, confidence 80), otherwise priority 3, quick win, four steps, confidence 70; never a deadline |
| Suggestions.PortfolioRecommendation | src/lib/recommendations/suggestions.ts:215-242 | a recommendation exactly when the latest portfolio health lost more than 5 points in 7 days; a priority-1 portfolio focus with a deadline in 3 days, five steps, confidence 90 |
| Suggestions.ProjectRecommendations | src/lib/recommendations/suggestions.ts:38-50 | every recommendation of one project has priority 1 to 3 and targets that project; they come in push order (focus, the mitigations, opportunity, resource), so their number is the focus, opportunity and resource recommendations present plus one per actionable prediction |
| Suggestions.PerProject | src/lib/recommendations/suggestions.ts:38-50 | one recommendation list per project, in project order |
| Suggestions.Generated | src/lib/recommendations/suggestions.ts:38-53 | the pushed recommendations are exactly those of some project and the portfolio one, all of priority 1 to 3 |
| Suggestions.AtPriority | src/lib/recommendations/suggestions.ts:55-56 | the recommendations of one priority, in their original order |
| Suggestions.ByPriority | src/lib/recommendations/suggestions.ts:55-56 | the result is ordered by priority |
| Suggestions.ByPriorityIsPermutation | src/lib/recommendations/suggestions.ts:55-56 | with priorities 1 to 3 the sort loses and invents nothing (same multiset) |
| Suggestions.ByPriorityIsStable | src/lib/recommendations/suggestions.ts:55-56 | the sort is stable: within each priority the original order is kept |
| Suggestions.SmartSuggestions | src/lib/recommendations/suggestions.ts:20-58 | [] when the project query fails; otherwise at most ten recommendations, ordered by priority, taken from the generated ones, and all of them when there are at most ten |
| Suggestions.DroppedNotMoreUrgent | src/lib/recommendations/suggestions.ts:55-57 | a generated recommendation that was cut is never more urgent than the tenth one kept |
| Suggestions.PushProjectRecommendations | src/lib/recommendations/suggestions.ts:39-49 | one iteration of the project loop appends exactly that project's recommendations |
| Suggestions.GenerateSmartSuggestions | src/lib/recommendations/suggestions.ts:20-58 | the loop over the projects followed by the portfolio push, the sort and the cut returns `SmartSuggestions` |
| Playbooks.Addressed | src/lib/recommendations/playbooks.ts:65-70 | the situations among those given that apply and whose keyword the playbook's text contains, in order |
| Playbooks.Applying | src/lib/recommendations/playbooks.ts:57-63 | exactly the situations (stagnation, risk, technique, resources) that apply to the project |
| Playbooks.AddressedCount | src/lib/recommendations/playbooks.ts:65-70 | at most four situations are addressed |
| Playbooks.MatchOf | src/lib/recommendations/playbooks.ts:44-93 | no match exactly when no situation is addressed; otherwise 25 points per addressed situation (so 25 to 100, above 50 exactly from three), exactly the first three rules of the playbook (all of them when it has fewer, none without rules), the situations that apply as context, and the timeline adaptation plus the finishing one exactly above 50 % completion |
| Playbooks.AddressedMeansNamed | src/lib/recommendations/playbooks.ts:66 | every addressed situation applies and its keyword occurs in the playbook's lower-cased text |
| Playbooks.CalculatePlaybookMatch | src/lib/recommendations/playbooks.ts:44-93 | the score accumulated keyword by keyword, the context and the adaptations pushed in turn give `MatchOf` |
| Playbooks.StrongMatchOf | src/lib/recommendations/playbooks.ts:35-36 | a match is kept exactly when at least three situations are addressed, and then scores 75 or 100 |
| Playbooks.StrongMatches | src/lib/recommendations/playbooks.ts:34-39 | at most one kept match per playbook, each scoring 75 or 100, exactly the kept matches of the playbooks |
| Playbooks.WithScore | src/lib/recommendations/playbooks.ts:41 | the matches with one score, in their original order |
| Playbooks.BestFirst | src/lib/recommendations/playbooks.ts:41 | the result is ordered by decreasing score |
| Playbooks.BestFirstIsPermutation | src/lib/recommendations/playbooks.ts:41 | with scores 75 and 100 the sort loses and invents nothing (same multiset) |
| Playbooks.BestFirstIsStable | src/lib/recommendations/playbooks.ts:41 | matches with equal scores keep the playbook order |
| Playbooks.MatchPlaybooks | src/lib/recommendations/playbooks.ts:12-42 | [] for a missing project or a failed playbook query; otherwise a reordering of the kept matches, best first, each scoring above 50 |
| Playbooks.MatchPlaybooksToSituation | src/lib/recommendations/playbooks.ts:12-42 | the loop that pushes each match scoring above 50, followed by the sort, returns `MatchPlaybooks` |
| Playbooks.PlaybookRecommendation | src/lib/recommendations/playbooks.ts:95-112 | the saved row is a priority-3 decision recommendation for the project, linked to the playbook, high impact exactly above a score of 80, with the adaptations as steps and the score as confidence, not time-sensitive and without deadline |
| Playbooks.HighImpactIffAllFour | src/lib/recommendations/playbooks.ts:98-111 | a kept match is saved with high impact exactly when the playbook addresses all four situations |
| Decisions.Present | src/lib/recommendations/decisions.ts:58 | dropping the empty arguments keeps exactly the non-empty ones and leaves no empty one |
| Decisions.PaceVerdict | src/lib/recommendations/decisions.ts:101-108 | accelerate exactly when health is above 70 and momentum above 70; maintain-or-pause exactly under 50 health; maintain exactly in the remaining cases |
| Decisions.AcceleratePros | src/lib/recommendations/decisions.ts:53-58 | positive momentum is listed exactly while the trend is accelerating; no empty argument |
| Decisions.AccelerateProsListed | src/lib/recommendations/decisions.ts:53-58 | the correct health (rounded) and the high cash impact, then positive momentum only while accelerating, then fast delivery |
| Decisions.AccelerateCons | src/lib/recommendations/decisions.ts:59-64 | falling velocity is listed exactly while the trend is decelerating; no empty argument |
| Decisions.AccelerateConsListed | src/lib/recommendations/decisions.ts:59-64 | the resource cost and the burnout risk, then falling velocity only while decelerating, then the effect on other projects |
| Decisions.AccelerateOption | src/lib/recommendations/decisions.ts:51-67 | the accelerate option, medium risk exactly under 60 health, otherwise low, positive momentum for it exactly while accelerating, falling velocity against it exactly while decelerating, and no empty argument |
| Decisions.MaintainCons | src/lib/recommendations/decisions.ts:75-79 | weak health is listed exactly under 60 health; continued decline exactly while decelerating; no empty argument |
| Decisions.MaintainConsListed | src/lib/recommendations/decisions.ts:75-79 | continued decline only while decelerating, then weak health only under 60 health, then the missed acceleration |
| Decisions.MaintainOption | src/lib/recommendations/decisions.ts:68-82 | the maintain option, always low risk, with its three fixed arguments for, weak health against it exactly under 60 health and continued decline exactly while decelerating |
| Decisions.PauseOption | src/lib/recommendations/decisions.ts:83-98 | the pause option, high risk exactly above a cash impact of 7, else medium; a moderate cash impact for it exactly under 6; its four arguments against are not filtered, so the first is empty unless the cash impact is above 7, and the third names the completion |
| Decisions.PauseOptionListed | src/lib/recommendations/decisions.ts:85-95 | for pausing, the moderate cash impact only under 6, then the freed resources and the time to reflect; against it, unfiltered, the lost high cash impact above 7 (else an empty argument), the lost momentum, the completion invested and the restart difficulty |
| Decisions.PaceSupport | src/lib/recommendations/decisions.ts:49-116 | the pace analysis of the project, with the pace verdict and the accelerate, maintain and pause options in that order |
| Decisions.BlockerSupport | src/lib/recommendations/decisions.ts:118-173 | the blocker analysis with the fixed verdict and the resolve (low risk), work-around (medium) and escalate (medium) options, three arguments each way |
| Decisions.DecisionSupports | src/lib/recommendations/decisions.ts:19-47 | nothing for a missing project; otherwise the pace analysis first exactly when a health score and a pattern analysis exist, then the blocker analysis exactly when the blocker is set and not 'Aucun' |
| Decisions.GenerateDecisionSupport | src/lib/recommendations/decisions.ts:19-47 | the two conditional pushes return `DecisionSupports` |
| Decisions.OptionSteps | src/lib/recommendations/decisions.ts:188 | one step per option, naming that option, in option order |
| Decisions.DecisionRecommendation | src/lib/recommendations/decisions.ts:175-191 | the saved row is a priority-2, high-impact, moderate-effort decision for the project with confidence 75, and one step per option in option order |
| Decisions.SavedStepsFollowOptions | src/lib/recommendations/decisions.ts:188 | a saved analysis with three options lists exactly their three kinds, in order |
| Decisions.SavedPaceSteps | src/lib/recommendations/decisions.ts:175-191 | a saved pace analysis lists accelerate, maintain and pause, in that order |
| Decisions.SavedBlockerSteps | src/lib/recommendations/decisions.ts:175-191 | a saved blocker analysis lists resolve, work around and escalate, in that order |
| Trajectories.PromptText | src/lib/oracle/trajectories.ts:89-93 | every question a trajectory asks is non-empty and ends with a question mark |
| Trajectories.Put | src/lib/oracle/trajectories.ts:109-112 | assigning a key sets it to the percentage, leaves every other key as it was, and changes the total by the new value minus the old one |
| Trajectories.Pair | src/lib/oracle/trajectories.ts:85-88 | a two-key allocation literal: the second key always holds its value; the first key holds its own only when it differs, and the total is both values, or the second alone when the keys collide |
| Trajectories.PutAllLookup | src/lib/oracle/trajectories.ts:109-112 | after the reduce every slug of the list maps to the share and no other key is set |
| Trajectories.PutAllTotal | src/lib/oracle/trajectories.ts:109-112 | the reduce's total is the share times the number of distinct slugs, a repeated slug counting once |
| Trajectories.MulSucc | src/lib/oracle/trajectories.ts:109-112 | one more distinct slug adds one share to the total |
| Trajectories.DistinctKeysCount | src/lib/oracle/trajectories.ts:109-112 | with no repeated slug there are as many distinct slugs as projects |
| Trajectories.ConcentrationMomentum | src/lib/oracle/trajectories.ts:70-71 | the latest momentum, except that a missing analysis and a momentum of 0 give 50 |
| Trajectories.ConcentrationTrajectory | src/lib/oracle/trajectories.ts:69-97 | trajectory 1 on the project, delivery in ceil((100 − completion)/10) weeks, 70 on its slug and 30 on 'autres', three questions, the opportunity tone exactly above a momentum of 70 (else neutral), a confidence note exactly under 60 |
| Trajectories.Slugs | src/lib/oracle/trajectories.ts:109-112 | the slugs of the projects, one per project, in order |
| Trajectories.BalanceTrajectory | src/lib/oracle/trajectories.ts:99-120 | trajectory 2, neutral, three questions, no note; every slug gets round(100/n), no other key, and the total is that share per distinct slug |
| Trajectories.BalanceTotalDrift | src/lib/oracle/__tests__/trajectories.test.ts:40-51 | with distinct slugs the balance allocation totals n × round(100/n): within [95, 105] up to 17 projects, 108 at 18 |
| Trajectories.ShareDrift | src/lib/oracle/trajectories.ts:110 | n × round(100/n) lies within [95, 105] for 1 to 17 projects and is 108 for 18 |
| Trajectories.ShareTotalsFew | src/lib/oracle/trajectories.ts:110 | for 1 to 6 projects the shares total 99 to 102 |
| Trajectories.ShareTotalsMiddle | src/lib/oracle/trajectories.ts:110 | for 7 to 12 projects the shares total 96 to 104 |
| Trajectories.ShareTotalsMany | src/lib/oracle/trajectories.ts:110 | for 13 to 17 projects the shares total 96 to 105, and 108 for 18 |
| Trajectories.UnblockingTrajectory | src/lib/oracle/trajectories.ts:122-145 | trajectory 3 on the project, its blocker or "Blocage non spécifié", 80 on its slug and 20 on 'autres', three questions, the gentle-attention tone and the blocker note |
| Trajectories.HighestCash | src/lib/oracle/trajectories.ts:148-150 | none exactly when no project has a positive cash impact; otherwise the first project with the greatest cash impact, which is positive |
| Trajectories.OpportunityTrajectory | src/lib/oracle/trajectories.ts:147-188 | trajectory 3 in the opportunity tone without note; exploration (30 exploration, 70 maintenance) exactly when no project has a positive cash impact, otherwise acceleration of the highest-cash project (70 on its slug, 30 on 'autres') |
| Trajectories.FixedAllocationTotals | src/lib/oracle/trajectories.ts:85-180 | the fixed allocations total 100, except that a project slugged 'autres' is overwritten by the second key |
| Trajectories.MomentumKeys | src/lib/oracle/trajectories.ts:37-41 | the momentum sort key of each project, in order |
| Trajectories.HighMomentum | src/lib/oracle/trajectories.ts:37-43 | the head of the stable descending sort: the first project with the greatest momentum key |
| Trajectories.ThirdTrajectory | src/lib/oracle/trajectories.ts:45-64 | unblock the first project whose latest health is under 60, otherwise the opportunity trajectory |
| Trajectories.WeeklyTrajectories | src/lib/oracle/trajectories.ts:16-67 | none exactly when the fetch fails or finds no active project; otherwise exactly three trajectories numbered 1, 2, 3 with three questions each: concentration on the highest-momentum project, balance, then the third |
| Trajectories.ThirdTrajectoryChoice | src/lib/oracle/trajectories.ts:45-64 | the third trajectory unblocks exactly when some project needs attention, then the first such; it explores exactly when none needs attention and none has a positive cash impact |
| Trajectories.GenerateWeeklyTrajectories | src/lib/oracle/trajectories.ts:16-67 | the pushes followed by the cut to three return `WeeklyTrajectories` |
| Trajectories.SaveWeeklyTrajectories | src/lib/oracle/trajectories.ts:190-223 | the rows of the current week (starting on Monday) are deleted and the new trajectories appended for that week; other weeks are kept |
| Trajectories.SavedWeek | src/lib/oracle/trajectories.ts:190-223 | after saving, the current week holds exactly the new trajectories and every other week is unchanged |
| Questions.AskText | src/lib/oracle/questions.ts:55-120 | every question's text is non-empty and ends with a question mark |
| Questions.ElapsedDays | src/lib/oracle/questions.ts:51-53 | the whole days elapsed, rounded down: d days fit in the elapsed time and d + 1 do not |
| Questions.DecisionCandidate | src/lib/oracle/questions.ts:49-63 | a question exactly when the pending-decision query returned a decision; it asks what holds back the oldest one, with its title and the days it has waited, and refers to that decision |
| Questions.StagnationCandidate | src/lib/oracle/questions.ts:66-77 | a question exactly when the query returned a stalled analysis; it asks about the most inactive project, with its name and inactive days, as a reflection on that project |
| Questions.ConcentrationCandidate | src/lib/oracle/questions.ts:80-88 | a question exactly when at least three projects are active; it asks which single project to concentrate on, naming the count, about the portfolio |
| Questions.SilenceCandidate | src/lib/oracle/questions.ts:99-120 | a question exactly when the lowest-cash-impact active project has a latest health under 60; it asks whether that project deserves a strategic pause |
| Questions.Fired | src/lib/oracle/questions.ts:49-88 | at most three of the conditional questions fire |
| Questions.Candidates | src/lib/oracle/questions.ts:49-120 | the questions in generation order: the fired conditional ones, then the quick win, then the pause question when there is one |
| Questions.StrategicQuestions | src/lib/oracle/questions.ts:22-123 | between one and three questions, a prefix of the candidates, all of them when there are at most three |
| Questions.HeadCandidates | src/lib/oracle/questions.ts:49-120 | the candidates split into the fired conditional questions, the quick win and the optional pause question, and none of the first part is the quick win or a pause question |
| Questions.QuickWinSurvives | src/lib/oracle/questions.ts:90-122 | the quick-win question is returned exactly when at most two conditional questions fired |
| Questions.PauseSurvives | src/lib/oracle/questions.ts:106-122 | the pause question is returned exactly when it was generated and at most one conditional question fired |
| Questions.ConcentrationAskedIff | src/lib/oracle/questions.ts:80-88 | the concentration question is generated exactly when at least three projects are active |
| Questions.GenerateStrategicQuestions | src/lib/oracle/questions.ts:22-123 | the conditional pushes followed by the cut to three return `StrategicQuestions` |
| Questions.SaveStrategicQuestions | src/lib/oracle/questions.ts:125-154 | the rows of the current week (starting on Monday) are deleted and the new questions appended for that week; other weeks are kept |
| Summary.WeekOf | src/lib/oracle/summary.ts:16-26 | the week runs from a Monday to the Sunday six days later and contains today |
| Summary.SundayAfterMidnightLeftOut | src/lib/oracle/summary.ts:63-68 | the decision window ends at the midnight that opens Sunday, so a decision taken later that Sunday is left out although it belongs to the week |
| Summary.Categorise | src/lib/oracle/summary.ts:46-60 | the advancing and attention lists are the projects passing each test, in order; stable keeps those in neither |
| Summary.CategoriesCover | src/lib/oracle/summary.ts:46-60 | every project lands in at least one list; it is advancing, needs attention or is stable exactly when the corresponding test holds, stable meaning neither |
| Summary.CategoriesMayOverlap | src/lib/oracle/summary.ts:47-56 | an accelerating project inactive for more than 14 days is both advancing and in need of attention, and not stable |
| Summary.Parts | src/lib/oracle/summary.ts:110-122 | one part per non-empty list among advancing, attention and stable |
| Summary.Completions | src/lib/oracle/summary.ts:104-106 | the completion of each project, in order |
| Summary.JoinSnoc | src/lib/oracle/summary.ts:114-121 | joining one more part adds the separator only when a part was already there |
| Summary.AppendPart | src/lib/oracle/summary.ts:114-122 | appending ", " after an earlier part and then the new part gives the join of the parts so far |
| Summary.BuildOverviewNarrative | src/lib/oracle/summary.ts:97-127 | the text built with `+=` equals the header, the non-empty parts joined by ", " and the average-completion footer |
| Summary.ShownMomentum | src/lib/oracle/summary.ts:133-134 | the latest momentum, or 50 without an analysis |
| Summary.AdvanceLines | src/lib/oracle/summary.ts:129-137 | one line per advancing project, in order |
| Summary.AttentionEntryOf | src/lib/oracle/summary.ts:142-163 | an entry for the project naming the inactive days exactly when they exceed 14, the blocker exactly when it is set, not 'Aucun' and not 'Progression ralentie', and the quick-win note exactly when the latest momentum exceeds 40 |
| Summary.BuildAttentionText | src/lib/oracle/summary.ts:149-163 | the text built with `+=` is the entry's name followed by each present part, in order |
| Summary.AttentionLines | src/lib/oracle/summary.ts:139-165 | one entry text per project needing attention, in order |
| Summary.WeekDecisions | src/lib/oracle/summary.ts:62-68 | none when the query fails; otherwise exactly the decisions inside the week's window |
| Summary.DecisionEntries | src/lib/oracle/summary.ts:167-179 | one entry per decision of the week, in order, with its title, day and project name or 'N/A' |
| Summary.GenerateWeeklySummary | src/lib/oracle/summary.ts:13-95 | the current week in all cases; the placeholder exactly when the project query fails; otherwise the overview, advances, attention and decision texts of the categorised projects |
| Summary.SaveWeeklySummary | src/lib/oracle/summary.ts:234-249 | the row keyed by the week's Monday becomes the summary; every other week is unchanged |
| Radar.SeverityWeight | src/app/api/risks/radar/route.ts:18-24 | low 1, medium 3, high 7, critical 10, and 1 for an unknown severity: always within [1, 10] |
| Radar.ProbabilityFactor | src/app/api/risks/radar/route.ts:19-25 | low 0.3, medium 0.6, high 0.9; 'critical' is not in the table and, like an unknown value, counts 0.5: always within [0.3, 0.9] |
| Radar.Weight | src/app/api/risks/radar/route.ts:24-26 | one risk weighs between 0.3 and 9 |
| Radar.Accumulate | src/app/api/risks/radar/route.ts:23-27 | the left-to-right sum of the weights is never negative and is positive as soon as there is a risk |
| Radar.AccumulateAppend | src/app/api/risks/radar/route.ts:23-27 | the sum over two lists is the sum of their sums |
| Radar.InCategory | src/app/api/risks/radar/route.ts:22 | exactly the given risks of that category |
| Radar.ScoreBounds | src/app/api/risks/radar/route.ts:21-31 | every category score lies in [0, 10], and is 0 exactly when no active risk has that category |
| Radar.ScoreMonotone | src/app/api/risks/radar/route.ts:21-31 | one more risk never lowers a category's score and leaves the other categories' scores unchanged |
| Radar.RadarOf | src/app/api/risks/radar/route.ts:4-42 | the failure response exactly when the query fails; otherwise each of the four fields is the capped score of its category over the active risks, and the count is the number of active risks |
| Radar.ActiveSnoc | src/app/api/risks/radar/route.ts:7-10 | one more row adds itself to the active rows exactly when it is active |
| Radar.RadarMonotone | src/app/api/risks/radar/route.ts:21-41 | recording one more risk never lowers a score and raises the count by one exactly when it is active; a risk with no category moves no score |
| Tables.KeyedTable.constructor | src/lib/analysis/health.ts:237-251 | an empty table |
| Tables.KeyedTable.Upsert | src/lib/analysis/health.ts:237-251 | the row under the key becomes the new value, all other rows stay; the table grows by one exactly when the key was new |
| Tables.UpsertSameKeyTwice | src/lib/oracle/summary.ts:237-248 | a re-run under the same key leaves only the second row, never two |
| Tables.Stamp | src/lib/oracle/trajectories.ts:208-222 | one row per item, in order, each stamped with the week's Monday |
| Tables.Kept | src/lib/oracle/trajectories.ts:202-205 | after the delete exactly the rows of other weeks remain |
| Tables.RowsOfWeek | src/lib/oracle/trajectories.ts:202-222 | the items stored for one week, in order, never more than the rows |
| Tables.RowsOfWeekAppend | src/lib/oracle/trajectories.ts:208-222 | the rows of a week in two consecutive stretches are those of each stretch, in order |
| Tables.RowsOfOtherWeeks | src/lib/oracle/trajectories.ts:202-205 | after the delete the week holds no row |
| Tables.RowsOfStamped | src/lib/oracle/trajectories.ts:208-222 | the inserted rows hold exactly the items, in order, for their week |
| Tables.WeeklyTable.constructor | src/lib/oracle/trajectories.ts:202-222 | an empty table |
| Tables.WeeklyTable.ReplaceWeek | src/lib/oracle/trajectories.ts:201-222 | the delete of the week followed by one insert per item: the kept rows of other weeks, then the new items stamped with the week |
| Tables.ReplaceWeekResult | src/lib/oracle/trajectories.ts:201-222 | after a refresh the week holds exactly the new items, in order, and every other week is as before |
| Tables.KeptWeek | src/lib/oracle/trajectories.ts:202-205 | the delete leaves every other week's rows as they were |
| Tables.StampOtherWeek | src/lib/oracle/trajectories.ts:208-222 | the inserted rows add nothing to any other week |
| Basics.Day | src/lib/predictions/risks.ts:86 | the calendar day (UTC) of an instant: the day whose 24 hours contain it |
| Basics.DayAfter | src/lib/predictions/risks.ts:86 | adding k whole days to an instant moves its calendar day by k |
| Basics.DayMonotone | src/lib/predictions/risks.ts:86 | a later instant never falls on an earlier day |
| Basics.DayAfterDays | src/lib/predictions/completion.ts:51 | a non-negative number of days from now never gives a day before today |
| Basics.DayAfterDaysMonotone | src/lib/predictions/completion.ts:51-59 | more days never give an earlier date |
| Basics.Weekday | src/lib/oracle/summary.ts:18 | the day of the week, 0 (Sunday) to 6 |
| Basics.DaysToMonday | src/lib/oracle/summary.ts:19 | between 0 and 6 days back, and that day is a Monday |
| Basics.WeekStart | src/lib/oracle/summary.ts:17-21 | a Monday at most six days before the given day |
| Basics.Round | src/lib/analysis/health.ts:190 | the nearest integer, halves rounding up |
| Basics.Ceil | src/lib/oracle/trajectories.ts:74 | the least integer not below the value |
| Basics.Round2 | src/lib/analysis/health.ts:68 | a whole number of hundredths within half a hundredth of the input |
| Basics.FirstMinIndex | src/lib/analysis/health.ts:180-182 | the first index holding the least value |
| Basics.Take | src/lib/oracle/questions.ts:122 | a prefix of the list, of length n or the whole list when shorter |
| Basics.Dedup | src/lib/analysis/patterns.ts:98-99 | the distinct values of the list, each once, nothing else |
| Basics.DedupKeepsFirstOccurrenceOrder | src/lib/analysis/patterns.ts:99 | the distinct values of a prefix are a prefix of the distinct values: first-occurrence order |
| Basics.FindIndex | src/lib/oracle/trajectories.ts:46-49 | the index of the first element satisfying the test, none exactly when no element does |
| Basics.Lower | src/lib/predictions/risks.ts:69-72 | lower-casing keeps the length |
| Basics.LowerFolds | src/lib/predictions/risks.ts:69-72 | lower-casing maps each ASCII capital to its small letter and leaves every other character as it is, so no ASCII capital remains |
| Basics.SomeMentionsWitness | src/lib/predictions/risks.ts:68-73 | some text mentions a keyword exactly when one of the texts does |
| Basics.OrElse | src/lib/recommendations/suggestions.ts:80 | the text when it is present and non-empty, otherwise the fallback |
| Basics.MinReal | src/app/api/risks/radar/route.ts:30 | the smaller of the two values |

## Left out

- Records.LatestHealth and Records.LatestPattern take the first row of an embedded `health_scores(*)` or `pattern_analyses(*)` select to be the newest. The source does not order those selects (`src/lib/recommendations/suggestions.ts:33`, `src/lib/recommendations/playbooks.ts:18`, `src/lib/recommendations/decisions.ts:25`, `src/lib/oracle/trajectories.ts:30`, `src/lib/oracle/questions.ts:101`, `src/lib/oracle/summary.ts:31`), so there `?.[0]` may be an older row than the model uses.
- Health.PortfolioHealthOf stores the concern and the opportunity as project ids. The source stores texts built from a second query for the project's name: `name: score/100` and `name: High momentum (m)`, each number rounded. On an empty portfolio it stores 'No active projects' and 'N/A', where the model stores none.
- Health.ProjectHealth does not build `factorsBreakdown` (`src/lib/analysis/health.ts:76-82`): the component scores are stored fields and their weights are the constants of Health.Overall.
- Supabase reads and writes, LLM calls and `Promise.all` concurrency are not modelled. Query results are parameters, and the stored tables are sequences.
- `savePatternAnalysis`, `saveRiskPrediction`, `saveBottleneckPrediction` and `saveRecommendation` are plain single-row inserts with no logic, so the model has no member for them.
- Free-form French texts are not modelled as strings: titles, contexts, rationales, tradeoffs, `whyNow` and the texts of suggestions. Steps, options and questions carry an enumerated kind in place of their text, except where a text is the point (questions end with "?").
- The markdown rendering of the weekly summary (`src/lib/oracle/summary.ts:181-232`) and its fr-FR date formatting are not modelled.
- Basics.NumText renders a non-integral number by its integer part only, because no template that reaches the model interpolates a fraction.
- IEEE floating point (rounding error, `NaN`, `Infinity`) is not modelled: numbers are exact reals.
- Anomalies.DetectHealthDrop: when the 7-day average is 0, the deviation is taken as 0, where JavaScript would divide by zero. The anomaly's existence does not depend on it.
- Time zones are not modelled: every date is UTC, including the local `getDay`/`setDate` arithmetic of the week start.
- Completion dates far enough ahead to give `Invalid Date` are not modelled.
- Basics.Lower folds ASCII letters only; `toLowerCase` on other letters and UTF-16 code units are not modelled.
- The order of keys in a JavaScript object is kept only where it shows: allocations are a sequence of shares.
- The resource rule's `portfolioHealth` parameter is never read by the source, so Suggestions.ResourceRecommendation does not take it; the trajectories' `allProjects` only feeds their free-text tradeoffs, which are not modelled.
- Properties stating that a calm-toned text contains no alarming word ("urgence", "il faut") are not proved. They are substring absences over literal prose.
- The radar's HTTP response body and its error message are not modelled: a failed query is `Failure`, and a successful one carries the four scores and the count.
