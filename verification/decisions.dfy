/**
 * Decision support: for a project, a three-option analysis of its pace
 * (accelerate, maintain, pause) when its latest health score and pattern
 * analysis exist, and a three-option analysis of its blocker when it has
 * one.
 */
module Decisions {
  import opened Basics
  import opened Steps
  import opened Records

  /** The arguments listed for and against an option.  `Blank` is the empty
      string a conditional argument leaves when its condition is false. */
  datatype Point =
    | Blank
    // accelerate
    | HealthCorrect(score: int) | CashImpactHigh(cash: real) | MomentumPositive | FastDeliveryFastRoi
    | ExtraResourceCost | TeamBurnoutRisk | VelocityFalling | MayAffectOtherProjects
    // maintain
    | NoOrganisationalChange | BalancePreserved | MinimalRisk
    | VelocityMayKeepFalling | WeakHealthUnaddressed | MissedAcceleration
    // pause
    | ModerateCashImpact | ResourcesFreed | TimeToReflect
    | HighCashImpactLost | MomentumLost | CompletionInvested(completion: real) | HardToRestart
    // resolve the blocker now
    | QuickUnblocking | TeamFullFocus | PermanentIfDoneWell
    | HighShortTermCost | OtherTasksDelayed | PressureOnTeam
    // work around it
    | QuickSolution | ImmediateProgress | LowCost
    | TechnicalDebtCreated | BlockMayReturn | SuboptimalSolution
    // escalate it
    | ExternalExpertise | ProfessionalSolution | TeamFocusOnCore
    | HighCost | ExternalDependency | UncertainTimeline

  predicate NotBlank(p: Point)
  {
    p != Blank
  }

  /** `filter(Boolean)` on a list of arguments: drops the empty strings. */
  function Present(ps: seq<Point>): (r: seq<Point>)
    ensures Blank !in r
    ensures forall p :: p in r <==> p in ps && p != Blank
  {
    Filter(ps, NotBlank)
  }

  /** `cond ? text : ''`. */
  function When(cond: bool, p: Point): Point
  {
    if cond then p else Blank
  }

  datatype DecisionOption = DecisionOption(kind: OptionKind, pros: seq<Point>, cons: seq<Point>, risk: Level)

  /** The concluding advice of a decision support. */
  datatype Verdict = AccelerateVerdict | MaintainOrPauseVerdict | MaintainVerdict | AnalyseThenChoose

  /** What the decision is about: the project's pace, or its blocker. */
  datatype Subject = PaceOf(projectName: string) | BlockerOf(blocker: string)

  datatype DecisionSupport = DecisionSupport(subject: Subject, options: seq<DecisionOption>, verdict: Verdict)

  /** The advice on pace: accelerate a healthy project with momentum; for a
      weak one, maintain or pause; otherwise maintain. */
  function PaceVerdict(h: HealthScore, pa: PatternAnalysis): (v: Verdict)
    ensures v == AccelerateVerdict <==> h.overall > 70.0 && pa.momentum > 70
    ensures v == MaintainOrPauseVerdict <==> h.overall < 50.0
    ensures v == MaintainVerdict <==> 50.0 <= h.overall && !(h.overall > 70.0 && pa.momentum > 70)
  {
    if h.overall > 70.0 && pa.momentum > 70 then AccelerateVerdict
    else if h.overall < 50.0 then MaintainOrPauseVerdict
    else MaintainVerdict
  }

  /** The arguments for accelerating: momentum counts only while accelerating. */
  function AcceleratePros(p: Project, h: HealthScore, pa: PatternAnalysis): (r: seq<Point>)
    ensures MomentumPositive in r <==> pa.trend == Accelerating
    ensures Blank !in r
  {
    var m := When(pa.trend == Accelerating, MomentumPositive);
    var ps := [HealthCorrect(Round(h.overall)), CashImpactHigh(p.cashImpact), m, FastDeliveryFastRoi];
    assert MomentumPositive in ps <==> m == MomentumPositive;
    Present(ps)
  }

  /** The arguments for accelerating, in the order the source lists them. */
  lemma AccelerateProsListed(p: Project, h: HealthScore, pa: PatternAnalysis)
    ensures AcceleratePros(p, h, pa)
            == if pa.trend == Accelerating
               then [HealthCorrect(Round(h.overall)), CashImpactHigh(p.cashImpact), MomentumPositive, FastDeliveryFastRoi]
               else [HealthCorrect(Round(h.overall)), CashImpactHigh(p.cashImpact), FastDeliveryFastRoi]
  {
    var m := When(pa.trend == Accelerating, MomentumPositive);
    FilterMayDropThird(HealthCorrect(Round(h.overall)), CashImpactHigh(p.cashImpact), m, FastDeliveryFastRoi, NotBlank);
  }

  /** The arguments against accelerating: falling velocity only while decelerating. */
  function AccelerateCons(pa: PatternAnalysis): (r: seq<Point>)
    ensures VelocityFalling in r <==> pa.trend == Decelerating
    ensures Blank !in r
  {
    var v := When(pa.trend == Decelerating, VelocityFalling);
    var ps := [ExtraResourceCost, TeamBurnoutRisk, v, MayAffectOtherProjects];
    assert VelocityFalling in ps <==> v == VelocityFalling;
    Present(ps)
  }

  /** The arguments against accelerating, in the order the source lists them. */
  lemma AccelerateConsListed(pa: PatternAnalysis)
    ensures AccelerateCons(pa)
            == if pa.trend == Decelerating
               then [ExtraResourceCost, TeamBurnoutRisk, VelocityFalling, MayAffectOtherProjects]
               else [ExtraResourceCost, TeamBurnoutRisk, MayAffectOtherProjects]
  {
    var v := When(pa.trend == Decelerating, VelocityFalling);
    FilterMayDropThird(ExtraResourceCost, TeamBurnoutRisk, v, MayAffectOtherProjects, NotBlank);
  }

  /** The accelerate option: its risk is medium for a health under 60. */
  function AccelerateOption(p: Project, h: HealthScore, pa: PatternAnalysis): (o: DecisionOption)
    ensures o.kind == Accelerate && o.risk == (if h.overall < 60.0 then Medium else Low)
    ensures MomentumPositive in o.pros <==> pa.trend == Accelerating
    ensures VelocityFalling in o.cons <==> pa.trend == Decelerating
    ensures Blank !in o.pros && Blank !in o.cons
  {
    DecisionOption(Accelerate, AcceleratePros(p, h, pa), AccelerateCons(pa),
                   if h.overall < 60.0 then Medium else Low)
  }

  /** The arguments against maintaining: falling velocity while decelerating,
      unaddressed health under 60. */
  function MaintainCons(h: HealthScore, pa: PatternAnalysis): (r: seq<Point>)
    ensures WeakHealthUnaddressed in r <==> h.overall < 60.0
    ensures VelocityMayKeepFalling in r <==> pa.trend == Decelerating
    ensures Blank !in r
  {
    var v := When(pa.trend == Decelerating, VelocityMayKeepFalling);
    var w := When(h.overall < 60.0, WeakHealthUnaddressed);
    var ps := [v, w, MissedAcceleration];
    assert WeakHealthUnaddressed in ps <==> w == WeakHealthUnaddressed;
    assert VelocityMayKeepFalling in ps <==> v == VelocityMayKeepFalling;
    Present(ps)
  }

  /** The arguments against maintaining, in the order the source lists them. */
  lemma MaintainConsListed(h: HealthScore, pa: PatternAnalysis)
    ensures MaintainCons(h, pa)
            == (if pa.trend == Decelerating then [VelocityMayKeepFalling] else [])
               + (if h.overall < 60.0 then [WeakHealthUnaddressed] else [])
               + [MissedAcceleration]
  {
    var v := When(pa.trend == Decelerating, VelocityMayKeepFalling);
    var w := When(h.overall < 60.0, WeakHealthUnaddressed);
    FilterOfThree(v, w, MissedAcceleration, NotBlank);
    assert (if NotBlank(v) then [v] else []) == if pa.trend == Decelerating then [VelocityMayKeepFalling] else [];
    assert (if NotBlank(w) then [w] else []) == if h.overall < 60.0 then [WeakHealthUnaddressed] else [];
  }

  /** The maintain option: always low risk. */
  function MaintainOption(h: HealthScore, pa: PatternAnalysis): (o: DecisionOption)
    ensures o.kind == Maintain && o.risk == Low
    ensures WeakHealthUnaddressed in o.cons <==> h.overall < 60.0
    ensures VelocityMayKeepFalling in o.cons <==> pa.trend == Decelerating
    ensures Blank !in o.pros && Blank !in o.cons
    ensures o.pros == [NoOrganisationalChange, BalancePreserved, MinimalRisk]
  {
    DecisionOption(Maintain, [NoOrganisationalChange, BalancePreserved, MinimalRisk], MaintainCons(h, pa), Low)
  }

  /** The pause option: high risk when the cash impact is above 7.  Its
      disadvantages are not filtered, so a blank stays first when the cash
      impact is 7 or less. */
  function PauseOption(p: Project): (o: DecisionOption)
    ensures o.kind == Pause && o.risk == (if p.cashImpact > 7.0 then High else Medium)
    ensures ModerateCashImpact in o.pros <==> p.cashImpact < 6.0
    ensures Blank !in o.pros
    ensures |o.cons| == 4 && o.cons[0] == (if p.cashImpact > 7.0 then HighCashImpactLost else Blank)
    ensures o.cons[2] == CompletionInvested(p.completion)
  {
    DecisionOption(
      Pause,
      Present([When(p.cashImpact < 6.0, ModerateCashImpact), ResourcesFreed, TimeToReflect]),
      [When(p.cashImpact > 7.0, HighCashImpactLost), MomentumLost, CompletionInvested(p.completion), HardToRestart],
      if p.cashImpact > 7.0 then High else Medium)
  }

  /** The arguments for and against pausing, in the order the source lists
      them; only the arguments for are filtered. */
  lemma PauseOptionListed(p: Project)
    ensures PauseOption(p).pros
            == if p.cashImpact < 6.0 then [ModerateCashImpact, ResourcesFreed, TimeToReflect]
               else [ResourcesFreed, TimeToReflect]
    ensures PauseOption(p).cons
            == [if p.cashImpact > 7.0 then HighCashImpactLost else Blank, MomentumLost,
                CompletionInvested(p.completion), HardToRestart]
  {
    var m := When(p.cashImpact < 6.0, ModerateCashImpact);
    FilterMayDropFirst(m, ResourcesFreed, TimeToReflect, NotBlank);
  }

  /** `generatePaceDecisionSupport`: accelerate, maintain and pause, in that
      order, with the advice `PaceVerdict` gives. */
  function PaceSupport(p: Project, h: HealthScore, pa: PatternAnalysis): (r: DecisionSupport)
    ensures r.subject == PaceOf(p.name) && r.verdict == PaceVerdict(h, pa)
    ensures r.options == [AccelerateOption(p, h, pa), MaintainOption(h, pa), PauseOption(p)]
  {
    DecisionSupport(PaceOf(p.name), [AccelerateOption(p, h, pa), MaintainOption(h, pa), PauseOption(p)],
                    PaceVerdict(h, pa))
  }

  /** `generateBlockerDecisionSupport`: the same three options whatever the blocker. */
  function BlockerSupport(blocker: string): (r: DecisionSupport)
    ensures r.subject == BlockerOf(blocker) && r.verdict == AnalyseThenChoose
    ensures |r.options| == 3
    ensures r.options[0].kind == ResolveNow && r.options[0].risk == Low
    ensures r.options[1].kind == Workaround && r.options[1].risk == Medium
    ensures r.options[2].kind == Escalate && r.options[2].risk == Medium
    ensures forall k :: 0 <= k < 3 ==> |r.options[k].pros| == 3 && |r.options[k].cons| == 3
  {
    DecisionSupport(
      BlockerOf(blocker),
      [DecisionOption(ResolveNow, [QuickUnblocking, TeamFullFocus, PermanentIfDoneWell],
                      [HighShortTermCost, OtherTasksDelayed, PressureOnTeam], Low),
       DecisionOption(Workaround, [QuickSolution, ImmediateProgress, LowCost],
                      [TechnicalDebtCreated, BlockMayReturn, SuboptimalSolution], Medium),
       DecisionOption(Escalate, [ExternalExpertise, ProfessionalSolution, TeamFocusOnCore],
                      [HighCost, ExternalDependency, UncertainTimeline], Medium)],
      AnalyseThenChoose)
  }

  function PaceCandidate(s: Snapshot): Option<DecisionSupport>
  {
    if |s.health| > 0 && |s.patterns| > 0 then Some(PaceSupport(s.project, s.health[0], s.patterns[0])) else None
  }

  function BlockerCandidate(s: Snapshot): Option<DecisionSupport>
  {
    if IsBlocker(s.project.mainBlocker) then Some(BlockerSupport(s.project.mainBlocker.value)) else None
  }

  /** `generateDecisionSupport`: nothing for a missing project; otherwise the
      pace analysis when both a health score and a pattern analysis exist,
      then the blocker analysis when the project has a blocker other than
      'Aucun'. */
  function DecisionSupports(s: Option<Snapshot>): (r: seq<DecisionSupport>)
    ensures s.None? ==> r == []
    ensures s.Some? ==>
      var pace := |s.value.health| > 0 && |s.value.patterns| > 0;
      var blocker := IsBlocker(s.value.project.mainBlocker);
      |r| == (if pace then 1 else 0) + (if blocker then 1 else 0)
      && (pace ==> r[0] == PaceSupport(s.value.project, s.value.health[0], s.value.patterns[0]))
      && (blocker ==> r[|r| - 1] == BlockerSupport(s.value.project.mainBlocker.value))
  {
    if s.None? then []
    else ToSeq(PaceCandidate(s.value)) + ToSeq(BlockerCandidate(s.value))
  }

  /** `generateDecisionSupport` as the source runs it: two conditional pushes. */
  method GenerateDecisionSupport(s: Option<Snapshot>) returns (supports: seq<DecisionSupport>)
    ensures supports == DecisionSupports(s)
  {
    supports := [];
    if s.None? {
      return;
    }
    var pace := PaceCandidate(s.value);
    supports := PushPresent(supports, pace);
    var blocker := BlockerCandidate(s.value);
    supports := PushPresent(supports, blocker);
    assert [] + ToSeq(pace) == ToSeq(pace);
  }

  /** The steps of the saved row: one per option, in option order. */
  function OptionSteps(options: seq<DecisionOption>): (r: seq<Step>)
    ensures |r| == |options|
    ensures forall i :: 0 <= i < |r| ==> r[i] == ChooseOption(options[i].kind)
  {
    seq(|options|, i requires 0 <= i < |options| => ChooseOption(options[i].kind))
  }

  /** The row `saveDecisionSupport` inserts: a priority-2, high-impact decision
      on the project, with one step per option. */
  function DecisionRecommendation(d: DecisionSupport, projectId: string): (r: Recommendation)
    ensures r.category == DecisionCategory && r.priority == 2 && r.impact == High
    ensures r.effort == ModerateEffort && !r.timeSensitive && r.deadlineDay.None?
    ensures r.target == ProjectTarget(projectId) && r.confidence == 75.0 && r.playbookId.None?
    ensures |r.steps| == |d.options|
    ensures forall i :: 0 <= i < |r.steps| ==> r.steps[i] == ChooseOption(d.options[i].kind)
  {
    Recommendation(DecisionCategory, 2, High, ModerateEffort, false, None, ProjectTarget(projectId),
                   OptionSteps(d.options), 75.0, None)
  }

  /** A saved analysis lists its options' kinds, in option order. */
  lemma SavedStepsFollowOptions(d: DecisionSupport, projectId: string, k0: OptionKind, k1: OptionKind, k2: OptionKind)
    requires |d.options| == 3
    requires d.options[0].kind == k0 && d.options[1].kind == k1 && d.options[2].kind == k2
    ensures DecisionRecommendation(d, projectId).steps == [ChooseOption(k0), ChooseOption(k1), ChooseOption(k2)]
  {
  }

  /** A saved pace analysis lists accelerate, maintain and pause, in that order. */
  lemma SavedPaceSteps(p: Project, h: HealthScore, pa: PatternAnalysis, projectId: string)
    ensures DecisionRecommendation(PaceSupport(p, h, pa), projectId).steps
            == [ChooseOption(Accelerate), ChooseOption(Maintain), ChooseOption(Pause)]
  {
    var d := PaceSupport(p, h, pa);
    SavedStepsFollowOptions(d, projectId, d.options[0].kind, d.options[1].kind, d.options[2].kind);
  }

  /** A saved blocker analysis lists resolve, work around and escalate, in that order. */
  lemma SavedBlockerSteps(blocker: string, projectId: string)
    ensures DecisionRecommendation(BlockerSupport(blocker), projectId).steps
            == [ChooseOption(ResolveNow), ChooseOption(Workaround), ChooseOption(Escalate)]
  {
    SavedStepsFollowOptions(BlockerSupport(blocker), projectId, ResolveNow, Workaround, Escalate);
  }
}

/**
 * The French texts of the decision-support arguments and verdicts.
 */
module DecisionTexts {
  import opened Basics
  import opened Decisions

  function PointText(p: Point): string
  {
    match p
    case Blank => ""
    case HealthCorrect(n) => "Health correct (" + IntText(n) + "/100)"
    case CashImpactHigh(c) => "Cash impact élevé (" + NumText(c) + "/10)"
    case MomentumPositive => "Momentum positif"
    case FastDeliveryFastRoi => "Delivery rapide = ROI rapide"
    case ExtraResourceCost => "Coût ressources supplémentaires"
    case TeamBurnoutRisk => "Risque burnout équipe"
    case VelocityFalling => "Vélocité en baisse"
    case MayAffectOtherProjects => "Peut impacter autres projets"
    case NoOrganisationalChange => "Pas de changement organisationnel"
    case BalancePreserved => "Équilibre actuel préservé"
    case MinimalRisk => "Risque minimal"
    case VelocityMayKeepFalling => "Vélocité pourrait continuer à baisser"
    case WeakHealthUnaddressed => "Health faible non adressée"
    case MissedAcceleration => "Opportunités d'accélération manquées"
    case ModerateCashImpact => "Cash impact modéré"
    case ResourcesFreed => "Ressources libérées pour autres projets"
    case TimeToReflect => "Temps pour réflexion stratégique"
    case HighCashImpactLost => "Cash impact élevé perdu"
    case MomentumLost => "Momentum perdu"
    case CompletionInvested(c) => "Completion " + NumText(c) + "% déjà investi"
    case HardToRestart => "Peut être difficile de redémarrer"
    case QuickUnblocking => "Déblocage rapide progression"
    case TeamFullFocus => "Équipe focus 100%"
    case PermanentIfDoneWell => "Solution permanente si bien fait"
    case HighShortTermCost => "Coût court-terme élevé"
    case OtherTasksDelayed => "Autres tâches repoussées"
    case PressureOnTeam => "Pression sur équipe"
    case QuickSolution => "Solution rapide"
    case ImmediateProgress => "Progression immédiate"
    case LowCost => "Coût faible"
    case TechnicalDebtCreated => "Dette technique créée"
    case BlockMayReturn => "Blocage peut revenir"
    case SuboptimalSolution => "Solution non-optimale"
    case ExternalExpertise => "Expertise externe"
    case ProfessionalSolution => "Solution professionnelle"
    case TeamFocusOnCore => "Équipe interne focus sur core"
    case HighCost => "Coût élevé"
    case ExternalDependency => "Dépendance externe"
    case UncertainTimeline => "Timeline incertaine"
  }

  function VerdictText(v: Verdict): string
  {
    match v
    case AccelerateVerdict => "RECOMMANDATION: Accélérer. Projet en bonne santé avec momentum positif."
    case MaintainOrPauseVerdict =>
      "RECOMMANDATION: Maintenir ou Pauser selon priorité stratégique. Health faible nécessite investigation."
    case MaintainVerdict => "RECOMMANDATION: Maintenir. Velocity stable, pas d'urgence à changer."
    case AnalyseThenChoose =>
      "RECOMMANDATION: Analyser cause root puis choisir entre Résolution immédiate (si simple) ou Escalade (si complexe)."
  }
}
