/**
 * The actionable steps a recommendation carries.  The engine writes most of
 * them as fixed sentences, a few with one interpolated value; each is a
 * constructor here and `StepText` renders it.  A step whose text comes from
 * the data store (a stored mitigation suggestion) is kept as `Text`.
 */
module Steps {
  import opened Basics

  /** The options a decision support offers: three for the project's pace,
      three for its blocker. */
  datatype OptionKind = Accelerate | Maintain | Pause | ResolveNow | Workaround | Escalate

  function OptionLabel(o: OptionKind): string
  {
    match o
    case Accelerate => "Accélérer (augmenter ressources)"
    case Maintain => "Maintenir (status quo)"
    case Pause => "Pauser (réallouer ressources)"
    case ResolveNow => "Résoudre immédiatement (sprint dédié)"
    case Workaround => "Contourner (workaround temporaire)"
    case Escalate => "Escalader (external help)"
  }

  /** The estimated impact an option states. */
  function OptionImpact(o: OptionKind): string
  {
    match o
    case Accelerate => "Delivery 30-40% plus rapide"
    case Maintain => "Completion selon timeline actuelle"
    case Pause => "Delivery repoussée indéfiniment"
    case ResolveNow => "Blocker résolu en 3-7 jours"
    case Workaround => "Progression reprend, résolution permanente à faire plus tard"
    case Escalate => "Résolution en 1-2 semaines"
  }

  datatype Step =
    | Text(text: string)
    // focus on a struggling project
    | AnalyseBlockerRootCause(blocker: string)
    | OrganiseFocusSession | IdentifyBlockingDecisions | DefineTimedActionPlan | AllocateResourcesIfNeeded
    // default risk mitigation
    | AnalyseRiskFactors | PrepareMitigationPlan | AllocatePreventionResources
    // acceleration opportunity
    | BuildOnMomentum | RaiseAllocationTemporarily | PrioritiseForTwoWeeks | DeliverBeforeMonthEnd
    | CashImpactRoi(cash: real)
    // strategic project under-performing
    | AnalyseUnderperformance | DoubleResources | PauseAndReallocate | CeoDecisionWithinWeek
    | DocumentRationale
    // weak project with little cash impact
    | ReassessStrategicRoi | CompareOpportunities | PauseIfNotCritical | DocumentResumeCriteria
    // falling portfolio health
    | StrategicSession | ReviewCriticalProjects | FindCommonPatterns | ReallocateIfNeeded | RecoveryPlan
    // playbook adaptations
    | AdaptTimeline | FocusOnFinishing
    // one per option of a decision support
    | ChooseOption(option: OptionKind)

  function StepText(s: Step): string
  {
    match s
    case Text(t) => t
    case AnalyseBlockerRootCause(b) => "Analyser cause root du blocker: \"" + b + "\""
    case OrganiseFocusSession => "Organiser session focus CEO (2h) cette semaine"
    case IdentifyBlockingDecisions => "Identifier décisions pending bloquantes"
    case DefineTimedActionPlan => "Définir plan action avec timeline"
    case AllocateResourcesIfNeeded => "Allouer ressources si nécessaire"
    case AnalyseRiskFactors => "Analyser facteurs de risque en détail"
    case PrepareMitigationPlan => "Préparer plan mitigation"
    case AllocatePreventionResources => "Allouer ressources prévention"
    case BuildOnMomentum => "Capitaliser sur momentum actuel"
    case RaiseAllocationTemporarily => "Augmenter allocation ressources temporairement"
    case PrioritiseForTwoWeeks => "Prioriser ce projet pour les 2 prochaines semaines"
    case DeliverBeforeMonthEnd => "Viser delivery avant fin du mois"
    case CashImpactRoi(c) => "Cash impact: " + NumText(c) + "/10 - ROI rapide potentiel"
    case AnalyseUnderperformance => "Analyser cause root de la faible performance"
    case DoubleResources => "Option A: Doubler ressources (budget + équipe) si critique"
    case PauseAndReallocate => "Option B: Pauser et réallouer vers projets plus performants"
    case CeoDecisionWithinWeek => "Décision CEO requise sous 1 semaine"
    case DocumentRationale => "Documenter rationale dans decisions"
    case ReassessStrategicRoi => "Réévaluer ROI stratégique du projet"
    case CompareOpportunities => "Comparer avec autres opportunités portefeuille"
    case PauseIfNotCritical => "Si non-critique: pauser et réallouer ressources"
    case DocumentResumeCriteria => "Documenter décision et critères de reprise"
    case StrategicSession => "Session stratégique CEO cette semaine"
    case ReviewCriticalProjects => "Review chaque projet critique individuellement"
    case FindCommonPatterns => "Identifier patterns communs aux problèmes"
    case ReallocateIfNeeded => "Réallouer ressources si nécessaire"
    case RecoveryPlan => "Définir plan redressement 30 jours"
    case AdaptTimeline => "Adapter timeline selon contexte projet"
    case FocusOnFinishing => "Focus sur finition plutôt que foundation"
    case ChooseOption(o) => "Option: " + OptionLabel(o) + " - " + OptionImpact(o)
  }
}
