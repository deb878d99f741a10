/**
 * Playbook matching: a playbook scores 25 points for each of four situations
 * that both applies to the project and is named in the playbook's text; the
 * playbooks scoring above 50 are returned, best first.
 */
module Playbooks {
  import opened Basics
  import opened Steps
  import opened Records

  /** A `playbooks` row; `None` stands for a null column. */
  datatype Playbook = Playbook(id: string, name: string, description: Option<string>, rules: Option<seq<string>>)

  /** The four situations, in the order the source lists them. */
  datatype Situation = Stagnation | RiskSituation | TechniqueSituation | ResourceSituation

  const Situations: seq<Situation> := [Stagnation, RiskSituation, TechniqueSituation, ResourceSituation]

  /** The keyword looked for in a playbook's text. */
  function Keyword(k: Situation): string
  {
    match k
    case Stagnation => "stagnation"
    case RiskSituation => "risk"
    case TechniqueSituation => "technique"
    case ResourceSituation => "ressource"
  }

  /** What the matcher knows of the project: its row and its latest health
      score and pattern analysis, if any. */
  datatype Context = Context(project: Project, health: Option<HealthScore>, pattern: Option<PatternAnalysis>)

  function ContextOf(s: Snapshot): Context
  {
    Context(s.project, LatestHealth(s), LatestPattern(s))
  }

  /** Whether a situation applies to the project.  A missing health score or
      pattern analysis makes the comparisons on it false. */
  predicate Applies(k: Situation, c: Context)
  {
    match k
    case Stagnation =>
      c.pattern.Some? && (c.pattern.value.trend == Stagnant || c.pattern.value.lastActivityDays > 14)
    case RiskSituation =>
      (c.health.Some? && c.health.value.riskScore < 50.0) || c.project.riskLevel == Some(High)
    case TechniqueSituation =>
      c.project.mainBlocker.Some?
      && (Contains(Lower(c.project.mainBlocker.value), "css") || Contains(Lower(c.project.mainBlocker.value), "technique"))
    case ResourceSituation =>
      c.health.Some? && c.health.value.overall < 60.0 && c.project.cashImpact > 7.0
  }

  /** The playbook's name, description and rules in lower case, as template
      interpolation renders them: a null description reads "null", missing
      rules read "undefined". */
  function PlaybookText(pb: Playbook): string
  {
    var description := if pb.description.Some? then pb.description.value else "null";
    var rules := if pb.rules.Some? then Join(pb.rules.value, " ") else "undefined";
    Lower(pb.name + " " + description + " " + rules)
  }

  /** A situation counts for a playbook when it applies and the playbook names it. */
  predicate Addresses(k: Situation, pb: Playbook, c: Context)
  {
    Applies(k, c) && Contains(PlaybookText(pb), Keyword(k))
  }

  /** The situations of `ks` that the playbook addresses, in order. */
  function Addressed(ks: seq<Situation>, pb: Playbook, c: Context): (r: seq<Situation>)
    ensures |r| <= |ks|
    ensures forall k :: k in r <==> k in ks && Addresses(k, pb, c)
  {
    if ks == [] then []
    else
      var n := |ks| - 1;
      Addressed(ks[..n], pb, c) + (if Addresses(ks[n], pb, c) then [ks[n]] else [])
  }

  /** The situations that apply to the project, in order. */
  function Applying(c: Context): (r: seq<Situation>)
    ensures forall k :: k in r <==> Applies(k, c)
  {
    Filter(Situations, (k: Situation) => Applies(k, c))
  }

  /** The text of `applicationContext`. */
  function ContextText(name: string, reasons: seq<Situation>): string
  {
    if reasons == [] then "Applicable à " + name + " car: "
    else
      ContextText(name, reasons[..|reasons| - 1]) +
      match reasons[|reasons| - 1]
      case Stagnation => "projet en stagnation, "
      case RiskSituation => "niveau de risque élevé, "
      case TechniqueSituation => "blockers techniques, "
      case ResourceSituation => "besoin ressources."
  }

  datatype PlaybookMatch = PlaybookMatch(
    playbookId: string,
    playbookName: string,
    matchScore: int,
    relevantRules: seq<string>,
    reasons: seq<Situation>,
    adaptations: seq<Step>)

  /** The number of situations a playbook addresses out of the four. */
  function AddressedCount(pb: Playbook, c: Context): (n: nat)
    ensures n <= 4
  {
    |Addressed(Situations, pb, c)|
  }

  /** `calculatePlaybookMatch`: no match when no situation is addressed;
      otherwise 25 points per addressed situation, the first three rules of
      the playbook, the situations that apply, and one or two adaptations. */
  function MatchOf(pb: Playbook, c: Context): (r: Option<PlaybookMatch>)
    ensures r.None? <==> AddressedCount(pb, c) == 0
    ensures r.Some? ==>
      r.value.playbookId == pb.id && r.value.playbookName == pb.name
      && r.value.matchScore == 25 * AddressedCount(pb, c)
      && r.value.matchScore in {25, 50, 75, 100}
      && (r.value.matchScore > 50 <==> AddressedCount(pb, c) >= 3)
      && |r.value.relevantRules| <= 3
      && (pb.rules.Some? ==> r.value.relevantRules <= pb.rules.value
                             && |r.value.relevantRules| == if |pb.rules.value| < 3 then |pb.rules.value| else 3)
      && (pb.rules.None? ==> r.value.relevantRules == [])
      && r.value.reasons == Applying(c)
      && r.value.adaptations == (if c.project.completion > 50.0 then [AdaptTimeline, FocusOnFinishing] else [AdaptTimeline])
  {
    var n := AddressedCount(pb, c);
    if n == 0 then None
    else
      assert n == 1 || n == 2 || n == 3 || n == 4;
      var adaptations := if c.project.completion > 50.0 then [AdaptTimeline, FocusOnFinishing] else [AdaptTimeline];
      Some(PlaybookMatch(pb.id, pb.name, if 25 * n < 100 then 25 * n else 100,
                         if pb.rules.Some? then Take(pb.rules.value, 3) else [],
                         Applying(c), adaptations))
  }

  /** Every situation addressed is one that applies and that the playbook's
      text names. */
  lemma AddressedMeansNamed(pb: Playbook, c: Context, k: Situation)
    requires k in Addressed(Situations, pb, c)
    ensures Applies(k, c) && Contains(PlaybookText(pb), Keyword(k))
  {
  }

  /** `calculatePlaybookMatch` as the source runs it: a score adding 25 for
      each situation addressed, in turn. */
  method CalculatePlaybookMatch(pb: Playbook, c: Context) returns (m: Option<PlaybookMatch>)
    ensures m == MatchOf(pb, c)
  {
    var score := 0;
    for i := 0 to |Situations|
      invariant score == 25 * |Addressed(Situations[..i], pb, c)|
    {
      var k := Situations[i];
      assert Situations[..i + 1][..i] == Situations[..i];
      if Applies(k, c) && Contains(PlaybookText(pb), Keyword(k)) {
        score := score + 25;
      }
    }
    assert Situations[..|Situations|] == Situations;
    if score == 0 {
      return None;
    }
    var adaptations := [AdaptTimeline];
    if c.project.completion > 50.0 {
      adaptations := adaptations + [FocusOnFinishing];
      assert adaptations == [AdaptTimeline, FocusOnFinishing];
    }
    var rules := if pb.rules.Some? then Take(pb.rules.value, 3) else [];
    assert score == 25 * AddressedCount(pb, c);
    m := Some(PlaybookMatch(pb.id, pb.name, if score < 100 then score else 100, rules, Applying(c), adaptations));
  }

  /** A match the source keeps: one scoring above 50, which is one
      addressing three or four situations. */
  function StrongMatchOf(pb: Playbook, c: Context): (r: Option<PlaybookMatch>)
    ensures r.Some? <==> AddressedCount(pb, c) >= 3
    ensures r.Some? ==> MatchOf(pb, c) == r && r.value.matchScore in {75, 100}
  {
    var m := MatchOf(pb, c);
    if m.Some? && m.value.matchScore > 50 then m else None
  }

  function StrongMatchFor(c: Context): Playbook -> Option<PlaybookMatch>
  {
    pb => StrongMatchOf(pb, c)
  }

  /** The strong matches of a list of playbooks, in playbook order. */
  function StrongMatches(pbs: seq<Playbook>, c: Context): (r: seq<PlaybookMatch>)
    ensures |r| <= |pbs|
    ensures forall m :: m in r ==> m.matchScore in {75, 100}
    ensures forall m :: m in r <==> exists i :: 0 <= i < |pbs| && StrongMatchOf(pbs[i], c) == Some(m)
  {
    var r := MapSomes(pbs, StrongMatchFor(c));
    forall m ensures m in r <==> exists i :: 0 <= i < |pbs| && StrongMatchOf(pbs[i], c) == Some(m) {
      MapSomesMembers(pbs, StrongMatchFor(c), m);
    }
    r
  }

  function Score(m: PlaybookMatch): int
  {
    m.matchScore
  }

  /** The matches with the given score, in their original order. */
  function WithScore(ms: seq<PlaybookMatch>, score: int): (r: seq<PlaybookMatch>)
    ensures forall m :: m in r <==> m in ms && m.matchScore == score
  {
    Group(ms, Score, score)
  }

  /** `sort((a, b) => b.matchScore - a.matchScore)` on scores 75 and 100:
      the stable sort puts the full matches first, each group in its
      original order. */
  function BestFirst(ms: seq<PlaybookMatch>): (r: seq<PlaybookMatch>)
    ensures forall i, j :: 0 <= i < j < |r| ==> r[i].matchScore >= r[j].matchScore
  {
    var a, b := WithScore(ms, 100), WithScore(ms, 75);
    var r := a + b;
    forall i | 0 <= i < |r|
      ensures r[i].matchScore == if i < |a| then 100 else 75
    {
      if i < |a| {
        assert r[i] == a[i];
      } else {
        assert r[i] == b[i - |a|];
      }
    }
    r
  }

  /** The sort loses and invents nothing when every score is 75 or 100. */
  lemma BestFirstIsPermutation(ms: seq<PlaybookMatch>)
    requires forall m :: m in ms ==> m.matchScore in {75, 100}
    ensures multiset(BestFirst(ms)) == multiset(ms)
  {
    TwoGroupsArePermutation(ms, Score, 100, 75);
  }

  /** The sort is stable: matches with equal scores keep the playbook order. */
  lemma BestFirstIsStable(ms: seq<PlaybookMatch>, score: int)
    requires score in {75, 100}
    ensures WithScore(BestFirst(ms), score) == WithScore(ms, score)
  {
    TwoGroupsKeepOrder(ms, Score, 100, 75, score);
  }

  /** `matchPlaybooksToSituation`: no project or no playbook list gives [];
      otherwise the strong matches, best first. */
  function MatchPlaybooks(s: Option<Snapshot>, playbooks: Option<seq<Playbook>>): (r: seq<PlaybookMatch>)
    ensures s.None? || playbooks.None? ==> r == []
    ensures s.Some? && playbooks.Some? ==>
      multiset(r) == multiset(StrongMatches(playbooks.value, ContextOf(s.value)))
    ensures forall i, j :: 0 <= i < j < |r| ==> r[i].matchScore >= r[j].matchScore
    ensures forall m :: m in r ==> m.matchScore > 50
  {
    if s.None? || playbooks.None? then []
    else
      var strong := StrongMatches(playbooks.value, ContextOf(s.value));
      BestFirstIsPermutation(strong);
      assert forall m :: m in BestFirst(strong) ==> m in multiset(strong);
      BestFirst(strong)
  }

  /** `matchPlaybooksToSituation` as the source runs it: one match per
      playbook, kept above 50, then sorted. */
  method MatchPlaybooksToSituation(s: Option<Snapshot>, playbooks: Option<seq<Playbook>>)
    returns (matches: seq<PlaybookMatch>)
    ensures matches == MatchPlaybooks(s, playbooks)
  {
    matches := [];
    if s.None? || playbooks.None? {
      return;
    }
    var pbs := playbooks.value;
    var c := ContextOf(s.value);
    for i := 0 to |pbs|
      invariant matches == MapSomes(pbs[..i], StrongMatchFor(c))
    {
      MapSomesPrefixSnoc(pbs, StrongMatchFor(c), i);
      var m := CalculatePlaybookMatch(pbs[i], c);
      if m.Some? && m.value.matchScore > 50 {
        matches := matches + [m.value];
      }
      assert ToSeq(StrongMatchFor(c)(pbs[i])) == if m.Some? && m.value.matchScore > 50 then [m.value] else [];
    }
    assert pbs[..|pbs|] == pbs;
    matches := BestFirst(matches);
  }

  /** The row `savePlaybookRecommendation` inserts: a priority-3 decision on
      the project, of high impact when the score is above 80, whose steps are
      the match's adaptations. */
  function PlaybookRecommendation(m: PlaybookMatch, projectId: string): (r: Recommendation)
    ensures r.category == DecisionCategory && r.priority == 3 && r.effort == ModerateEffort
    ensures r.impact == (if m.matchScore > 80 then High else Medium)
    ensures r.target == ProjectTarget(projectId) && r.playbookId == Some(m.playbookId)
    ensures r.steps == m.adaptations && r.confidence == m.matchScore as real
    ensures !r.timeSensitive && r.deadlineDay.None?
  {
    Recommendation(DecisionCategory, 3, if m.matchScore > 80 then High else Medium, ModerateEffort,
                   false, None, ProjectTarget(projectId), m.adaptations, m.matchScore as real,
                   Some(m.playbookId))
  }

  /** A returned match is saved as a high-impact recommendation exactly when
      the playbook addresses all four situations. */
  lemma HighImpactIffAllFour(pb: Playbook, c: Context, projectId: string)
    requires StrongMatchOf(pb, c).Some?
    ensures PlaybookRecommendation(StrongMatchOf(pb, c).value, projectId).impact == High
            <==> AddressedCount(pb, c) == 4
  {
  }
}
