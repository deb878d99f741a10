/**
 * The weekly strategic questions: up to five candidates generated in a
 * fixed order (oldest pending decision, most stagnant project, portfolio
 * concentration, quick win, strategic pause of the lowest-impact project),
 * of which the first three are kept.  The quick-win question is always a
 * candidate, so there is at least one question.
 */
module Questions {
  import opened Basics
  import opened Records
  import opened Tables

  datatype QuestionType = Reflection | DecisionQuestion | PriorityQuestion | StrategyQuestion

  /** The entity a question refers to, with its id when it has one. */
  datatype Related = NoEntity | DecisionEntity(id: string) | ProjectEntity(projectId: Option<string>) | PortfolioEntity

  /** A `pattern_analyses` row of at least 14 inactive days, joined with the
      id and name of its project when the join found one. */
  datatype StalledPattern = StalledPattern(projectId: Option<string>, projectName: Option<string>, lastActivityDays: int)

  /** What a question asks, with the values it interpolates. */
  datatype Ask =
    | WhatHoldsBack(title: string, days: int)
    | SilenceOrOversight(projectName: Option<string>, inactiveDays: int)
    | WhichOne(activeProjects: int)
    | WhichQuickWin
    | DeservesPause(name: string, cash: real)

  /** A question's text without its closing " ?". */
  function AskStem(a: Ask): string
  {
    match a
    case WhatHoldsBack(t, d) => "\"" + t + "\" attend depuis " + IntText(d) + " jours. Qu'est-ce qui te retient"
    case SilenceOrOversight(n, d) =>
      (match n case Some(name) => name case None => "undefined")
      + " sans mouvement depuis " + IntText(d) + " jours. Silence stratégique ou oubli"
    case WhichOne(c) =>
      IntText(c) + " projets actifs. Si tu devais concentrer 80% énergie sur 1 seul, lequel et pourquoi"
    case WhichQuickWin => "Quel quick win (2-3 jours max) générerait le plus de momentum cette semaine"
    case DeservesPause(n, c) => n + " (cash impact " + NumText(c) + "/10) mérite-t-il pause stratégique"
  }

  /** The question's text; every one of them ends with a question mark. */
  function AskText(a: Ask): (r: string)
    ensures |r| > 0 && r[|r| - 1] == '?'
  {
    AskStem(a) + " ?"
  }

  datatype StrategicQuestion = StrategicQuestion(ask: Ask, related: Related, questionType: QuestionType)

  // ---------------------------------------------------------------------
  // The five candidates
  // ---------------------------------------------------------------------

  /** `Math.floor(elapsed / day)`: whole days elapsed between two instants. */
  function ElapsedDays(fromMs: int, toMs: int): (d: int)
    ensures d * MsPerDay <= toMs - fromMs < (d + 1) * MsPerDay
  {
    (toMs - fromMs) / MsPerDay
  }

  /** Question 1: the oldest pending decision (the list is ordered by
      creation, oldest first). */
  function DecisionCandidate(pending: Option<seq<Decision>>, nowMs: int): (r: Option<StrategicQuestion>)
    ensures r.Some? <==> pending.Some? && |pending.value| > 0
    ensures r.Some? ==>
      var d := pending.value[0];
      r.value == StrategicQuestion(WhatHoldsBack(d.title, ElapsedDays(d.createdMs, nowMs)),
                                   DecisionEntity(d.id), DecisionQuestion)
  {
    if pending.Some? && |pending.value| > 0 then
      var d := pending.value[0];
      Some(StrategicQuestion(WhatHoldsBack(d.title, ElapsedDays(d.createdMs, nowMs)), DecisionEntity(d.id), DecisionQuestion))
    else None
  }

  /** Question 2: the most stagnant project (the list is ordered by
      inactivity, longest first). */
  function StagnationCandidate(stalled: Option<seq<StalledPattern>>): (r: Option<StrategicQuestion>)
    ensures r.Some? <==> stalled.Some? && |stalled.value| > 0
    ensures r.Some? ==>
      var p := stalled.value[0];
      r.value == StrategicQuestion(SilenceOrOversight(p.projectName, p.lastActivityDays),
                                   ProjectEntity(p.projectId), Reflection)
  {
    if stalled.Some? && |stalled.value| > 0 then
      var p := stalled.value[0];
      Some(StrategicQuestion(SilenceOrOversight(p.projectName, p.lastActivityDays), ProjectEntity(p.projectId), Reflection))
    else None
  }

  /** Question 3: asked when at least three projects are active. */
  function ConcentrationCandidate(activeCount: Option<int>): (r: Option<StrategicQuestion>)
    ensures r.Some? <==> activeCount.Some? && activeCount.value >= 3
    ensures r.Some? ==> r.value == StrategicQuestion(WhichOne(activeCount.value), PortfolioEntity, PriorityQuestion)
  {
    if activeCount.Some? && activeCount.value >= 3 then
      Some(StrategicQuestion(WhichOne(activeCount.value), PortfolioEntity, PriorityQuestion))
    else None
  }

  /** Question 4, always asked. */
  const QuickWinQuestion := StrategicQuestion(WhichQuickWin, NoEntity, StrategyQuestion)

  /** Question 5: the active project of lowest cash impact, when its latest
      health is under 60. */
  function SilenceCandidate(lowest: Option<seq<Snapshot>>): (r: Option<StrategicQuestion>)
    ensures r.Some? <==> lowest.Some? && |lowest.value| > 0
                         && |lowest.value[0].health| > 0 && lowest.value[0].health[0].overall < 60.0
    ensures r.Some? ==>
      var p := lowest.value[0].project;
      r.value == StrategicQuestion(DeservesPause(p.name, p.cashImpact), ProjectEntity(Some(p.id)), StrategyQuestion)
  {
    if lowest.Some? && |lowest.value| > 0 then
      var s := lowest.value[0];
      match LatestHealth(s)
      case Some(h) =>
        if h.overall < 60.0 then
          Some(StrategicQuestion(DeservesPause(s.project.name, s.project.cashImpact), ProjectEntity(Some(s.project.id)), StrategyQuestion))
        else None
      case None => None
    else None
  }

  /** The data the generator reads from the store. */
  datatype Inputs = Inputs(
    pending: Option<seq<Decision>>,
    stalled: Option<seq<StalledPattern>>,
    activeCount: Option<int>,
    lowest: Option<seq<Snapshot>>,
    nowMs: int)

  /** How many of the first three (conditional) questions were generated. */
  function Fired(i: Inputs): (n: nat)
    ensures n <= 3
  {
    |ToSeq(DecisionCandidate(i.pending, i.nowMs))| + |ToSeq(StagnationCandidate(i.stalled))|
      + |ToSeq(ConcentrationCandidate(i.activeCount))|
  }

  /** The candidates in generation order. */
  function Candidates(i: Inputs): (c: seq<StrategicQuestion>)
    ensures |c| == Fired(i) + 1 + |ToSeq(SilenceCandidate(i.lowest))|
    ensures c[Fired(i)] == QuickWinQuestion
  {
    ToSeq(DecisionCandidate(i.pending, i.nowMs)) + ToSeq(StagnationCandidate(i.stalled))
      + ToSeq(ConcentrationCandidate(i.activeCount)) + [QuickWinQuestion] + ToSeq(SilenceCandidate(i.lowest))
  }

  /** `generateStrategicQuestions`: the first three candidates. */
  function StrategicQuestions(i: Inputs): (r: seq<StrategicQuestion>)
    ensures 1 <= |r| <= 3
    ensures r <= Candidates(i)
    ensures |r| == if |Candidates(i)| <= 3 then |Candidates(i)| else 3
  {
    Take(Candidates(i), 3)
  }

  /** The candidates before the quick win: none of them is the quick win or
      the pause question. */
  lemma HeadCandidates(i: Inputs)
    ensures var c := Candidates(i);
      c[..Fired(i)] + [QuickWinQuestion] + ToSeq(SilenceCandidate(i.lowest)) == c
      && forall q :: q in c[..Fired(i)] ==> q.ask != WhichQuickWin && !q.ask.DeservesPause?
  {
    var head := ToSeq(DecisionCandidate(i.pending, i.nowMs)) + ToSeq(StagnationCandidate(i.stalled))
                + ToSeq(ConcentrationCandidate(i.activeCount));
    var c := Candidates(i);
    assert c == head + [QuickWinQuestion] + ToSeq(SilenceCandidate(i.lowest));
    assert c[..Fired(i)] == head;
  }

  /** The quick win survives the cut unless all three conditional questions
      fired. */
  lemma QuickWinSurvives(i: Inputs)
    ensures QuickWinQuestion in StrategicQuestions(i) <==> Fired(i) <= 2
  {
    var c := Candidates(i);
    var r := StrategicQuestions(i);
    var n := Fired(i);
    HeadCandidates(i);
    assert forall k :: 0 <= k < |r| ==> r[k] == c[k];
    if n <= 2 {
      assert r[n] == QuickWinQuestion;
    } else {
      assert forall k :: 0 <= k < |r| ==> r[k] in c[..n];
    }
  }

  /** The pause question survives the cut only when at most one of the
      conditional questions fired. */
  lemma PauseSurvives(i: Inputs)
    ensures (SilenceCandidate(i.lowest).Some? && SilenceCandidate(i.lowest).value in StrategicQuestions(i))
            <==> SilenceCandidate(i.lowest).Some? && Fired(i) <= 1
  {
    var c := Candidates(i);
    var r := StrategicQuestions(i);
    var n := Fired(i);
    if SilenceCandidate(i.lowest).Some? {
      var q := SilenceCandidate(i.lowest).value;
      HeadCandidates(i);
      assert c[n + 1] == q;
      assert forall k :: 0 <= k < |r| ==> r[k] == c[k];
      if n <= 1 {
        assert r[n + 1] == q;
      } else {
        assert forall k :: 0 <= k < |r| ==> r[k] in c[..n] || r[k] == QuickWinQuestion;
      }
    }
  }

  /** The concentration question is among the candidates exactly when at
      least three projects are active. */
  lemma ConcentrationAskedIff(i: Inputs)
    ensures (exists q :: q in Candidates(i) && q.ask.WhichOne?)
            <==> i.activeCount.Some? && i.activeCount.value >= 3
  {
    var c := Candidates(i);
    var o := ConcentrationCandidate(i.activeCount);
    if o.Some? {
      assert o.value in c;
    } else {
      assert forall q :: q in c ==> !q.ask.WhichOne?;
    }
  }

  /** The generator as written: conditional pushes in order, then
      `slice(0, 3)`. */
  method GenerateStrategicQuestions(i: Inputs) returns (qs: seq<StrategicQuestion>)
    ensures qs == StrategicQuestions(i)
  {
    qs := [];
    if i.pending.Some? && |i.pending.value| > 0 {
      var d := i.pending.value[0];
      var days := (i.nowMs - d.createdMs) / MsPerDay;
      qs := qs + [StrategicQuestion(WhatHoldsBack(d.title, days), DecisionEntity(d.id), DecisionQuestion)];
    }
    assert qs == ToSeq(DecisionCandidate(i.pending, i.nowMs));
    if i.stalled.Some? && |i.stalled.value| > 0 {
      var p := i.stalled.value[0];
      qs := qs + [StrategicQuestion(SilenceOrOversight(p.projectName, p.lastActivityDays), ProjectEntity(p.projectId), Reflection)];
    }
    assert qs == ToSeq(DecisionCandidate(i.pending, i.nowMs)) + ToSeq(StagnationCandidate(i.stalled));
    if i.activeCount.Some? && i.activeCount.value >= 3 {
      qs := qs + [StrategicQuestion(WhichOne(i.activeCount.value), PortfolioEntity, PriorityQuestion)];
    }
    ghost var head := qs;
    assert head == ToSeq(DecisionCandidate(i.pending, i.nowMs)) + ToSeq(StagnationCandidate(i.stalled))
                   + ToSeq(ConcentrationCandidate(i.activeCount));
    qs := qs + [QuickWinQuestion];
    if i.lowest.Some? && |i.lowest.value| > 0 {
      var s := i.lowest.value[0];
      if |s.health| > 0 && s.health[0].overall < 60.0 {
        qs := qs + [StrategicQuestion(DeservesPause(s.project.name, s.project.cashImpact), ProjectEntity(Some(s.project.id)), StrategyQuestion)];
      }
    }
    assert qs == head + [QuickWinQuestion] + ToSeq(SilenceCandidate(i.lowest));
    qs := Take(qs, 3);
  }

  /** `saveStrategicQuestions`: the current week's questions are deleted,
      then the given ones inserted in order. */
  method SaveStrategicQuestions(table: WeeklyTable<StrategicQuestion>, qs: seq<StrategicQuestion>, nowMs: int)
    modifies table
    ensures table.rows == Kept(old(table.rows), WeekStart(Day(nowMs))) + Stamp(WeekStart(Day(nowMs)), qs)
  {
    table.ReplaceWeek(WeekStart(Day(nowMs)), qs);
  }
}
