/**
 * The weekly summary: the Monday-to-Sunday range of the current week, the
 * active projects sorted into advancing, needing attention and stable, and
 * the narratives written from those lists and from the week's decisions.
 */
module Summary {
  import opened Basics
  import opened Records
  import opened Tables

  // ---------------------------------------------------------------------
  // Week range
  // ---------------------------------------------------------------------

  /** The first and last calendar days of the current week. */
  datatype WeekRange = WeekRange(start: int, end: int)

  /** The week that contains `nowMs`: from its Monday to the Sunday six days
      later. */
  function WeekOf(nowMs: int): (w: WeekRange)
    ensures Weekday(w.start) == 1 && Weekday(w.end) == 0
    ensures w.end == w.start + 6
    ensures w.start <= Day(nowMs) <= w.end
  {
    var start := WeekStart(Day(nowMs));
    WeekRange(start, start + 6)
  }

  /** `created_at >= start && created_at <= end`, where both bounds are
      dates and so name the midnight that opens their day. */
  predicate InWindow(w: WeekRange, d: Decision)
  {
    w.start * MsPerDay <= d.createdMs <= w.end * MsPerDay
  }

  /** The window closes at the very start of Sunday: a decision taken on the
      week's Sunday after midnight is not counted, although it is in the
      week. */
  lemma SundayAfterMidnightLeftOut(w: WeekRange, d: Decision)
    requires Day(d.createdMs) == w.end && d.createdMs != w.end * MsPerDay
    ensures !InWindow(w, d)
  {
  }

  // ---------------------------------------------------------------------
  // Categories
  // ---------------------------------------------------------------------

  /** A pattern that accelerates or has momentum above 60. */
  predicate Advancing(s: Snapshot)
  {
    match LatestPattern(s)
    case None => false
    case Some(pa) => pa.trend == Accelerating || pa.momentum > 60
  }

  /** More than 14 days without activity, or a latest health under 60. */
  predicate NeedsAttention(s: Snapshot)
  {
    (match LatestPattern(s) case None => false case Some(pa) => pa.lastActivityDays > 14)
    || (match LatestHealth(s) case None => false case Some(h) => h.overall < 60.0)
  }

  /** The three lists: `stable` keeps the projects found in neither of the
      other two. */
  datatype Categories = Categories(advancing: seq<Snapshot>, attention: seq<Snapshot>, stable: seq<Snapshot>)

  function Categorise(ps: seq<Snapshot>): (c: Categories)
    ensures c.advancing == Filter(ps, Advancing)
    ensures c.attention == Filter(ps, NeedsAttention)
  {
    var advancing := Filter(ps, Advancing);
    var attention := Filter(ps, NeedsAttention);
    Categories(advancing, attention, Filter(ps, p => p !in advancing && p !in attention))
  }

  /** Every project lands in at least one list; stable means neither
      advancing nor needing attention. */
  lemma CategoriesCover(ps: seq<Snapshot>, p: Snapshot)
    requires p in ps
    ensures var c := Categorise(ps);
      (p in c.stable <==> !Advancing(p) && !NeedsAttention(p))
      && (p in c.advancing || p in c.attention || p in c.stable)
      && (p in c.advancing <==> Advancing(p))
      && (p in c.attention <==> NeedsAttention(p))
  {
  }

  /** A project can be advancing and need attention at once. */
  lemma CategoriesMayOverlap(p: Project, pa: PatternAnalysis)
    requires pa.trend == Accelerating && pa.lastActivityDays > 14
    ensures var s := Snapshot(p, [], [pa], [], [], [], []);
      s in Categorise([s]).advancing && s in Categorise([s]).attention && Categorise([s]).stable == []
  {
    var s := Snapshot(p, [], [pa], [], [], [], []);
    assert Advancing(s) && NeedsAttention(s);
  }

  // ---------------------------------------------------------------------
  // Overview
  // ---------------------------------------------------------------------

  function Plural(n: int, suffix: string): string
  {
    if n > 1 then suffix else ""
  }

  function Header(total: int): string
  {
    IntText(total) + " projet" + Plural(total, "s") + " en mouvement cette semaine.\n"
  }

  function AdvancingPart(n: int): string
  {
    IntText(n) + " progresse" + Plural(n, "nt") + " bien"
  }

  function AttentionPart(n: int): string
  {
    IntText(n) + " demande" + Plural(n, "nt") + " attention"
  }

  function StablePart(n: int): string
  {
    IntText(n) + " en rythme stable"
  }

  /** The parts for the non-empty lists, in the order advancing, attention,
      stable. */
  function Parts(advancing: int, attention: int, stable: int): (r: seq<string>)
    ensures |r| == (if advancing > 0 then 1 else 0) + (if attention > 0 then 1 else 0) + (if stable > 0 then 1 else 0)
  {
    (if advancing > 0 then [AdvancingPart(advancing)] else [])
    + (if attention > 0 then [AttentionPart(attention)] else [])
    + (if stable > 0 then [StablePart(stable)] else [])
  }

  function Footer(average: string): string
  {
    ".\n\nCompletion moyenne : " + average + "%."
  }

  /** `Math.round(sum / total)` as a template renders it; with no project
      the average is NaN. */
  function AverageText(ps: seq<Snapshot>): string
  {
    if ps == [] then "NaN"
    else IntText(Round(SumReals(Completions(ps)) / |ps| as real))
  }

  function Completions(ps: seq<Snapshot>): (r: seq<real>)
    ensures |r| == |ps| && forall i :: 0 <= i < |ps| ==> r[i] == ps[i].project.completion
  {
    seq(|ps|, i requires 0 <= i < |ps| => ps[i].project.completion)
  }

  /** The overview as a reference text: the header, the non-empty parts
      separated by ", ", and the rounded average completion. */
  function Overview(total: int, advancing: int, attention: int, stable: int, average: string): string
  {
    Header(total) + Join(Parts(advancing, attention, stable), ", ") + Footer(average)
  }

  /** Joining one more part adds the separator only after a non-empty list. */
  lemma {:induction false} JoinSnoc(parts: seq<string>, x: string, sep: string)
    ensures Join(parts + [x], sep) == if parts == [] then x else Join(parts, sep) + sep + x
  {
    if parts == [] {
      assert parts + [x] == [x];
    } else if |parts| == 1 {
      assert parts + [x] == [parts[0], x];
      assert [parts[0], x][1..] == [x];
    } else {
      assert (parts + [x])[1..] == parts[1..] + [x];
      JoinSnoc(parts[1..], x, sep);
    }
  }

  /** Appending the separator (when a part was already written) and one
      more part extends the joined parts by that part. */
  lemma AppendPart(h: string, parts: seq<string>, x: string, sep: string)
    ensures h + Join(parts, sep) + (if parts == [] then "" else sep) + x == h + Join(parts + [x], sep)
  {
    JoinSnoc(parts, x, sep);
    if parts == [] {
      assert h + Join(parts, sep) + "" + x == h + x;
    } else {
      assert h + Join(parts, sep) + sep + x == h + (Join(parts, sep) + sep + x);
    }
  }

  /** `buildOverviewNarrative`: the text is built with `+=`, adding ", "
      before a part only when an earlier part was written. */
  method BuildOverviewNarrative(all: seq<Snapshot>, advancing: seq<Snapshot>, attention: seq<Snapshot>,
                                stable: seq<Snapshot>) returns (narrative: string)
    ensures narrative == Overview(|all|, |advancing|, |attention|, |stable|, AverageText(all))
  {
    var a, t, s := |advancing|, |attention|, |stable|;
    var h := Header(|all|);
    narrative := h;
    ghost var parts: seq<string> := [];
    assert narrative == h + Join(parts, ", ");
    if a > 0 {
      narrative := narrative + AdvancingPart(a);
      AppendPart(h, parts, AdvancingPart(a), ", ");
      parts := parts + [AdvancingPart(a)];
    }
    assert parts == [] <==> a == 0;
    if t > 0 {
      narrative := narrative + (if a > 0 then ", " else "");
      narrative := narrative + AttentionPart(t);
      AppendPart(h, parts, AttentionPart(t), ", ");
      parts := parts + [AttentionPart(t)];
    }
    assert parts == [] <==> a == 0 && t == 0;
    if s > 0 {
      narrative := narrative + (if a > 0 || t > 0 then ", " else "");
      narrative := narrative + StablePart(s);
      AppendPart(h, parts, StablePart(s), ", ");
      parts := parts + [StablePart(s)];
    }
    assert parts == Parts(a, t, s);
    narrative := narrative + Footer(AverageText(all));
  }

  // ---------------------------------------------------------------------
  // Per-project narratives
  // ---------------------------------------------------------------------

  /** The momentum an advancing line shows: the rounded score, or 50 without
      an analysis. */
  function ShownMomentum(s: Snapshot): (m: int)
    ensures |s.patterns| == 0 ==> m == 50
    ensures |s.patterns| > 0 ==> m == s.patterns[0].momentum
  {
    match LatestPattern(s) case None => 50 case Some(pa) => pa.momentum
  }

  function AdvanceLine(s: Snapshot): string
  {
    "• " + s.project.name + " : " + NumText(s.project.completion) + "% (momentum " + IntText(ShownMomentum(s)) + "/100)"
  }

  function AdvanceLines(ps: seq<Snapshot>): (r: seq<string>)
    ensures |r| == |ps| && forall i :: 0 <= i < |ps| ==> r[i] == AdvanceLine(ps[i])
  {
    seq(|ps|, i requires 0 <= i < |ps| => AdvanceLine(ps[i]))
  }

  /** `buildAdvancesNarrative`: one line per advancing project. */
  function AdvancesNarrative(advancing: seq<Snapshot>): string
  {
    if advancing == [] then "Aucun projet en accélération notable."
    else Join(AdvanceLines(advancing), "\n")
  }

  /** What an attention entry says besides the project's name. */
  datatype AttentionEntry = AttentionEntry(
    name: string,
    inactiveDays: Option<int>,
    blocker: Option<string>,
    quickWin: bool)

  /** `last_activity_days || 0`, or 0 without an analysis. */
  function InactiveDays(s: Snapshot): int
  {
    match LatestPattern(s) case None => 0 case Some(pa) => pa.lastActivityDays
  }

  /** The entry for one project: the inactivity when it exceeds 14 days, the
      blocker when it is set, is not 'Aucun' and is not the fallback text
      'Progression ralentie' itself, and the quick-win hint when the
      momentum is above 40. */
  function AttentionEntryOf(s: Snapshot): (e: AttentionEntry)
    ensures e.name == s.project.name
    ensures e.inactiveDays.Some? <==> InactiveDays(s) > 14
    ensures e.inactiveDays.Some? ==> e.inactiveDays.value == InactiveDays(s)
    ensures e.blocker.Some? <==> IsBlocker(s.project.mainBlocker) && s.project.mainBlocker.value != "Progression ralentie"
    ensures e.blocker.Some? ==> e.blocker == s.project.mainBlocker
    ensures e.quickWin <==> |s.patterns| > 0 && s.patterns[0].momentum > 40
  {
    var days := InactiveDays(s);
    var blocker := if IsBlocker(s.project.mainBlocker) then s.project.mainBlocker.value else "Progression ralentie";
    AttentionEntry(s.project.name,
                   if days > 14 then Some(days) else None,
                   if blocker != "Progression ralentie" then Some(blocker) else None,
                   match LatestPattern(s) case None => false case Some(pa) => pa.momentum > 40)
  }

  function InactivityText(e: AttentionEntry): string
  {
    match e.inactiveDays case None => "" case Some(d) => " : " + IntText(d) + " jours sans mouvement visible"
  }

  function BlockerText(e: AttentionEntry): string
  {
    match e.blocker case None => "" case Some(b) => "\n  Blocker : \"" + b + "\""
  }

  function QuickWinText(e: AttentionEntry): string
  {
    if e.quickWin then "\n  Opportunité : Quick win potentiel si déblocage" else ""
  }

  /** The entry's text: its name, then each present part in turn. */
  function EntryText(e: AttentionEntry): string
  {
    "• " + e.name + InactivityText(e) + BlockerText(e) + QuickWinText(e)
  }

  /** The per-project text as written, appended to with `+=`. */
  method BuildAttentionText(s: Snapshot) returns (text: string)
    ensures text == EntryText(AttentionEntryOf(s))
  {
    var e := AttentionEntryOf(s);
    var days := InactiveDays(s);
    var blocker := if IsBlocker(s.project.mainBlocker) then s.project.mainBlocker.value else "Progression ralentie";
    text := "• " + s.project.name;
    if days > 14 {
      text := text + (" : " + IntText(days) + " jours sans mouvement visible");
    }
    assert text == "• " + e.name + InactivityText(e);
    if blocker != "Progression ralentie" {
      text := text + ("\n  Blocker : \"" + blocker + "\"");
    }
    assert text == "• " + e.name + InactivityText(e) + BlockerText(e);
    if |s.patterns| > 0 && s.patterns[0].momentum > 40 {
      text := text + "\n  Opportunité : Quick win potentiel si déblocage";
    }
  }

  function AttentionLines(ps: seq<Snapshot>): (r: seq<string>)
    ensures |r| == |ps| && forall i :: 0 <= i < |ps| ==> r[i] == EntryText(AttentionEntryOf(ps[i]))
  {
    seq(|ps|, i requires 0 <= i < |ps| => EntryText(AttentionEntryOf(ps[i])))
  }

  /** `buildAttentionNarrative`: one entry per project, separated by a blank line. */
  function AttentionNarrative(attention: seq<Snapshot>): string
  {
    if attention == [] then "Aucun blocage significatif." else Join(AttentionLines(attention), "\n\n")
  }

  /** A decision of the week as its narrative lists it; the date is the
      calendar day, its French rendering is not modelled. */
  datatype DecisionEntry = DecisionEntry(title: string, day: int, project: string)

  /** The decisions the week's query returns: those inside the window, in
      the order the store gives them (newest first); none when the query
      failed. */
  function WeekDecisions(w: WeekRange, decisions: Option<seq<Decision>>): (r: seq<Decision>)
    ensures decisions.None? ==> r == []
    ensures decisions.Some? ==> forall d :: d in r <==> d in decisions.value && InWindow(w, d)
  {
    if decisions.None? then [] else Filter(decisions.value, d => InWindow(w, d))
  }

  function Entry(d: Decision): DecisionEntry
  {
    DecisionEntry(d.title, Day(d.createdMs), OrElse(d.projectName, "N/A"))
  }

  /** `buildDecisionsNarrative`: one entry per decision of the week, each
      with its project's name or 'N/A'. */
  function DecisionEntries(w: WeekRange, decisions: Option<seq<Decision>>): (r: seq<DecisionEntry>)
    ensures |r| == |WeekDecisions(w, decisions)|
    ensures forall i :: 0 <= i < |r| ==> r[i] == Entry(WeekDecisions(w, decisions)[i])
  {
    var ds := WeekDecisions(w, decisions);
    seq(|ds|, i requires 0 <= i < |ds| => Entry(ds[i]))
  }

  // ---------------------------------------------------------------------
  // The summary
  // ---------------------------------------------------------------------

  datatype WeeklySummary =
    /** The fixed summary written when the project list could not be read
        ("Aucun projet actif cette semaine.", then N/A for the sections). */
    | Placeholder(week: WeekRange)
    | Written(week: WeekRange, overview: string, advances: string, attention: string, decisions: seq<DecisionEntry>)

  /** `generateWeeklySummary` over the active projects and the decisions
      the store holds (newest first). */
  function GenerateWeeklySummary(projects: Option<seq<Snapshot>>, decisions: Option<seq<Decision>>, nowMs: int)
    : (r: WeeklySummary)
    ensures r.week == WeekOf(nowMs)
    ensures r.Placeholder? <==> projects.None?
    ensures r.Written? ==>
      var ps := projects.value;
      var c := Categorise(ps);
      r.overview == Overview(|ps|, |c.advancing|, |c.attention|, |c.stable|, AverageText(ps))
      && r.advances == AdvancesNarrative(c.advancing)
      && r.attention == AttentionNarrative(c.attention)
      && r.decisions == DecisionEntries(WeekOf(nowMs), decisions)
  {
    var w := WeekOf(nowMs);
    if projects.None? then Placeholder(w)
    else
      var ps := projects.value;
      var c := Categorise(ps);
      Written(w, Overview(|ps|, |c.advancing|, |c.attention|, |c.stable|, AverageText(ps)),
              AdvancesNarrative(c.advancing), AttentionNarrative(c.attention), DecisionEntries(w, decisions))
  }

  /** `saveWeeklySummary`: one row per week, replaced on a re-run. */
  method SaveWeeklySummary(table: KeyedTable<int, WeeklySummary>, s: WeeklySummary)
    modifies table
    ensures table.rows == old(table.rows)[s.week.start := s]
  {
    table.Upsert(s.week.start, s);
  }
}
