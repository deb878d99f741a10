/**
 * The three weekly strategic trajectories: concentrate on the project with
 * the most momentum, balance every project, and either unblock the first
 * struggling project or accelerate the one with the highest cash impact.
 * Each trajectory carries a focus allocation (an object from keys to
 * percentages), three questions and a tone.
 */
module Trajectories {
  import opened Basics
  import opened Records
  import opened Tables

  datatype Tone = OpportunityTone | Neutral | GentleAttention

  /** The note that qualifies a trajectory's confidence. */
  datatype Note = ModerateMomentum | DependsOnBlocker

  function NoteText(n: Note): string
  {
    match n
    case ModerateMomentum => "Momentum modéré, timeline peut varier"
    case DependsOnBlocker => "Succès dépend de résolution effective du blocker"
  }

  /** The questions a trajectory asks; a few interpolate a name or a score. */
  datatype Prompt =
    | IsImmediatePriority(name: string) | CanConcentrateOnOne | CashJustifiesConcentration(cash: real)
    | CanSplitAttention | WhichWouldBenefit | DoesBalanceSuit
    | CanBlockerBeSolved(blocker: string) | DoesQuickWinUnlock | UnblockOrSilence(name: string)
    | NewIdeaPrototype | WhichQuickWin | TimeToReflect
    | RoiJustifies | DeliveryUnlocks(name: string) | MarketMomentum

  /** A question's text without its closing " ?". */
  function PromptStem(p: Prompt): string
  {
    match p
    case IsImmediatePriority(n) => n + " est-il priorité stratégique immédiate"
    case CanConcentrateOnOne => "As-tu capacité de concentration intense sur 1 moteur"
    case CashJustifiesConcentration(c) => "Cash impact " + NumText(c) + "/10 justifie-t-il cette concentration"
    case CanSplitAttention => "As-tu capacité attention divisée efficacement"
    case WhichWouldBenefit => "Quel projet bénéficierait le plus de concentration"
    case DoesBalanceSuit => "Équilibre actuel te convient-il ou génère-t-il dispersion"
    case CanBlockerBeSolved(b) => "Blocker \"" + b + "\" peut-il être résolu rapidement"
    case DoesQuickWinUnlock => "Quick win déblocage libère-t-il valeur significative"
    case UnblockOrSilence(n) => "Vaut-il mieux débloquer maintenant ou laisser " + n + " en silence stratégique"
    case NewIdeaPrototype => "Nouvelle idée mérite prototypage rapide"
    case WhichQuickWin => "Quel quick win pourrait générer momentum"
    case TimeToReflect => "Temps pour réflexion stratégique"
    case RoiJustifies => "ROI business justifie-t-il priorisation"
    case DeliveryUnlocks(n) => n + " delivery rapide débloque-t-il autres opportunités"
    case MarketMomentum => "Momentum market favorable en ce moment"
  }

  /** The question's text; every one of them ends with a question mark. */
  function PromptText(p: Prompt): (r: string)
    ensures |r| > 0 && r[|r| - 1] == '?'
  {
    PromptStem(p) + " ?"
  }

  /** What a trajectory proposes, with the values its texts interpolate. */
  datatype Plan =
    | Concentration(project: string, momentum: int, weeks: int)
    | Balance(projects: int, share: int)
    | Unblocking(project: string, blocker: string, health: int)
    | Acceleration(project: string, cash: real)
    | Exploration

  /** One key of a `focusAllocation` object and its percentage. */
  datatype Share = Share(key: string, percent: int)

  datatype Trajectory = Trajectory(
    number: int,
    plan: Plan,
    allocation: seq<Share>,
    questions: seq<Prompt>,
    tone: Tone,
    note: Option<Note>)

  // ---------------------------------------------------------------------
  // Focus allocations as objects
  // ---------------------------------------------------------------------

  /** `allocation[key]`, undefined when the key is absent. */
  function Lookup(a: seq<Share>, key: string): Option<int>
  {
    if a == [] then None
    else if a[0].key == key then Some(a[0].percent)
    else Lookup(a[1..], key)
  }

  /** The sum of `Object.values(allocation)`. */
  function Total(a: seq<Share>): int
  {
    if a == [] then 0 else a[0].percent + Total(a[1..])
  }

  /** `allocation[key] = percent`: an existing key keeps its place and takes
      the new value; a new key goes last. */
  function Put(a: seq<Share>, key: string, percent: int): (r: seq<Share>)
    ensures Lookup(r, key) == Some(percent)
    ensures forall k :: k != key ==> Lookup(r, k) == Lookup(a, k)
    ensures Total(r) == Total(a) + percent - (match Lookup(a, key) case Some(v) => v case None => 0)
  {
    if a == [] then [Share(key, percent)]
    else if a[0].key == key then [Share(key, percent)] + a[1..]
    else [a[0]] + Put(a[1..], key, percent)
  }

  /** `{ [key]: major, [other]: minor }`: an object literal of two keys. */
  function Pair(key: string, major: int, other: string, minor: int): (r: seq<Share>)
    ensures Total(r) == if key == other then minor else major + minor
    ensures Lookup(r, other) == Some(minor)
    ensures key != other ==> Lookup(r, key) == Some(major)
  {
    Put(Put([], key, major), other, minor)
  }

  /** The accumulator of `reduce((acc, p) => { acc[key(p)] = v; return acc }, {})`. */
  function PutAll(keys: seq<string>, v: int): seq<Share>
  {
    if keys == [] then [] else Put(PutAll(keys[..|keys| - 1], v), keys[|keys| - 1], v)
  }

  /** Every key ends up with `v` and nothing else is set. */
  lemma {:induction false} PutAllLookup(keys: seq<string>, v: int, k: string)
    ensures Lookup(PutAll(keys, v), k) == if k in keys then Some(v) else None
  {
    if keys != [] {
      var n := |keys| - 1;
      PutAllLookup(keys[..n], v, k);
      assert keys == keys[..n] + [keys[n]];
    }
  }

  /** The total is `v` once per distinct key, since a repeated key
      overwrites itself. */
  lemma {:induction false} PutAllTotal(keys: seq<string>, v: int)
    ensures Total(PutAll(keys, v)) == v * |Dedup(keys)|
  {
    if keys != [] {
      var n := |keys| - 1;
      var a := PutAll(keys[..n], v);
      var d := |Dedup(keys[..n])|;
      PutAllTotal(keys[..n], v);
      PutAllLookup(keys[..n], v, keys[n]);
      DedupSnoc(keys);
      assert Total(a) == v * d;
      if keys[n] in keys[..n] {
        assert Lookup(a, keys[n]) == Some(v);
        assert |Dedup(keys)| == d;
      } else {
        assert Lookup(a, keys[n]) == None;
        assert |Dedup(keys)| == d + 1;
        MulSucc(v, d);
      }
    }
  }

  lemma MulSucc(v: int, d: int)
    ensures v * (d + 1) == v * d + v
  {
  }

  /** A list without repeats has as many distinct values as elements. */
  lemma {:induction false} DistinctKeysCount(keys: seq<string>)
    requires NoDuplicates(keys)
    ensures |Dedup(keys)| == |keys|
  {
    if keys != [] {
      var n := |keys| - 1;
      assert NoDuplicates(keys[..n]);
      DistinctKeysCount(keys[..n]);
      assert keys[n] !in keys[..n];
    }
  }

  // ---------------------------------------------------------------------
  // The four builders
  // ---------------------------------------------------------------------

  /** `pattern_analyses?.[0]?.momentum_score || 0`, the sort key for momentum. */
  function MomentumKey(s: Snapshot): real
  {
    match LatestPattern(s)
    case None => 0.0
    case Some(pa) => pa.momentum as real
  }

  /** `pattern?.momentum_score || 50`: a missing analysis and a momentum of 0
      both read as 50. */
  function ConcentrationMomentum(s: Snapshot): (m: int)
    ensures m == 50 || (|s.patterns| > 0 && m == s.patterns[0].momentum != 0)
  {
    match LatestPattern(s)
    case None => 50
    case Some(pa) => if pa.momentum == 0 then 50 else pa.momentum
  }

  /** `generateConcentrationTrajectory`. */
  function ConcentrationTrajectory(s: Snapshot): (t: Trajectory)
    ensures t.number == 1 && t.plan.Concentration? && t.plan.project == s.project.name
    ensures t.plan.weeks == Ceil((100.0 - s.project.completion) / 10.0)
    ensures t.allocation == Pair(s.project.slug, 70, "autres", 30)
    ensures |t.questions| == 3
    ensures t.tone == OpportunityTone <==> ConcentrationMomentum(s) > 70
    ensures t.tone != OpportunityTone ==> t.tone == Neutral
    ensures t.note.Some? <==> ConcentrationMomentum(s) < 60
  {
    var p := s.project;
    var m := ConcentrationMomentum(s);
    Trajectory(1, Concentration(p.name, m, Ceil((100.0 - p.completion) / 10.0)),
               Pair(p.slug, 70, "autres", 30),
               [IsImmediatePriority(p.name), CanConcentrateOnOne, CashJustifiesConcentration(p.cashImpact)],
               if m > 70 then OpportunityTone else Neutral,
               if m < 60 then Some(ModerateMomentum) else None)
  }

  function Slugs(ps: seq<Snapshot>): (r: seq<string>)
    ensures |r| == |ps| && forall i :: 0 <= i < |ps| ==> r[i] == ps[i].project.slug
  {
    seq(|ps|, i requires 0 <= i < |ps| => ps[i].project.slug)
  }

  /** `Math.round(100 / n)`, the share of each of `n` projects. */
  function BalanceShare(n: nat): int
    requires n > 0
  {
    Round(100.0 / n as real)
  }

  /** `generateBalanceTrajectory`: every slug gets the same rounded share. */
  function BalanceTrajectory(ps: seq<Snapshot>): (t: Trajectory)
    requires ps != []
    ensures t.number == 2 && t.plan == Balance(|ps|, BalanceShare(|ps|))
    ensures forall k :: Lookup(t.allocation, k) == if k in Slugs(ps) then Some(BalanceShare(|ps|)) else None
    ensures Total(t.allocation) == BalanceShare(|ps|) * |Dedup(Slugs(ps))|
    ensures |t.questions| == 3 && t.tone == Neutral && t.note.None?
  {
    var share := BalanceShare(|ps|);
    forall k ensures Lookup(PutAll(Slugs(ps), share), k) == if k in Slugs(ps) then Some(share) else None {
      PutAllLookup(Slugs(ps), share, k);
    }
    PutAllTotal(Slugs(ps), share);
    Trajectory(2, Balance(|ps|, share), PutAll(Slugs(ps), share),
               [CanSplitAttention, WhichWouldBenefit, DoesBalanceSuit], Neutral, None)
  }

  /** With distinct slugs the balance allocation sums to `n · round(100/n)`,
      which stays within 95..105 up to 17 projects and reaches 108 at 18. */
  lemma BalanceTotalDrift(ps: seq<Snapshot>)
    requires ps != [] && NoDuplicates(Slugs(ps))
    ensures Total(BalanceTrajectory(ps).allocation) == |ps| * BalanceShare(|ps|)
    ensures |ps| <= 17 ==> 95 <= Total(BalanceTrajectory(ps).allocation) <= 105
    ensures |ps| == 18 ==> Total(BalanceTrajectory(ps).allocation) == 108
  {
    DistinctKeysCount(Slugs(ps));
    ShareDrift(|ps|);
  }

  /** The total of the equal shares for each project count up to 18. */
  lemma ShareDrift(n: nat)
    requires n > 0
    ensures n <= 17 ==> 95 <= n * BalanceShare(n) <= 105
    ensures n == 18 ==> n * BalanceShare(n) == 108
  {
    if n <= 6 {
      ShareTotalsFew(n);
    } else if n <= 12 {
      ShareTotalsMiddle(n);
    } else if n <= 18 {
      ShareTotalsMany(n);
    }
  }

  lemma ShareTotalsFew(n: nat)
    requires 0 < n <= 6
    ensures 99 <= n * BalanceShare(n) <= 102
  {
    if n == 1 { assert BalanceShare(1) == 100;
    } else if n == 2 { assert BalanceShare(2) == 50;
    } else if n == 3 { assert BalanceShare(3) == 33;
    } else if n == 4 { assert BalanceShare(4) == 25;
    } else if n == 5 { assert BalanceShare(5) == 20;
    } else if n == 6 { assert BalanceShare(6) == 17;
    }
  }

  lemma ShareTotalsMiddle(n: nat)
    requires 6 < n <= 12
    ensures 96 <= n * BalanceShare(n) <= 104
  {
    if n == 7 { assert BalanceShare(7) == 14;
    } else if n == 8 { assert BalanceShare(8) == 13;
    } else if n == 9 { assert BalanceShare(9) == 11;
    } else if n == 10 { assert BalanceShare(10) == 10;
    } else if n == 11 { assert BalanceShare(11) == 9;
    } else if n == 12 { assert BalanceShare(12) == 8;
    }
  }

  lemma ShareTotalsMany(n: nat)
    requires 12 < n <= 18
    ensures n <= 17 ==> 96 <= n * BalanceShare(n) <= 105
    ensures n == 18 ==> n * BalanceShare(n) == 108
  {
    if n == 13 { assert BalanceShare(13) == 8;
    } else if n == 14 { assert BalanceShare(14) == 7;
    } else if n == 15 { assert BalanceShare(15) == 7;
    } else if n == 16 { assert BalanceShare(16) == 6;
    } else if n == 17 { assert BalanceShare(17) == 6;
    } else if n == 18 { assert BalanceShare(18) == 6;
    }
  }

  /** `health && health.overall_score < 60`. */
  predicate NeedsAttention(s: Snapshot)
  {
    |s.health| > 0 && s.health[0].overall < 60.0
  }

  /** `generateUnblockingTrajectory`: the health shown is `overall || 50`,
      so a score of 0 is shown as 50. */
  function UnblockingTrajectory(s: Snapshot): (t: Trajectory)
    ensures t.number == 3 && t.plan.Unblocking? && t.plan.project == s.project.name
    ensures t.plan.blocker == OrElse(s.project.mainBlocker, "Blocage non spécifié")
    ensures t.allocation == Pair(s.project.slug, 80, "autres", 20)
    ensures |t.questions| == 3 && t.tone == GentleAttention && t.note == Some(DependsOnBlocker)
  {
    var p := s.project;
    var blocker := OrElse(p.mainBlocker, "Blocage non spécifié");
    var overall := match LatestHealth(s) case None => 50.0 case Some(h) => if h.overall == 0.0 then 50.0 else h.overall;
    Trajectory(3, Unblocking(p.name, blocker, Round(overall)), Pair(p.slug, 80, "autres", 20),
               [CanBlockerBeSolved(blocker), DoesQuickWinUnlock, UnblockOrSilence(p.name)],
               GentleAttention, Some(DependsOnBlocker))
  }

  function Cash(s: Snapshot): real
  {
    s.project.cashImpact
  }

  /** The reduce `p.cash > (max?.cash || 0) ? p : max` from null: the first
      project of highest cash impact, if that impact is positive. */
  function HighestCash(ps: seq<Snapshot>): (r: Option<nat>)
    ensures r.None? <==> forall j :: 0 <= j < |ps| ==> Cash(ps[j]) <= 0.0
    ensures r.Some? ==> r.value < |ps| && Cash(ps[r.value]) > 0.0
    ensures r.Some? ==> forall j :: 0 <= j < |ps| ==> Cash(ps[j]) <= Cash(ps[r.value])
    ensures r.Some? ==> forall j :: 0 <= j < r.value ==> Cash(ps[j]) < Cash(ps[r.value])
  {
    if ps == [] then None
    else
      var n := |ps| - 1;
      var best := HighestCash(ps[..n]);
      assert forall j :: 0 <= j < n ==> ps[..n][j] == ps[j];
      var bar := if best.None? then 0.0 else Cash(ps[best.value]);
      if Cash(ps[n]) > bar then Some(n) else best
  }

  /** `generateOpportunityTrajectory`. */
  function OpportunityTrajectory(ps: seq<Snapshot>): (t: Trajectory)
    ensures t.number == 3 && t.tone == OpportunityTone && t.note.None? && |t.questions| == 3
    ensures t.plan.Exploration? <==> HighestCash(ps).None?
    ensures t.plan.Exploration? ==> t.allocation == Pair("exploration", 30, "maintenance", 70)
    ensures t.plan.Acceleration? <==> HighestCash(ps).Some?
    ensures t.plan.Acceleration? ==>
      var p := ps[HighestCash(ps).value].project;
      t.plan.project == p.name && t.allocation == Pair(p.slug, 70, "autres", 30)
  {
    match HighestCash(ps)
    case None =>
      Trajectory(3, Exploration, Pair("exploration", 30, "maintenance", 70),
                 [NewIdeaPrototype, WhichQuickWin, TimeToReflect], OpportunityTone, None)
    case Some(i) =>
      var p := ps[i].project;
      Trajectory(3, Acceleration(p.name, p.cashImpact), Pair(p.slug, 70, "autres", 30),
                 [RoiJustifies, DeliveryUnlocks(p.name), MarketMomentum], OpportunityTone, None)
  }

  /** The fixed allocations add up to 100 unless the project's slug is the
      literal key 'autres', which the second key then overwrites. */
  lemma FixedAllocationTotals(ps: seq<Snapshot>, s: Snapshot)
    ensures Total(ConcentrationTrajectory(s).allocation) == 100 <==> s.project.slug != "autres"
    ensures Total(UnblockingTrajectory(s).allocation) == 100 <==> s.project.slug != "autres"
    ensures OpportunityTrajectory(ps).plan.Exploration? ==> Total(OpportunityTrajectory(ps).allocation) == 100
    ensures OpportunityTrajectory(ps).plan.Acceleration? ==>
      (Total(OpportunityTrajectory(ps).allocation) == 100 <==> ps[HighestCash(ps).value].project.slug != "autres")
  {
  }

  // ---------------------------------------------------------------------
  // The weekly set
  // ---------------------------------------------------------------------

  function MomentumKeys(ps: seq<Snapshot>): (r: seq<real>)
    ensures |r| == |ps| && forall i :: 0 <= i < |ps| ==> r[i] == MomentumKey(ps[i])
  {
    seq(|ps|, i requires 0 <= i < |ps| => MomentumKey(ps[i]))
  }

  /** The head of a stable sort by descending momentum: the first project of
      greatest momentum key. */
  function HighMomentum(ps: seq<Snapshot>): (i: nat)
    requires ps != []
    ensures i < |ps|
    ensures forall j :: 0 <= j < |ps| ==> MomentumKey(ps[j]) <= MomentumKey(ps[i])
    ensures forall j :: 0 <= j < i ==> MomentumKey(ps[j]) < MomentumKey(ps[i])
  {
    FirstMaxIndex(MomentumKeys(ps))
  }

  /** The third trajectory: unblock the first project needing attention, or
      else look for an opportunity. */
  function ThirdTrajectory(ps: seq<Snapshot>): (t: Trajectory)
    ensures match FindIndex(ps, NeedsAttention)
            case Some(i) => t == UnblockingTrajectory(ps[i])
            case None => t == OpportunityTrajectory(ps)
  {
    match FindIndex(ps, NeedsAttention)
    case Some(i) => UnblockingTrajectory(ps[i])
    case None => OpportunityTrajectory(ps)
  }

  /** `generateWeeklyTrajectories` over the active projects, ordered by
      descending cash impact; a failed or empty fetch gives no trajectory. */
  function WeeklyTrajectories(projects: Option<seq<Snapshot>>): (r: seq<Trajectory>)
    ensures r == [] <==> projects.None? || projects.value == []
    ensures r != [] ==> |r| == 3 && r[0].number == 1 && r[1].number == 2 && r[2].number == 3
    ensures forall t :: t in r ==> |t.questions| == 3
    ensures r != [] ==> r[0] == ConcentrationTrajectory(projects.value[HighMomentum(projects.value)])
    ensures r != [] ==> r[1] == BalanceTrajectory(projects.value)
    ensures r != [] ==> r[2] == ThirdTrajectory(projects.value)
  {
    if projects.None? || projects.value == [] then []
    else
      var ps := projects.value;
      [ConcentrationTrajectory(ps[HighMomentum(ps)]), BalanceTrajectory(ps), ThirdTrajectory(ps)]
  }

  /** The third trajectory unblocks exactly when some project's latest health
      is under 60, and then it is the first such project. */
  lemma ThirdTrajectoryChoice(ps: seq<Snapshot>)
    requires ps != []
    ensures var t := WeeklyTrajectories(Some(ps))[2];
      (t.plan.Unblocking? <==> exists i :: 0 <= i < |ps| && NeedsAttention(ps[i]))
      && (t.plan.Unblocking? ==>
            (exists i :: 0 <= i < |ps| && NeedsAttention(ps[i]) && t.plan.project == ps[i].project.name
                         && forall j :: 0 <= j < i ==> !NeedsAttention(ps[j])))
      && (t.plan.Exploration? <==> (forall i :: 0 <= i < |ps| ==> !NeedsAttention(ps[i]) && Cash(ps[i]) <= 0.0))
  {
    match FindIndex(ps, NeedsAttention)
    case Some(i) =>
      assert NeedsAttention(ps[i]);
    case None =>
  }

  /** The generator as written: pushes the concentration, the balance and
      the third trajectory, then keeps the first three. */
  method GenerateWeeklyTrajectories(projects: Option<seq<Snapshot>>) returns (ts: seq<Trajectory>)
    ensures ts == WeeklyTrajectories(projects)
  {
    ts := [];
    if projects.None? || projects.value == [] {
      return;
    }
    var ps := projects.value;
    var first := ConcentrationTrajectory(ps[HighMomentum(ps)]);
    var second := BalanceTrajectory(ps);
    var third;
    var needs := FindIndex(ps, NeedsAttention);
    if needs.Some? {
      third := UnblockingTrajectory(ps[needs.value]);
    } else {
      third := OpportunityTrajectory(ps);
    }
    assert third == ThirdTrajectory(ps);
    ts := ts + [first];
    ts := ts + [second];
    ts := ts + [third];
    PushThree(first, second, third);
    ts := Take(ts, 3);
  }

  /** `saveWeeklyTrajectories`: the rows of the current week (starting on
      Monday) are deleted, then the given trajectories inserted in order. */
  method SaveWeeklyTrajectories(table: WeeklyTable<Trajectory>, ts: seq<Trajectory>, nowMs: int)
    modifies table
    ensures table.rows == Kept(old(table.rows), WeekStart(Day(nowMs))) + Stamp(WeekStart(Day(nowMs)), ts)
  {
    table.ReplaceWeek(WeekStart(Day(nowMs)), ts);
  }

  /** After saving, the current week holds exactly the new trajectories and
      every other week is untouched. */
  lemma SavedWeek(rows: seq<WeekRow<Trajectory>>, ts: seq<Trajectory>, nowMs: int, other: int)
    requires other != WeekStart(Day(nowMs))
    ensures var w := WeekStart(Day(nowMs));
      RowsOfWeek(Kept(rows, w) + Stamp(w, ts), w) == ts
      && RowsOfWeek(Kept(rows, w) + Stamp(w, ts), other) == RowsOfWeek(rows, other)
  {
    ReplaceWeekResult(rows, WeekStart(Day(nowMs)), ts, other);
  }
}
