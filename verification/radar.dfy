/**
 * The risk radar: for each of four categories, the sum of severity times
 * probability over that category's active risks, capped at 10, plus the
 * number of active risks.
 */
module Radar {
  import opened Basics
  import opened Records

  /** The severity weight; an unknown severity counts as 1. */
  function SeverityWeight(s: Option<Level>): (w: real)
    ensures 1.0 <= w <= 10.0
  {
    match s
    case Some(Low) => 1.0
    case Some(Medium) => 3.0
    case Some(High) => 7.0
    case Some(Critical) => 10.0
    case None => 1.0
  }

  /** The probability factor; 'critical' is not in the table, so it counts
      as 0.5 like an unknown value. */
  function ProbabilityFactor(p: Option<Level>): (f: real)
    ensures 0.3 <= f <= 0.9
  {
    match p
    case Some(Low) => 0.3
    case Some(Medium) => 0.6
    case Some(High) => 0.9
    case Some(Critical) => 0.5
    case None => 0.5
  }

  function Weight(r: RiskRow): (w: real)
    ensures 0.3 <= w <= 9.0
  {
    SeverityWeight(r.severity) * ProbabilityFactor(r.probability)
  }

  /** The left-to-right sum `reduce((sum, r) => sum + sev × prob, 0)`. */
  function Accumulate(rs: seq<RiskRow>): (total: real)
    ensures total >= 0.0
    ensures rs != [] ==> total > 0.0
  {
    if rs == [] then 0.0 else Accumulate(rs[..|rs| - 1]) + Weight(rs[|rs| - 1])
  }

  lemma {:induction false} AccumulateAppend(a: seq<RiskRow>, b: seq<RiskRow>)
    ensures Accumulate(a + b) == Accumulate(a) + Accumulate(b)
    decreases |b|
  {
    if b != [] {
      var n := |b| - 1;
      assert (a + b)[..|a + b| - 1] == a + b[..n];
      assert (a + b)[|a + b| - 1] == b[n];
      AccumulateAppend(a, b[..n]);
    } else {
      assert a + b == a;
    }
  }

  /** The active risks of one category. */
  function InCategory(rs: seq<RiskRow>, cat: RiskType): (r: seq<RiskRow>)
    ensures forall x :: x in r <==> x in rs && x.category == Some(cat)
  {
    Filter(rs, (x: RiskRow) => x.category == Some(cat))
  }

  /** `Math.min(10, total)` for one category. */
  function CategoryScore(rs: seq<RiskRow>, cat: RiskType): real
  {
    MinReal(10.0, Accumulate(InCategory(rs, cat)))
  }

  /** Every score lies in [0, 10]; it is 0 exactly when the category has no
      risk, and it reaches the cap only through the `min`. */
  lemma ScoreBounds(rs: seq<RiskRow>, cat: RiskType)
    ensures 0.0 <= CategoryScore(rs, cat) <= 10.0
    ensures CategoryScore(rs, cat) == 0.0 <==> forall x :: x in rs ==> x.category != Some(cat)
  {
    var c := InCategory(rs, cat);
    if c != [] {
      assert c[0] in rs && c[0].category == Some(cat);
    }
  }

  /** One more risk never lowers any score. */
  lemma ScoreMonotone(rs: seq<RiskRow>, r: RiskRow, cat: RiskType)
    ensures CategoryScore(rs + [r], cat) >= CategoryScore(rs, cat)
    ensures r.category != Some(cat) ==> CategoryScore(rs + [r], cat) == CategoryScore(rs, cat)
  {
    var p := (x: RiskRow) => x.category == Some(cat);
    FilterAppend(rs, [r], p);
    assert Filter([r], p) == (if p(r) then [r] else []) + Filter([r][1..], p);
    assert [r][1..] == [];
    AccumulateAppend(Filter(rs, p), Filter([r], p));
  }

  /** The four categories of the radar, in the order of its fields. */
  const RadarCategories: seq<RiskType> := [Technical, Administrative, Financial, Dispersion]

  datatype RadarResponse =
    /** The query failed: status 500 with the error message. */
    | Failure
    | Scores(technical: real, administrative: real, financial: real, dispersion: real, risksCount: int)

  predicate Active(r: RiskRow)
  {
    r.active
  }

  /** `GET /api/risks/radar` over the `risks` table, or `None` when the
      query fails. */
  function RadarOf(rows: Option<seq<RiskRow>>): (r: RadarResponse)
    ensures r.Failure? <==> rows.None?
    ensures r.Scores? ==> var active := Filter(rows.value, Active);
      r.technical == CategoryScore(active, RadarCategories[0])
      && r.administrative == CategoryScore(active, RadarCategories[1])
      && r.financial == CategoryScore(active, RadarCategories[2])
      && r.dispersion == CategoryScore(active, RadarCategories[3])
      && r.risksCount == CountWhere(rows.value, Active)
  {
    if rows.None? then Failure
    else
      var active := Filter(rows.value, Active);
      var scores := seq(4, i requires 0 <= i < 4 => CategoryScore(active, RadarCategories[i]));
      Scores(scores[0], scores[1], scores[2], scores[3], |active|)
  }

  /** One more row adds itself to the active rows when it is active. */
  lemma ActiveSnoc(rows: seq<RiskRow>, r: RiskRow)
    ensures Filter(rows + [r], Active) == Filter(rows, Active) + (if r.active then [r] else [])
  {
    FilterAppend(rows, [r], Active);
    assert Filter([r], Active) == (if Active(r) then [r] else []) + Filter([r][1..], Active);
    assert [r][1..] == [];
  }

  /** Recording one more risk never lowers a score, and it counts even when
      its category is none of the four, where it moves no score. */
  lemma RadarMonotone(rows: seq<RiskRow>, r: RiskRow)
    ensures var before, after := RadarOf(Some(rows)), RadarOf(Some(rows + [r]));
      after.technical >= before.technical && after.administrative >= before.administrative
      && after.financial >= before.financial && after.dispersion >= before.dispersion
      && after.risksCount == before.risksCount + (if r.active then 1 else 0)
    ensures r.category.None? ==> var before, after := RadarOf(Some(rows)), RadarOf(Some(rows + [r]));
      after.technical == before.technical && after.administrative == before.administrative
      && after.financial == before.financial && after.dispersion == before.dispersion
  {
    ActiveSnoc(rows, r);
    var active := Filter(rows, Active);
    if r.active {
      ScoreMonotone(active, r, Technical);
      ScoreMonotone(active, r, Administrative);
      ScoreMonotone(active, r, Financial);
      ScoreMonotone(active, r, Dispersion);
    } else {
      assert active + [] == active;
    }
  }
}
