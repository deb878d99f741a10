/**
 * In-memory stand-ins for the store tables whose writes carry meaning:
 * tables with a uniqueness key written by upsert, and weekly tables that are
 * refreshed by deleting the week's rows and inserting the new ones.
 */
module Tables {
  import opened Basics

  /** A table with a unique key, written with `upsert(..., { onConflict: key })`. */
  class KeyedTable<K(==), V> {
    var rows: map<K, V>

    constructor ()
      ensures rows == map[]
    {
      rows := map[];
    }

    /** Inserts the row, or replaces the row that has the same key. */
    method Upsert(k: K, v: V)
      modifies this
      ensures rows == old(rows)[k := v]
      ensures k in old(rows) ==> |rows| == |old(rows)|
      ensures k !in old(rows) ==> |rows| == |old(rows)| + 1
    {
      rows := rows[k := v];
    }
  }

  /** Writing twice under the same key leaves only the second row: a re-run on
      the same day replaces that day's row. */
  lemma UpsertSameKeyTwice<K, V>(m: map<K, V>, k: K, v1: V, v2: V)
    ensures m[k := v1][k := v2] == m[k := v2]
    ensures |m[k := v1][k := v2]| <= |m| + 1
  {
  }

  /** Rows stamped with the Monday that starts their week. */
  datatype WeekRow<T> = WeekRow(weekStart: int, item: T)

  function Stamp<T>(weekStart: int, items: seq<T>): (r: seq<WeekRow<T>>)
    ensures |r| == |items|
    ensures forall i :: 0 <= i < |items| ==> r[i] == WeekRow(weekStart, items[i])
  {
    seq(|items|, i requires 0 <= i < |items| => WeekRow(weekStart, items[i]))
  }

  predicate OtherWeek<T>(weekStart: int, r: WeekRow<T>)
  {
    r.weekStart != weekStart
  }

  /** The rows left after `delete().eq('week_start_date', weekStart)`. */
  function Kept<T(!new)>(rows: seq<WeekRow<T>>, weekStart: int): (r: seq<WeekRow<T>>)
    ensures |r| <= |rows|
    ensures forall x :: x in r <==> x in rows && x.weekStart != weekStart
  {
    Filter(rows, r => OtherWeek(weekStart, r))
  }

  /** The rows of one week, in order. */
  function RowsOfWeek<T(!new)>(rows: seq<WeekRow<T>>, weekStart: int): (r: seq<T>)
    ensures |r| <= |rows|
  {
    if rows == [] then []
    else (if rows[0].weekStart == weekStart then [rows[0].item] else [])
         + RowsOfWeek(rows[1..], weekStart)
  }

  lemma {:induction false} RowsOfWeekAppend<T(!new)>(a: seq<WeekRow<T>>, b: seq<WeekRow<T>>, w: int)
    ensures RowsOfWeek(a + b, w) == RowsOfWeek(a, w) + RowsOfWeek(b, w)
  {
    if a == [] {
      assert a + b == b;
    } else {
      var head := if a[0].weekStart == w then [a[0].item] else [];
      assert (a + b)[0] == a[0];
      assert (a + b)[1..] == a[1..] + b;
      assert RowsOfWeek(a + b, w) == head + RowsOfWeek(a[1..] + b, w);
      assert RowsOfWeek(a, w) == head + RowsOfWeek(a[1..], w);
      RowsOfWeekAppend(a[1..], b, w);
      assert head + (RowsOfWeek(a[1..], w) + RowsOfWeek(b, w)) == (head + RowsOfWeek(a[1..], w)) + RowsOfWeek(b, w);
    }
  }

  lemma {:induction false} RowsOfOtherWeeks<T(!new)>(rows: seq<WeekRow<T>>, w: int)
    ensures RowsOfWeek(Filter(rows, r => OtherWeek(w, r)), w) == []
  {
    if rows != [] {
      var p := (r: WeekRow<T>) => OtherWeek(w, r);
      assert rows == [rows[0]] + rows[1..];
      FilterAppend([rows[0]], rows[1..], p);
      assert Filter([rows[0]], p) == (if p(rows[0]) then [rows[0]] else []) + Filter([rows[0]][1..], p);
      assert [rows[0]][1..] == [];
      RowsOfWeekAppend(Filter([rows[0]], p), Filter(rows[1..], p), w);
      RowsOfOtherWeeks(rows[1..], w);
    }
  }

  lemma {:induction false} RowsOfStamped<T(!new)>(items: seq<T>, w: int)
    ensures RowsOfWeek(Stamp(w, items), w) == items
  {
    if items != [] {
      assert Stamp(w, items)[1..] == Stamp(w, items[1..]);
      RowsOfStamped(items[1..], w);
      assert [items[0]] + items[1..] == items;
    }
  }

  /** A weekly table (oracle trajectories, oracle questions). */
  class WeeklyTable<T(!new)> {
    var rows: seq<WeekRow<T>>

    constructor ()
      ensures rows == []
    {
      rows := [];
    }

    /** Deletes every row of `weekStart`, then inserts `items` one by one. */
    method ReplaceWeek(weekStart: int, items: seq<T>)
      modifies this
      ensures rows == Kept(old(rows), weekStart) + Stamp(weekStart, items)
    {
      rows := Kept(rows, weekStart);
      ghost var kept := rows;
      var i := 0;
      while i < |items|
        invariant 0 <= i <= |items|
        invariant rows == kept + Stamp(weekStart, items[..i])
      {
        assert Stamp(weekStart, items[..i + 1]) == Stamp(weekStart, items[..i]) + [WeekRow(weekStart, items[i])];
        rows := rows + [WeekRow(weekStart, items[i])];
        i := i + 1;
      }
      assert items[..i] == items;
    }
  }

  /** After a refresh the week holds exactly the new items, in order, and no
      other week lost or gained a row. */
  lemma ReplaceWeekResult<T(!new)>(old_rows: seq<WeekRow<T>>, w: int, items: seq<T>, w2: int)
    requires w2 != w
    ensures RowsOfWeek(Kept(old_rows, w) + Stamp(w, items), w) == items
    ensures RowsOfWeek(Kept(old_rows, w) + Stamp(w, items), w2) == RowsOfWeek(old_rows, w2)
  {
    var kept := Kept(old_rows, w);
    RowsOfWeekAppend(kept, Stamp(w, items), w);
    RowsOfOtherWeeks(old_rows, w);
    RowsOfStamped(items, w);
    RowsOfWeekAppend(kept, Stamp(w, items), w2);
    KeptWeek(old_rows, w, w2);
    StampOtherWeek(items, w, w2);
  }

  lemma {:induction false} KeptWeek<T(!new)>(rows: seq<WeekRow<T>>, w: int, w2: int)
    requires w2 != w
    ensures RowsOfWeek(Filter(rows, r => OtherWeek(w, r)), w2) == RowsOfWeek(rows, w2)
  {
    if rows != [] {
      var p := (r: WeekRow<T>) => OtherWeek(w, r);
      assert rows == [rows[0]] + rows[1..];
      FilterAppend([rows[0]], rows[1..], p);
      assert Filter([rows[0]], p) == (if p(rows[0]) then [rows[0]] else []) + Filter([rows[0]][1..], p);
      assert [rows[0]][1..] == [];
      RowsOfWeekAppend(Filter([rows[0]], p), Filter(rows[1..], p), w2);
      RowsOfWeekAppend([rows[0]], rows[1..], w2);
      KeptWeek(rows[1..], w, w2);
    }
  }

  lemma {:induction false} StampOtherWeek<T(!new)>(items: seq<T>, w: int, w2: int)
    requires w2 != w
    ensures RowsOfWeek(Stamp(w, items), w2) == []
  {
    if items != [] {
      assert Stamp(w, items)[1..] == Stamp(w, items[1..]);
      StampOtherWeek(items[1..], w, w2);
    }
  }
}
