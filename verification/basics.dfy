/**
 * Value helpers shared by every part of the engine: optional values,
 * JavaScript's rounding functions, calendar days, list shaping and the
 * little string handling the rules rely on.
 */
module Basics {

  datatype Option<+T> = None | Some(value: T)

  // ---------------------------------------------------------------------
  // Time
  // ---------------------------------------------------------------------

  /** Milliseconds in a day; every timestamp is milliseconds since 1970-01-01T00:00Z. */
  const MsPerDay: int := 86400000

  /** The calendar day (UTC) of a timestamp, i.e. what `toISOString().split('T')[0]` names. */
  function Day(ms: int): (d: int)
    ensures d * MsPerDay <= ms < d * MsPerDay + MsPerDay
  {
    ms / MsPerDay
  }

  /** Moving a timestamp by whole days moves its calendar day by the same amount. */
  lemma DayAfter(ms: int, k: int)
    ensures Day(ms + k * MsPerDay) == Day(ms) + k
  {
    var d := Day(ms);
    assert d * MsPerDay + k * MsPerDay <= ms + k * MsPerDay < (d + k) * MsPerDay + MsPerDay;
    DayUnique(ms + k * MsPerDay, d + k);
  }

  /** A day number that brackets a timestamp is its calendar day. */
  lemma DayUnique(ms: int, d: int)
    requires d * MsPerDay <= ms < d * MsPerDay + MsPerDay
    ensures Day(ms) == d
  {
    var e := Day(ms);
    assert (e - d) * MsPerDay < MsPerDay && (d - e) * MsPerDay < MsPerDay;
  }

  /** Later timestamps never fall on earlier days. */
  lemma DayMonotone(a: int, b: int)
    requires a <= b
    ensures Day(a) <= Day(b)
  {
    assert (Day(a) - Day(b)) * MsPerDay < MsPerDay;
  }

  /** The calendar day of `new Date(now + days · 24 h)`; the instant is cut
      to whole milliseconds towards zero, as the date constructor does. */
  function DayAfterDays(nowMs: int, days: real): (d: int)
    ensures days >= 0.0 ==> Day(nowMs) <= d
  {
    var instant := nowMs as real + days * MsPerDay as real;
    var ms := if instant < 0.0 then -((-instant).Floor) else instant.Floor;
    assert days >= 0.0 ==> Day(nowMs) <= Day(ms) by {
      if days >= 0.0 {
        assert nowMs <= ms;
        DayMonotone(nowMs, ms);
      }
    }
    Day(ms)
  }

  /** More days never give an earlier date. */
  lemma DayAfterDaysMonotone(nowMs: int, a: real, b: real)
    requires a <= b
    ensures DayAfterDays(nowMs, a) <= DayAfterDays(nowMs, b)
  {
    var ia := nowMs as real + a * MsPerDay as real;
    var ib := nowMs as real + b * MsPerDay as real;
    assert ia <= ib;
    var ma := if ia < 0.0 then -((-ia).Floor) else ia.Floor;
    var mb := if ib < 0.0 then -((-ib).Floor) else ib.Floor;
    assert ma <= mb;
    DayMonotone(ma, mb);
  }

  /** Day of the week as `getDay()` numbers it (0 = Sunday); day 0 (1970-01-01) was a Thursday. */
  function Weekday(day: int): (w: int)
    ensures 0 <= w < 7
  {
    (day + 4) % 7
  }

  /** `(getDay() + 6) % 7`: how many days back the Monday of the current week lies. */
  function DaysToMonday(day: int): (k: int)
    ensures 0 <= k <= 6
    ensures Weekday(day - k) == 1
  {
    var w := Weekday(day);
    var k := (w + 6) % 7;
    assert k == if w == 0 then 6 else w - 1;
    assert day + 4 == 7 * ((day + 4) / 7) + w;
    assert day - k + 4 == 7 * ((day + 4) / 7) + w - k;
    k
  }

  /** The Monday that opens the week containing `day`. */
  function WeekStart(day: int): (m: int)
    ensures Weekday(m) == 1
    ensures day - 6 <= m <= day
  {
    day - DaysToMonday(day)
  }

  // ---------------------------------------------------------------------
  // Numbers
  // ---------------------------------------------------------------------

  /** `Math.round`: the nearest integer, halves rounding up. */
  function Round(x: real): (r: int)
    ensures r as real - 0.5 <= x < r as real + 0.5
  {
    (x + 0.5).Floor
  }

  /** `Math.ceil`: the least integer not below `x`. */
  function Ceil(x: real): (r: int)
    ensures x <= r as real < x + 1.0
  {
    if x.Floor as real == x then x.Floor else x.Floor + 1
  }

  /** `Math.round(x * 100) / 100`: rounding to two decimals. */
  function Round2(x: real): (r: real)
    ensures x - 0.005 < r <= x + 0.005
    ensures (r * 100.0).Floor as real == r * 100.0
  {
    var n := Round(x * 100.0) as real;
    assert x * 100.0 - 0.5 < n <= x * 100.0 + 0.5;
    n / 100.0
  }

  function MinReal(a: real, b: real): (r: real)
    ensures r <= a && r <= b && (r == a || r == b)
  {
    if a <= b then a else b
  }

  function SumReals(xs: seq<real>): real
  {
    if xs == [] then 0.0 else xs[0] + SumReals(xs[1..])
  }

  /** The arithmetic mean, `reduce((sum, x) => sum + x, 0) / length`. */
  function Mean(xs: seq<real>): real
    requires |xs| > 0
  {
    SumReals(xs) / |xs| as real
  }

  /** Index of the first greatest key: what a left-to-right reduce keeping the
      current best unless a later key is strictly greater returns. */
  function FirstMaxIndex(keys: seq<real>): (r: nat)
    requires |keys| > 0
    ensures r < |keys|
    ensures forall j :: 0 <= j < |keys| ==> keys[j] <= keys[r]
    ensures forall j :: 0 <= j < r ==> keys[j] < keys[r]
  {
    if |keys| == 1 then 0
    else
      var b := FirstMaxIndex(keys[..|keys| - 1]);
      assert forall j :: 0 <= j < |keys| - 1 ==> keys[..|keys| - 1][j] == keys[j];
      if keys[|keys| - 1] > keys[b] then |keys| - 1 else b
  }

  /** Index of the first least key (a reduce keeping the current best unless a
      later key is strictly smaller). */
  function FirstMinIndex(keys: seq<real>): (r: nat)
    requires |keys| > 0
    ensures r < |keys|
    ensures forall j :: 0 <= j < |keys| ==> keys[r] <= keys[j]
    ensures forall j :: 0 <= j < r ==> keys[r] < keys[j]
  {
    if |keys| == 1 then 0
    else
      var b := FirstMinIndex(keys[..|keys| - 1]);
      assert forall j :: 0 <= j < |keys| - 1 ==> keys[..|keys| - 1][j] == keys[j];
      if keys[|keys| - 1] < keys[b] then |keys| - 1 else b
  }

  // ---------------------------------------------------------------------
  // Lists
  // ---------------------------------------------------------------------

  /** `slice(0, n)`. */
  function Take<T>(s: seq<T>, n: nat): (r: seq<T>)
    ensures |r| == if |s| <= n then |s| else n
    ensures r <= s
  {
    if |s| <= n then s else s[..n]
  }

  /** A prefix loses elements and adds none. */
  lemma TakeIsSubMultiset<T>(s: seq<T>, n: nat)
    ensures multiset(Take(s, n)) <= multiset(s)
    ensures |s| <= n ==> Take(s, n) == s
  {
    if |s| > n {
      assert s == s[..n] + s[n..];
    }
  }

  /** Of a list ordered by `key`, an element left out of the first `n` has a
      key no smaller than the last one kept. */
  lemma PrefixKeepsSmallest<T>(s: seq<T>, key: T -> int, n: nat, x: T)
    requires forall i, j :: 0 <= i < j < |s| ==> key(s[i]) <= key(s[j])
    requires x in s && x !in Take(s, n)
    ensures |Take(s, n)| == n
    ensures n > 0 ==> key(x) >= key(s[n - 1])
  {
    var i :| 0 <= i < |s| && s[i] == x;
    assert forall k :: 0 <= k < |Take(s, n)| ==> Take(s, n)[k] == s[k];
  }

  /** `filter(p)`: the elements satisfying `p`, in their original order. */
  function Filter<T(!new)>(s: seq<T>, p: T -> bool): (r: seq<T>)
    ensures |r| <= |s|
    ensures forall x :: x in r <==> x in s && p(x)
  {
    if s == [] then []
    else (if p(s[0]) then [s[0]] else []) + Filter(s[1..], p)
  }

  lemma {:induction false} FilterAppend<T(!new)>(a: seq<T>, b: seq<T>, p: T -> bool)
    ensures Filter(a + b, p) == Filter(a, p) + Filter(b, p)
  {
    if a == [] {
      assert a + b == b;
    } else {
      assert (a + b)[1..] == a[1..] + b;
      FilterAppend(a[1..], b, p);
    }
  }

  /** Filtering a three-element list keeps the kept elements in place. */
  lemma {:induction false} FilterOfThree<T(!new)>(a: T, b: T, c: T, p: T -> bool)
    ensures Filter([a, b, c], p) == (if p(a) then [a] else []) + (if p(b) then [b] else []) + (if p(c) then [c] else [])
  {
    var kc, kb := Filter([c], p), Filter([b, c], p);
    assert [c][1..] == [];
    assert kc == (if p(c) then [c] else []);
    assert [b, c][1..] == [c];
    assert kb == (if p(b) then [b] else []) + kc;
    assert [a, b, c][1..] == [b, c];
  }

  /** Filtering a four-element list keeps the kept elements in place. */
  lemma {:induction false} FilterOfFour<T(!new)>(a: T, b: T, c: T, d: T, p: T -> bool)
    ensures Filter([a, b, c, d], p) == (if p(a) then [a] else []) + (if p(b) then [b] else [])
                                       + (if p(c) then [c] else []) + (if p(d) then [d] else [])
  {
    FilterOfThree(a, b, c, p);
    assert [a, b, c, d] == [a, b, c] + [d];
    FilterAppend([a, b, c], [d], p);
    assert [d][1..] == [];
    assert Filter([d], p) == (if p(d) then [d] else []);
  }

  /** Filtering three elements of which only the first may be dropped. */
  lemma FilterMayDropFirst<T(!new)>(a: T, b: T, c: T, p: T -> bool)
    requires p(b) && p(c)
    ensures Filter([a, b, c], p) == if p(a) then [a, b, c] else [b, c]
  {
    FilterOfThree(a, b, c, p);
  }

  /** Filtering four elements of which only the third may be dropped. */
  lemma FilterMayDropThird<T(!new)>(a: T, b: T, c: T, d: T, p: T -> bool)
    requires p(a) && p(b) && p(d)
    ensures Filter([a, b, c, d], p) == if p(c) then [a, b, c, d] else [a, b, d]
  {
    FilterOfFour(a, b, c, d, p);
  }

  /** The elements whose key is `k`, in their original order: one group of
      a stable sort on a key with few values. */
  function Group<T(!new)>(s: seq<T>, key: T -> int, k: int): (r: seq<T>)
    ensures |r| <= |s|
    ensures forall x :: x in r <==> x in s && key(x) == k
  {
    if s == [] then [] else (if key(s[0]) == k then [s[0]] else []) + Group(s[1..], key, k)
  }

  lemma {:induction false} GroupAppend<T(!new)>(a: seq<T>, b: seq<T>, key: T -> int, k: int)
    ensures Group(a + b, key, k) == Group(a, key, k) + Group(b, key, k)
  {
    if a == [] {
      assert a + b == b;
    } else {
      assert (a + b)[1..] == a[1..] + b;
      GroupAppend(a[1..], b, key, k);
    }
  }

  /** Regrouping a group yields the group itself or nothing. */
  lemma {:induction false} GroupOfGroup<T(!new)>(s: seq<T>, key: T -> int, j: int, k: int)
    ensures Group(Group(s, key, j), key, k) == if j == k then Group(s, key, j) else []
  {
    if s != [] {
      GroupOfGroup(s[1..], key, j, k);
      if key(s[0]) == j {
        assert Group(s, key, j) == [s[0]] + Group(s[1..], key, j);
        assert Group(s, key, j)[1..] == Group(s[1..], key, j);
      } else {
        assert Group(s, key, j) == Group(s[1..], key, j);
      }
    }
  }

  lemma MultisetHeadTail<T>(s: seq<T>)
    requires s != []
    ensures multiset(s) == multiset{s[0]} + multiset(s[1..])
  {
    assert s == [s[0]] + s[1..];
  }

  /** When every key is `k1` or `k2`, the two groups hold every element once. */
  lemma {:induction false} TwoGroupsArePermutation<T(!new)>(s: seq<T>, key: T -> int, k1: int, k2: int)
    requires k1 != k2
    requires forall x :: x in s ==> key(x) == k1 || key(x) == k2
    ensures multiset(Group(s, key, k1) + Group(s, key, k2)) == multiset(s)
  {
    if s != [] {
      TwoGroupsArePermutation(s[1..], key, k1, k2);
      assert s[0] in s;
      MultisetHeadTail(s);
    }
  }

  /** When every key is `k1`, `k2` or `k3`, the three groups hold every element once. */
  lemma {:induction false} ThreeGroupsArePermutation<T(!new)>(s: seq<T>, key: T -> int, k1: int, k2: int, k3: int)
    requires k1 != k2 && k2 != k3 && k1 != k3
    requires forall x :: x in s ==> key(x) == k1 || key(x) == k2 || key(x) == k3
    ensures multiset(Group(s, key, k1) + Group(s, key, k2) + Group(s, key, k3)) == multiset(s)
  {
    if s != [] {
      var x, t := s[0], s[1..];
      assert forall y :: y in t ==> key(y) == k1 || key(y) == k2 || key(y) == k3 by {
        forall y | y in t ensures key(y) == k1 || key(y) == k2 || key(y) == k3 {
          assert y in s;
        }
      }
      ThreeGroupsArePermutation(t, key, k1, k2, k3);
      var a', b', c' := Group(t, key, k1), Group(t, key, k2), Group(t, key, k3);
      assert key(x) == k1 || key(x) == k2 || key(x) == k3 by {
        assert x in s;
      }
      HeadJoinsItsGroup(x, Group(s, key, k1), Group(s, key, k2), Group(s, key, k3), a', b', c',
                        key(x) == k1, key(x) == k2, key(x) == k3);
      MultisetHeadTail(s);
    }
  }

  /** Gathering two groups in turn keeps the order within each group. */
  lemma TwoGroupsKeepOrder<T(!new)>(s: seq<T>, key: T -> int, k1: int, k2: int, k: int)
    requires k == k1 || k == k2
    requires k1 != k2
    ensures Group(Group(s, key, k1) + Group(s, key, k2), key, k) == Group(s, key, k)
  {
    GroupAppend(Group(s, key, k1), Group(s, key, k2), key, k);
    GroupOfGroup(s, key, k1, k);
    GroupOfGroup(s, key, k2, k);
  }

  /** Gathering three groups in turn keeps the order within each group. */
  lemma ThreeGroupsKeepOrder<T(!new)>(s: seq<T>, key: T -> int, k1: int, k2: int, k3: int, k: int)
    requires k == k1 || k == k2 || k == k3
    requires k1 != k2 && k2 != k3 && k1 != k3
    ensures Group(Group(s, key, k1) + Group(s, key, k2) + Group(s, key, k3), key, k) == Group(s, key, k)
  {
    var a, b, c := Group(s, key, k1), Group(s, key, k2), Group(s, key, k3);
    GroupAppend(a + b, c, key, k);
    GroupAppend(a, b, key, k);
    GroupOfGroup(s, key, k1, k);
    GroupOfGroup(s, key, k2, k);
    GroupOfGroup(s, key, k3, k);
  }

  lemma HeadJoinsItsGroup<T>(x: T, a: seq<T>, b: seq<T>, c: seq<T>, a': seq<T>, b': seq<T>, c': seq<T>,
                             inA: bool, inB: bool, inC: bool)
    requires (inA && !inB && !inC) || (!inA && inB && !inC) || (!inA && !inB && inC)
    requires a == (if inA then [x] else []) + a'
    requires b == (if inB then [x] else []) + b'
    requires c == (if inC then [x] else []) + c'
    ensures multiset(a + b + c) == multiset{x} + multiset(a' + b' + c')
  {
  }

  /** `filter(p).length`. */
  function CountWhere<T(!new)>(s: seq<T>, p: T -> bool): (n: nat)
    ensures n <= |s|
  {
    |Filter(s, p)|
  }

  /** Three pushes onto an empty list build the list of the three. */
  lemma PushThree<T>(a: T, b: T, c: T)
    ensures [] + [a] + [b] + [c] == [a, b, c]
  {
  }

  /** Appending four lists one after the other appends their concatenation. */
  lemma AppendFour<T>(xs: seq<T>, a: seq<T>, b: seq<T>, c: seq<T>, d: seq<T>)
    ensures xs + a + b + c + d == xs + (a + b + c + d)
  {
  }

  /** The values of the present entries, in order: pushing each non-null
      candidate onto a list. */
  function Somes<T(!new)>(xs: seq<Option<T>>): (r: seq<T>)
    ensures |r| <= |xs|
    ensures forall y :: y in r <==> Some(y) in xs
  {
    if xs == [] then []
    else (if xs[0].Some? then [xs[0].value] else []) + Somes(xs[1..])
  }

  lemma {:induction false} SomesAppend<T(!new)>(a: seq<Option<T>>, b: seq<Option<T>>)
    ensures Somes(a + b) == Somes(a) + Somes(b)
  {
    if a == [] {
      assert a + b == b;
    } else {
      assert (a + b)[1..] == a[1..] + b;
      SomesAppend(a[1..], b);
    }
  }

  /** Somes of a one-more-element prefix: the step of a push loop. */
  lemma SomesSnoc<T(!new)>(xs: seq<Option<T>>, i: nat)
    requires i < |xs|
    ensures Somes(xs[..i + 1]) == Somes(xs[..i]) + (if xs[i].Some? then [xs[i].value] else [])
  {
    assert xs[..i + 1] == xs[..i] + [xs[i]];
    SomesAppend(xs[..i], [xs[i]]);
  }

  /** Keeping the present entries of a list keeps any strict order by `rank`
      that the present entries already had. */
  lemma {:induction false} SomesKeepOrder<T(!new)>(c: seq<Option<T>>, rank: T -> int)
    requires forall k, l :: 0 <= k < l < |c| && c[k].Some? && c[l].Some? ==>
      rank(c[k].value) < rank(c[l].value)
    ensures forall i, j :: 0 <= i < j < |Somes(c)| ==> rank(Somes(c)[i]) < rank(Somes(c)[j])
  {
    if c != [] {
      var rest := Somes(c[1..]);
      SomesKeepOrder(c[1..], rank);
      if c[0].Some? {
        assert Somes(c) == [c[0].value] + rest;
        forall j | 0 <= j < |rest|
          ensures rank(c[0].value) < rank(rest[j])
        {
          assert Some(rest[j]) in c[1..];
          var l :| 0 <= l < |c[1..]| && c[1..][l] == Some(rest[j]);
          assert c[l + 1] == Some(rest[j]);
        }
      } else {
        assert Somes(c) == rest;
      }
    }
  }

  /** The value of an option as a list of zero or one element. */
  function ToSeq<T>(o: Option<T>): (r: seq<T>)
    ensures |r| <= 1
  {
    if o.Some? then [o.value] else []
  }

  /** `if (x) list.push(x)`: appends the value when there is one. */
  method PushPresent<T>(xs: seq<T>, o: Option<T>) returns (ys: seq<T>)
    ensures ys == xs + ToSeq(o)
  {
    ys := xs;
    if o.Some? {
      ys := ys + [o.value];
    }
  }

  lemma SomesSingle<T(!new)>(a: Option<T>)
    ensures Somes([a]) == ToSeq(a)
  {
    assert [a][1..] == [];
  }

  /** Somes of a three-element list, one entry at a time. */
  lemma SomesOfThree<T(!new)>(a: Option<T>, b: Option<T>, c: Option<T>)
    ensures Somes([a, b, c]) == ToSeq(a) + ToSeq(b) + ToSeq(c)
  {
    assert [a, b, c] == [a] + [b] + [c];
    SomesAppend([a] + [b], [c]);
    SomesAppend([a], [b]);
    SomesSingle(a);
    SomesSingle(b);
    SomesSingle(c);
  }

  /** Somes of a four-element list, one entry at a time. */
  lemma SomesOfFour<T(!new)>(a: Option<T>, b: Option<T>, c: Option<T>, d: Option<T>)
    ensures Somes([a, b, c, d]) == ToSeq(a) + ToSeq(b) + ToSeq(c) + ToSeq(d)
  {
    assert [a, b, c, d] == [a] + [b] + [c] + [d];
    SomesAppend([a] + [b] + [c], [d]);
    SomesAppend([a] + [b], [c]);
    SomesAppend([a], [b]);
    SomesSingle(a);
    SomesSingle(b);
    SomesSingle(c);
    SomesSingle(d);
  }

  /** The present results of `f` over a list, in list order: a loop pushing
      each result that is not null. */
  function MapSomes<A, B>(xs: seq<A>, f: A -> Option<B>): (r: seq<B>)
    ensures |r| <= |xs|
  {
    if xs == [] then []
    else
      var n := |xs| - 1;
      MapSomes(xs[..n], f) + ToSeq(f(xs[n]))
  }

  lemma MapSomesPrefixSnoc<A, B>(xs: seq<A>, f: A -> Option<B>, i: nat)
    requires i < |xs|
    ensures MapSomes(xs[..i + 1], f) == MapSomes(xs[..i], f) + ToSeq(f(xs[i]))
  {
    assert xs[..i + 1][..i] == xs[..i];
  }

  lemma {:induction false} MapSomesMembers<A, B>(xs: seq<A>, f: A -> Option<B>, y: B)
    ensures y in MapSomes(xs, f) <==> exists i :: 0 <= i < |xs| && f(xs[i]) == Some(y)
  {
    if xs != [] {
      var n := |xs| - 1;
      var pre := xs[..n];
      assert MapSomes(xs, f) == MapSomes(pre, f) + ToSeq(f(xs[n]));
      assert y in MapSomes(xs, f) <==> y in MapSomes(pre, f) || f(xs[n]) == Some(y);
      MapSomesMembers(pre, f, y);
      if y in MapSomes(pre, f) {
        var i :| 0 <= i < n && f(pre[i]) == Some(y);
        assert pre[i] == xs[i];
      }
      if exists i :: 0 <= i < |xs| && f(xs[i]) == Some(y) {
        var i :| 0 <= i < |xs| && f(xs[i]) == Some(y);
        if i < n {
          assert pre[i] == xs[i];
        }
      }
    }
  }

  /** `flat()` of a list of lists. */
  function Flatten<T>(xss: seq<seq<T>>): seq<T>
  {
    if xss == [] then [] else xss[0] + Flatten(xss[1..])
  }

  lemma {:induction false} FlattenSnoc<T>(xss: seq<seq<T>>, xs: seq<T>)
    ensures Flatten(xss + [xs]) == Flatten(xss) + xs
  {
    if xss == [] {
      assert [] + [xs] == [xs];
    } else {
      assert (xss + [xs])[1..] == xss[1..] + [xs];
      FlattenSnoc(xss[1..], xs);
    }
  }

  /** Flattening one more list of a prefix appends that list. */
  lemma FlattenPrefixSnoc<T>(xss: seq<seq<T>>, i: nat)
    requires i < |xss|
    ensures Flatten(xss[..i + 1]) == Flatten(xss[..i]) + xss[i]
  {
    assert xss[..i + 1] == xss[..i] + [xss[i]];
    FlattenSnoc(xss[..i], xss[i]);
  }

  lemma {:induction false} FlattenMember<T>(xss: seq<seq<T>>, x: T)
    ensures x in Flatten(xss) <==> exists i :: 0 <= i < |xss| && x in xss[i]
  {
    if xss != [] {
      FlattenMember(xss[1..], x);
      if x in Flatten(xss[1..]) {
        var i :| 0 <= i < |xss[1..]| && x in xss[1..][i];
        assert x in xss[i + 1];
      }
      if exists i :: 0 <= i < |xss| && x in xss[i] {
        var i :| 0 <= i < |xss| && x in xss[i];
        if i > 0 {
          assert x in xss[1..][i - 1];
        }
      }
    }
  }

  lemma {:induction false} FlattenBound<T>(xss: seq<seq<T>>, k: nat)
    requires forall i :: 0 <= i < |xss| ==> |xss[i]| <= k
    ensures |Flatten(xss)| <= k * |xss|
  {
    if xss != [] {
      assert forall i :: 0 <= i < |xss[1..]| ==> xss[1..][i] == xss[i + 1];
      FlattenBound(xss[1..], k);
    }
  }

  /** `find(p)`: the index of the first element satisfying `p`. */
  function FindIndex<T>(s: seq<T>, p: T -> bool): (r: Option<nat>)
    ensures r.Some? ==> r.value < |s| && p(s[r.value])
    ensures r.Some? ==> forall j :: 0 <= j < r.value ==> !p(s[j])
    ensures r.None? ==> forall j :: 0 <= j < |s| ==> !p(s[j])
  {
    if s == [] then None
    else if p(s[0]) then Some(0)
    else match FindIndex(s[1..], p)
      case None => None
      case Some(k) => Some(k + 1)
  }

  predicate NoDuplicates<T(==)>(s: seq<T>)
  {
    forall i, j :: 0 <= i < j < |s| ==> s[i] != s[j]
  }

  /** `[...new Set(s)]`: the distinct values of `s` in order of first occurrence. */
  function Dedup<T(==,!new)>(s: seq<T>): (r: seq<T>)
    ensures forall x :: x in r <==> x in s
    ensures NoDuplicates(r)
    ensures |r| <= |s|
  {
    if s == [] then []
    else
      var d := Dedup(s[..|s| - 1]);
      assert forall x :: x in s[..|s| - 1] ==> x in s;
      assert forall x :: x in s ==> x in s[..|s| - 1] || x == s[|s| - 1];
      if s[|s| - 1] in d then d else d + [s[|s| - 1]]
  }

  /** One more element adds itself to the distinct values unless it is a repeat. */
  lemma DedupSnoc<T(!new)>(s: seq<T>)
    requires s != []
    ensures var n := |s| - 1;
      |Dedup(s)| == if s[n] in s[..n] then |Dedup(s[..n])| else |Dedup(s[..n])| + 1
  {
  }

  /** Deduplicating a prefix gives a prefix of the deduplicated whole: the
      values keep the order of their first occurrence. */
  lemma {:induction false} DedupKeepsFirstOccurrenceOrder<T(!new)>(s: seq<T>, k: nat)
    requires k <= |s|
    ensures Dedup(s[..k]) <= Dedup(s)
    decreases |s| - k
  {
    if k < |s| {
      DedupKeepsFirstOccurrenceOrder(s, k + 1);
      var t := s[..k + 1];
      assert t[..|t| - 1] == s[..k];
      assert Dedup(t) == Dedup(s[..k]) || Dedup(t) == Dedup(s[..k]) + [t[k]];
    } else {
      assert s[..k] == s;
    }
  }

  // ---------------------------------------------------------------------
  // Strings
  // ---------------------------------------------------------------------

  /** ASCII part of `toLowerCase`. */
  function LowerChar(c: char): char
  {
    if 'A' <= c <= 'Z' then (c as int + 32) as char else c
  }

  function Lower(s: string): (r: string)
    ensures |r| == |s|
  {
    if s == [] then [] else [LowerChar(s[0])] + Lower(s[1..])
  }

  /** Lower-casing maps each ASCII capital to its small letter, leaves every
      other character as it is, and so leaves no ASCII capital. */
  lemma {:induction false} LowerFolds(s: string)
    ensures forall i :: 0 <= i < |s| ==> !('A' <= Lower(s)[i] <= 'Z')
    ensures forall i :: 0 <= i < |s| ==>
      if 'A' <= s[i] <= 'Z' then Lower(s)[i] as int == s[i] as int + 32 else Lower(s)[i] == s[i]
  {
    if s != [] {
      LowerFolds(s[1..]);
      assert forall i :: 1 <= i < |s| ==> Lower(s)[i] == Lower(s[1..])[i - 1] && s[i] == s[1..][i - 1];
    }
  }

  /** `hay.startsWith(needle)`. */
  predicate StartsWith(hay: string, needle: string)
  {
    |needle| <= |hay| && hay[..|needle|] == needle
  }

  /** `hay.includes(needle)`: the needle starts at some position of the hay. */
  predicate Contains(hay: string, needle: string)
    decreases |hay|
  {
    StartsWith(hay, needle) || (hay != [] && Contains(hay[1..], needle))
  }

  /** Some keyword occurs in the lower-cased text: the `||` chain of
      `text.toLowerCase().includes(k)` tests. */
  predicate MentionsAny(text: string, keywords: seq<string>)
  {
    keywords != [] && (Contains(Lower(text), keywords[0]) || MentionsAny(text, keywords[1..]))
  }

  /** `texts.some(t => MentionsAny(t, keywords))`. */
  predicate SomeMentions(texts: seq<string>, keywords: seq<string>)
  {
    texts != [] && (MentionsAny(texts[0], keywords) || SomeMentions(texts[1..], keywords))
  }

  lemma {:induction false} SomeMentionsWitness(texts: seq<string>, keywords: seq<string>)
    ensures SomeMentions(texts, keywords) <==> exists i :: 0 <= i < |texts| && MentionsAny(texts[i], keywords)
  {
    if texts != [] {
      SomeMentionsWitness(texts[1..], keywords);
      if exists i :: 0 <= i < |texts| && MentionsAny(texts[i], keywords) {
        var i :| 0 <= i < |texts| && MentionsAny(texts[i], keywords);
        if i > 0 {
          assert MentionsAny(texts[1..][i - 1], keywords);
        }
      }
      if SomeMentions(texts[1..], keywords) {
        var i :| 0 <= i < |texts[1..]| && MentionsAny(texts[1..][i], keywords);
        assert MentionsAny(texts[i + 1], keywords);
      }
    }
  }

  /** A blocker field is set when it is truthy (not null, not empty) and not the word 'Aucun'. */
  predicate IsBlocker(mainBlocker: Option<string>)
  {
    mainBlocker.Some? && mainBlocker.value != "" && mainBlocker.value != "Aucun"
  }

  /** `value || fallback` on a nullable string: null and the empty string both fall back. */
  function OrElse(s: Option<string>, fallback: string): (r: string)
    ensures r != "" || fallback == ""
    ensures s.Some? && s.value != "" ==> r == s.value
    ensures s.None? || s.value == "" ==> r == fallback
  {
    if s.Some? && s.value != "" then s.value else fallback
  }

  /** `list.join(sep)`. */
  function Join(parts: seq<string>, sep: string): string
  {
    if parts == [] then ""
    else if |parts| == 1 then parts[0]
    else parts[0] + sep + Join(parts[1..], sep)
  }

  function DigitChar(d: int): char
    requires 0 <= d < 10
  {
    ['0', '1', '2', '3', '4', '5', '6', '7', '8', '9'][d]
  }

  function NatText(n: nat): (s: string)
    ensures |s| > 0
  {
    if n < 10 then [DigitChar(n)] else NatText(n / 10) + [DigitChar(n % 10)]
  }

  /** Decimal text of an integer, as template interpolation renders it. */
  function IntText(n: int): (s: string)
    ensures |s| > 0
  {
    if n < 0 then "-" + NatText(-n) else NatText(n)
  }

  /** Template interpolation of a number: exact for integral values; a
      non-integral value is rendered by its integer part only. */
  function NumText(x: real): (s: string)
    ensures |s| > 0
  {
    IntText(x.Floor)
  }
}
