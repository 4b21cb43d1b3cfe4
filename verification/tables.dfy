/**
 * A relational table as the core sees it: rows keyed by an AUTO_INCREMENT
 * primary key. `next` is the counter MySQL hands out on the next INSERT;
 * every stored key lies below it, so the keys can be listed in primary-key
 * order (the order a full scan of an InnoDB table returns) by counting up.
 */
module Tables {
  import opened Common

  datatype Table<T> = Table(rows: map<int, T>, next: int) {
    ghost predicate Valid() {
      next >= 1 && forall k :: k in rows ==> 1 <= k < next
    }
  }

  function EmptyTable<T>(): (t: Table<T>)
    ensures t.Valid() && t.rows == map[]
  {
    Table(map[], 1)
  }

  predicate Increasing(ids: seq<int>) {
    forall i, j :: 0 <= i < j < |ids| ==> ids[i] < ids[j]
  }

  /** The keys of `t` in `[lo, t.next)`, ascending. */
  function IdsFrom<T>(t: Table<T>, lo: int): (ids: seq<int>)
    ensures forall k :: k in ids <==> k in t.rows && lo <= k < t.next
    ensures forall i :: 0 <= i < |ids| ==> lo <= ids[i]
    ensures Increasing(ids)
    decreases t.next - lo
  {
    if lo >= t.next then []
    else if lo in t.rows then [lo] + IdsFrom(t, lo + 1)
    else IdsFrom(t, lo + 1)
  }

  /** Every key of `t`, in primary-key order. */
  function Ids<T>(t: Table<T>): (ids: seq<int>)
    requires t.Valid()
    ensures forall k :: k in ids <==> k in t.rows
    ensures Increasing(ids)
  {
    IdsFrom(t, 1)
  }

  /** The rows stored under `ids`, paired with their keys. */
  function EntriesOf<T>(t: Table<T>, ids: seq<int>): (es: seq<(int, T)>)
    requires forall i :: 0 <= i < |ids| ==> ids[i] in t.rows
    ensures |es| == |ids|
    ensures forall i :: 0 <= i < |ids| ==> es[i] == (ids[i], t.rows[ids[i]])
  {
    if ids == [] then [] else [(ids[0], t.rows[ids[0]])] + EntriesOf(t, ids[1..])
  }

  /** `SELECT id, * FROM t` without ORDER BY: every row once, in primary-key order. */
  function Entries<T>(t: Table<T>): (es: seq<(int, T)>)
    requires t.Valid()
    ensures forall i :: 0 <= i < |es| ==> es[i].0 in t.rows && es[i].1 == t.rows[es[i].0]
    ensures forall k :: k in t.rows ==> (k, t.rows[k]) in es
    ensures forall i, j :: 0 <= i < j < |es| ==> es[i].0 < es[j].0
  {
    var ids := Ids(t);
    var es := EntriesOf(t, ids);
    assert forall k :: k in t.rows ==> (k, t.rows[k]) in es by {
      forall k | k in t.rows ensures (k, t.rows[k]) in es {
        var i :| 0 <= i < |ids| && ids[i] == k;
        assert es[i] == (k, t.rows[k]);
      }
    }
    es
  }

  /** The rows stored under `ids`, without their keys. */
  function RowsOf<T>(t: Table<T>, ids: seq<int>): (rs: seq<T>)
    requires forall i :: 0 <= i < |ids| ==> ids[i] in t.rows
    ensures |rs| == |ids|
    ensures forall i :: 0 <= i < |ids| ==> rs[i] == t.rows[ids[i]]
  {
    if ids == [] then [] else [t.rows[ids[0]]] + RowsOf(t, ids[1..])
  }

  /** `SELECT * FROM t` without ORDER BY: the rows alone, in primary-key order. */
  function Rows<T(==,!new)>(t: Table<T>): (rs: seq<T>)
    requires t.Valid()
    ensures forall x :: x in rs <==> x in t.rows.Values
    ensures |rs| == |Ids(t)| && forall i :: 0 <= i < |rs| ==> rs[i] == t.rows[Ids(t)[i]]
  {
    var ids := Ids(t);
    var rs := RowsOf(t, ids);
    assert forall k :: k in t.rows ==> t.rows[k] in rs by {
      forall k | k in t.rows ensures t.rows[k] in rs {
        var i :| 0 <= i < |ids| && ids[i] == k;
        assert rs[i] == t.rows[k];
      }
    }
    rs
  }

  // ------------------------------------------------------------ aggregates

  /** SQL `WHERE`: the elements satisfying `f`, in order. */
  function Filter<T(!new)>(xs: seq<T>, f: T -> bool): (r: seq<T>)
    ensures |r| <= |xs|
    ensures forall x :: x in r <==> x in xs && f(x)
    ensures forall i :: 0 <= i < |r| ==> f(r[i])
  {
    if xs == [] then []
    else if f(xs[0]) then [xs[0]] + Filter(xs[1..], f)
    else Filter(xs[1..], f)
  }

  /** `rel` holds between every element and each later one. */
  ghost predicate Pairwise<T>(xs: seq<T>, rel: (T, T) -> bool) {
    forall i, j :: 0 <= i < j < |xs| ==> rel(xs[i], xs[j])
  }

  /** A relation that holds between every earlier and later element still holds after filtering. */
  lemma {:induction false} FilterKeepsPairwise<T(!new)>(xs: seq<T>, f: T -> bool, rel: (T, T) -> bool)
    requires Pairwise(xs, rel)
    ensures Pairwise(Filter(xs, f), rel)
  {
    if xs != [] {
      var tail := xs[1..];
      assert Pairwise(tail, rel) by {
        forall i, j | 0 <= i < j < |tail| ensures rel(tail[i], tail[j]) {
          assert tail[i] == xs[i + 1] && tail[j] == xs[j + 1];
        }
      }
      FilterKeepsPairwise(tail, f, rel);
      var rest := Filter(tail, f);
      if f(xs[0]) {
        forall j | 0 <= j < |rest| ensures rel(xs[0], rest[j]) {
          assert rest[j] in tail;
          var k :| 0 <= k < |tail| && tail[k] == rest[j];
          assert xs[k + 1] == rest[j];
        }
        PairwiseCons(xs[0], rest, rel);
        assert Filter(xs, f) == [xs[0]] + rest;
      } else {
        assert Filter(xs, f) == rest;
      }
    }
  }

  /** An element related to every later one extends a pairwise-related sequence at the front. */
  lemma PairwiseCons<T>(x: T, xs: seq<T>, rel: (T, T) -> bool)
    requires Pairwise(xs, rel) && forall j :: 0 <= j < |xs| ==> rel(x, xs[j])
    ensures Pairwise([x] + xs, rel)
  {
    var r := [x] + xs;
    forall i, j | 0 <= i < j < |r| ensures rel(r[i], r[j]) {
      assert r[j] == xs[j - 1];
      if i > 0 {
        assert r[i] == xs[i - 1];
      }
    }
  }

  /** Filtering one more element appends it when it passes. */
  lemma {:induction false} FilterAppend<T(!new)>(xs: seq<T>, x: T, f: T -> bool)
    ensures Filter(xs + [x], f) == Filter(xs, f) + (if f(x) then [x] else [])
  {
    if xs == [] {
      assert xs + [x] == [x];
    } else {
      assert (xs + [x])[1..] == xs[1..] + [x];
      FilterAppend(xs[1..], x, f);
    }
  }

  /** SQL `SUM(CASE WHEN f THEN 1 ELSE 0 END)` over a non-empty group, and `COUNT(CASE WHEN f THEN 1 END)`. */
  function CountOf<T(!new)>(xs: seq<T>, f: T -> bool): (n: nat)
    ensures n == |Filter(xs, f)|
  {
    if xs == [] then 0 else (if f(xs[0]) then 1 else 0) + CountOf(xs[1..], f)
  }

  /** SQL `SUM(f)` over a non-empty group (exact arithmetic). */
  function SumOf<T>(xs: seq<T>, f: T -> real): real {
    if xs == [] then 0.0 else f(xs[0]) + SumOf(xs[1..], f)
  }

  /** Summing one more element adds its value. */
  lemma {:induction false} SumOfAppend<T>(xs: seq<T>, x: T, f: T -> real)
    ensures SumOf(xs + [x], f) == SumOf(xs, f) + f(x)
  {
    if xs == [] {
      assert xs + [x] == [x];
    } else {
      assert (xs + [x])[1..] == xs[1..] + [x];
      SumOfAppend(xs[1..], x, f);
    }
  }

  /** SQL `SUM`: NULL over no rows. */
  function SqlSum<T>(xs: seq<T>, f: T -> real): (r: Option<real>)
    ensures r.None? <==> xs == []
  {
    if xs == [] then None else Some(SumOf(xs, f))
  }

  /** SQL `SUM(CASE WHEN f THEN 1 ELSE 0 END)`: NULL over no rows. */
  function SqlCount<T(!new)>(xs: seq<T>, f: T -> bool): (r: Option<nat>)
    ensures r.None? <==> xs == []
    ensures r.Some? ==> r.value == |Filter(xs, f)|
  {
    if xs == [] then None else Some(CountOf(xs, f))
  }

  /** SQL `AVG`: NULL over no rows. */
  function SqlAvg<T>(xs: seq<T>, f: T -> real): (r: Option<real>)
    ensures r.None? <==> xs == []
    ensures r.Some? ==> r.value * (|xs| as real) == SumOf(xs, f)
  {
    if xs == [] then None else Some(SumOf(xs, f) / (|xs| as real))
  }

  /** Summing `f + g` is adding the sums of `f` and `g`. */
  lemma {:induction false} SumOfAddition<T>(xs: seq<T>, f: T -> real, g: T -> real, h: T -> real)
    requires forall x :: x in xs ==> h(x) == f(x) + g(x)
    ensures SumOf(xs, h) == SumOf(xs, f) + SumOf(xs, g)
  {
    if xs != [] {
      SumOfAddition(xs[1..], f, g, h);
    }
  }

  /** Summing `f - g` is summing `f` and subtracting the sum of `g`. */
  lemma {:induction false} SumOfDifference<T>(xs: seq<T>, f: T -> real, g: T -> real, h: T -> real)
    requires forall x :: x in xs ==> h(x) == f(x) - g(x)
    ensures SumOf(xs, h) == SumOf(xs, f) - SumOf(xs, g)
  {
    if xs != [] {
      SumOfDifference(xs[1..], f, g, h);
    }
  }

  /** An INSERT: the row gets the next AUTO_INCREMENT key, which `lastInsertId` reports. */
  function Insert<T>(t: Table<T>, row: T): (r: (Table<T>, int))
    requires t.Valid()
    ensures r.0.Valid()
    ensures r.1 !in t.rows && r.1 >= 1
    ensures r.0.rows == t.rows[r.1 := row]
    ensures r.0.next > t.next
  {
    (Table(t.rows[t.next := row], t.next + 1), t.next)
  }
}

/** Insertion sort by a caller-supplied order: the model of SQL `ORDER BY`. */
module Sorting {

  /** `le` is total and transitive, as every `ORDER BY` key order is. */
  ghost predicate TotalPreorder<T(!new)>(le: (T, T) -> bool) {
    && (forall a, b :: le(a, b) || le(b, a))
    && (forall a, b, c :: le(a, b) && le(b, c) ==> le(a, c))
  }

  ghost predicate SortedBy<T>(s: seq<T>, le: (T, T) -> bool) {
    forall i, j :: 0 <= i < j < |s| ==> le(s[i], s[j])
  }

  function InsertBy<T>(x: T, s: seq<T>, le: (T, T) -> bool): (r: seq<T>)
    ensures multiset(r) == multiset(s) + multiset{x}
    ensures |r| == |s| + 1
  {
    if s == [] || le(x, s[0]) then [x] + s
    else
      assert s == [s[0]] + s[1..];
      [s[0]] + InsertBy(x, s[1..], le)
  }

  /** A stable sort: the result is a permutation of `s` (sortedness is `SortByIsSorted`). */
  function SortBy<T>(s: seq<T>, le: (T, T) -> bool): (r: seq<T>)
    ensures multiset(r) == multiset(s)
    ensures |r| == |s|
  {
    if s == [] then []
    else
      assert s == [s[0]] + s[1..];
      InsertBy(s[0], SortBy(s[1..], le), le)
  }

  lemma {:induction false} InsertBySorted<T(!new)>(x: T, s: seq<T>, le: (T, T) -> bool)
    requires TotalPreorder(le) && SortedBy(s, le)
    ensures SortedBy(InsertBy(x, s, le), le)
  {
    if s == [] || le(x, s[0]) {
      var r := [x] + s;
      forall i, j | 0 <= i < j < |r| ensures le(r[i], r[j]) {
        if i == 0 {
          if j > 1 { assert le(s[0], s[j - 1]); }
        }
      }
    } else {
      assert le(s[0], x);
      var tail := InsertBy(x, s[1..], le);
      InsertBySorted(x, s[1..], le);
      var r := [s[0]] + tail;
      forall i, j | 0 <= i < j < |r| ensures le(r[i], r[j]) {
        if i == 0 {
          var y := tail[j - 1];
          assert y in multiset(tail);
          assert y in multiset(s[1..]) || y == x;
          if y != x {
            var k :| 0 <= k < |s[1..]| && s[1..][k] == y;
            assert s[k + 1] == y;
          }
        } else {
          assert r[i] == tail[i - 1] && r[j] == tail[j - 1];
        }
      }
    }
  }

  /** The sort leaves its result in `le` order. */
  lemma {:induction false} SortByIsSorted<T(!new)>(s: seq<T>, le: (T, T) -> bool)
    requires TotalPreorder(le)
    ensures SortedBy(SortBy(s, le), le)
  {
    if s != [] {
      SortByIsSorted(s[1..], le);
      InsertBySorted(s[0], SortBy(s[1..], le), le);
    }
  }

  /** Sorting keeps exactly the elements it was given. */
  lemma SortByMembers<T>(s: seq<T>, le: (T, T) -> bool)
    ensures forall x :: x in SortBy(s, le) <==> x in s
  {
    forall x ensures x in SortBy(s, le) <==> x in s {
      assert x in SortBy(s, le) <==> x in multiset(SortBy(s, le));
      assert x in s <==> x in multiset(s);
    }
  }

  /** No two positions of `s` share a key. */
  ghost predicate DistinctBy<T, K>(s: seq<T>, key: T -> K) {
    forall i, j :: 0 <= i < j < |s| ==> key(s[i]) != key(s[j])
  }

  /** A key unlike every other extends a sequence with distinct keys at the front. */
  lemma DistinctByCons<T, K>(x: T, s: seq<T>, key: T -> K)
    requires DistinctBy(s, key) && forall j :: 0 <= j < |s| ==> key(s[j]) != key(x)
    ensures DistinctBy([x] + s, key)
  {
    var r := [x] + s;
    forall i, j | 0 <= i < j < |r| ensures key(r[i]) != key(r[j]) {
      assert r[j] == s[j - 1];
      if i > 0 {
        assert r[i] == s[i - 1];
      }
    }
  }

  lemma {:induction false} InsertByDistinct<T, K>(x: T, s: seq<T>, le: (T, T) -> bool, key: T -> K)
    requires DistinctBy(s, key)
    requires forall i :: 0 <= i < |s| ==> key(s[i]) != key(x)
    ensures DistinctBy(InsertBy(x, s, le), key)
  {
    if !(s == [] || le(x, s[0])) {
      var tail := InsertBy(x, s[1..], le);
      InsertByDistinct(x, s[1..], le, key);
      var r := [s[0]] + tail;
      forall i, j | 0 <= i < j < |r| ensures key(r[i]) != key(r[j]) {
        if i == 0 {
          var y := tail[j - 1];
          assert y in multiset(tail);
          assert y in multiset(s[1..]) || y == x;
          if y != x {
            var k :| 0 <= k < |s[1..]| && s[1..][k] == y;
            assert s[k + 1] == y;
          }
        } else {
          assert r[i] == tail[i - 1] && r[j] == tail[j - 1];
        }
      }
    }
  }

  /** Sorting never puts two elements with the same key where there were none. */
  lemma {:induction false} SortByDistinct<T, K>(s: seq<T>, le: (T, T) -> bool, key: T -> K)
    requires DistinctBy(s, key)
    ensures DistinctBy(SortBy(s, le), key)
  {
    if s != [] {
      var tail := s[1..];
      assert DistinctBy(tail, key) by {
        forall i, j | 0 <= i < j < |tail| ensures key(tail[i]) != key(tail[j]) {
          assert tail[i] == s[i + 1] && tail[j] == s[j + 1];
        }
      }
      SortByDistinct(tail, le, key);
      var sorted := SortBy(tail, le);
      forall i | 0 <= i < |sorted| ensures key(sorted[i]) != key(s[0]) {
        assert sorted[i] in multiset(sorted);
        assert sorted[i] in multiset(tail);
        var k :| 0 <= k < |tail| && tail[k] == sorted[i];
        assert s[k + 1] == sorted[i];
      }
      InsertByDistinct(s[0], sorted, le, key);
    }
  }
}
