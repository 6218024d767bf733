/** Table listings. A table is a map from row id to row, with ids handed
    out from 1 upwards; `SELECT ... ORDER BY created_at DESC` returns every
    row once, newest first. Rows with equal timestamps may come back in any
    order from the database; this model fixes one such order. */
module Listing {
  import opened Wrappers


  /** The ids of `m` in `[1, n)`, ascending. */
  function Ids<T>(m: map<int, T>, n: int): (ids: seq<int>)
    ensures forall i :: 0 <= i < |ids| ==> ids[i] in m && 1 <= ids[i] < n
    ensures forall i, j :: 0 <= i < j < |ids| ==> ids[i] < ids[j]
    ensures forall k :: k in m && 1 <= k < n ==> k in ids
    decreases n
  {
    if n <= 1 then [] else Ids(m, n - 1) + (if n - 1 in m then [n - 1] else [])
  }

  /** The rows stored under `ids`, in that order. */
  function Rows<T>(m: map<int, T>, ids: seq<int>): (rows: seq<T>)
    requires forall i :: 0 <= i < |ids| ==> ids[i] in m
    ensures |rows| == |ids|
    ensures forall i :: 0 <= i < |ids| ==> rows[i] == m[ids[i]]
  {
    if ids == [] then [] else [m[ids[0]]] + Rows(m, ids[1..])
  }

  predicate SortedDesc<T>(s: seq<T>, key: T -> int) {
    forall i, j :: 0 <= i < j < |s| ==> key(s[i]) >= key(s[j])
  }

  /** Puts `x` before the first row whose key is not larger. */
  function Insert<T>(x: T, s: seq<T>, key: T -> int): (r: seq<T>)
    requires SortedDesc(s, key)
    ensures SortedDesc(r, key)
    ensures multiset(r) == multiset(s) + multiset{x}
  {
    if s == [] || key(x) >= key(s[0]) then [x] + s
    else
      assert s == [s[0]] + s[1..];
      var tail := Insert(x, s[1..], key);
      TailBelowHead(x, s, tail, key);
      [s[0]] + tail
  }

  /** What `Insert` puts after a larger head stays below that head. */
  lemma {:induction false} TailBelowHead<T>(x: T, s: seq<T>, tail: seq<T>, key: T -> int)
    requires |s| >= 1 && SortedDesc(s, key) && key(x) < key(s[0])
    requires multiset(tail) == multiset(s[1..]) + multiset{x}
    ensures forall j :: 0 <= j < |tail| ==> key(s[0]) >= key(tail[j])
  {
    forall j | 0 <= j < |tail| ensures key(s[0]) >= key(tail[j]) {
      assert tail[j] in multiset(tail);
      if tail[j] != x {
        assert tail[j] in multiset(s[1..]);
        var k :| 0 <= k < |s[1..]| && s[1..][k] == tail[j];
        assert s[k + 1] == tail[j];
      }
    }
  }

  /** Every row with an id in `[1, n)` occurs in a permutation of the rows. */
  lemma {:induction false} EveryRowListed<T>(m: map<int, T>, n: int, r: seq<T>)
    requires multiset(r) == multiset(Rows(m, Ids(m, n)))
    ensures forall k :: k in m && 1 <= k < n ==> m[k] in r
  {
    var ids := Ids(m, n);
    var rows := Rows(m, ids);
    forall k | k in m && 1 <= k < n ensures m[k] in r {
      var i :| 0 <= i < |ids| && ids[i] == k;
      assert rows[i] == m[k];
      assert m[k] in multiset(rows);
    }
  }

  /** A permutation of the rows holds nothing but rows with ids in `[1, n)`. */
  lemma {:induction false} OnlyRowsListed<T>(m: map<int, T>, n: int, r: seq<T>)
    requires multiset(r) == multiset(Rows(m, Ids(m, n)))
    ensures forall x :: x in r ==> exists k :: k in m && 1 <= k < n && m[k] == x
  {
    var ids := Ids(m, n);
    var rows := Rows(m, ids);
    forall x | x in r ensures exists k :: k in m && 1 <= k < n && m[k] == x {
      assert x in multiset(rows);
      assert x in rows;
      var i :| 0 <= i < |rows| && rows[i] == x;
      var k := ids[i];
      assert k in m && 1 <= k < n && m[k] == x;
    }
  }

  /** Insertion sort on `key`, largest first. */
  function SortDesc<T>(s: seq<T>, key: T -> int): (r: seq<T>)
    ensures SortedDesc(r, key)
    ensures multiset(r) == multiset(s)
  {
    if s == [] then []
    else
      assert s == [s[0]] + s[1..];
      Insert(s[0], SortDesc(s[1..], key), key)
  }

  /** `ORDER BY key DESC` over the rows of `m` with ids in `[1, n)`. */
  function OrderedDesc<T>(m: map<int, T>, n: int, key: T -> int): (r: seq<T>)
    ensures SortedDesc(r, key)
    ensures |r| == |Ids(m, n)|
    ensures multiset(r) == multiset(Rows(m, Ids(m, n)))
    ensures forall k :: k in m && 1 <= k < n ==> m[k] in r
    ensures forall x :: x in r ==> exists k :: k in m && 1 <= k < n && m[k] == x
  {
    var ids := Ids(m, n);
    var rows := Rows(m, ids);
    var r := SortDesc(rows, key);
    assert |r| == |multiset(r)| == |multiset(rows)| == |rows|;
    EveryRowListed(m, n, r);
    OnlyRowsListed(m, n, r);
    r
  }

  /** When every key of `m` lies in `[1, n)`, the ids are all of `m`'s keys. */
  lemma {:induction false} IdsCoverAll<T>(m: map<int, T>, n: int)
    requires forall k :: k in m ==> 1 <= k < n
    ensures |Ids(m, n)| == |m|
  {
    var ids := Ids(m, n);
    var s := set i | 0 <= i < |ids| :: ids[i];
    assert s == m.Keys;
    DistinctCard(ids);
  }

  /** A strictly increasing sequence has as many distinct elements as entries. */
  lemma {:induction false} DistinctCard(ids: seq<int>)
    requires forall i, j :: 0 <= i < j < |ids| ==> ids[i] < ids[j]
    ensures |set i | 0 <= i < |ids| :: ids[i]| == |ids|
  {
    if ids != [] {
      var last := ids[|ids| - 1];
      var init := ids[..|ids| - 1];
      DistinctCard(init);
      var s := set i | 0 <= i < |ids| :: ids[i];
      var t := set i | 0 <= i < |init| :: init[i];
      assert s == t + {last};
      assert last !in t;
    }
  }

  /** The first of `ids` whose row satisfies `p`: what `... WHERE p LIMIT 1`
      returns when the database scans rows in id order. */
  function FirstWhere<T>(m: map<int, T>, ids: seq<int>, p: T -> bool): (r: Option<int>)
    requires forall i :: 0 <= i < |ids| ==> ids[i] in m
    ensures r.Some? ==> r.value in ids && r.value in m && p(m[r.value])
    ensures r.None? ==> forall i :: 0 <= i < |ids| ==> !p(m[ids[i]])
  {
    if ids == [] then None
    else if p(m[ids[0]]) then Some(ids[0])
    else FirstWhere(m, ids[1..], p)
  }

  /** When the scan over every id finds nothing, no row of the table
      satisfies `p`. */
  lemma {:induction false} FirstWhereNone<T>(m: map<int, T>, n: int, p: T -> bool)
    requires forall k :: k in m ==> 1 <= k < n
    requires FirstWhere(m, Ids(m, n), p).None?
    ensures forall k :: k in m ==> !p(m[k])
  {
    var ids := Ids(m, n);
    forall k | k in m ensures !p(m[k]) {
      assert k in ids;
      var i :| 0 <= i < |ids| && ids[i] == k;
    }
  }
}
