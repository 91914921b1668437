/**
 * Ordered reads from a table: the ids of the rows that match a filter,
 * each once, ordered by a numeric sort key, highest first (`orderBy: {
 * field: "desc" }`). Rows with equal keys may come in any order.
 */
module Listing {

  predicate NoDup<T(==)>(s: seq<T>) {
    forall i, j | 0 <= i < j < |s| :: s[i] != s[j]
  }

  predicate AllIn<V>(m: map<string, V>, ks: seq<string>) {
    forall x | x in ks :: x in m
  }

  predicate SortedDesc<V>(m: map<string, V>, key: V -> int, ks: seq<string>) {
    AllIn(m, ks) && forall i, j | 0 <= i < j < |ks| :: key(m[ks[i]]) >= key(m[ks[j]])
  }

  /** `ks` lists exactly the matching rows of `m`, once each, sorted by `key` descending. */
  predicate IsListing<V>(m: map<string, V>, keep: V -> bool, key: V -> int, ks: seq<string>) {
    && NoDup(ks)
    && SortedDesc(m, key, ks)
    && (forall x | x in ks :: keep(m[x]))
    && (forall k | k in m && keep(m[k]) :: k in ks)
  }

  /** Every key in `ks` is at most `b`. */
  predicate Below<V>(m: map<string, V>, key: V -> int, ks: seq<string>, b: int)
    requires AllIn(m, ks)
  {
    forall x | x in ks :: key(m[x]) <= b
  }

  lemma {:induction false} ConsSorted<V>(m: map<string, V>, key: V -> int, h: string, ks: seq<string>)
    requires h in m && SortedDesc(m, key, ks) && Below(m, key, ks, key(m[h]))
    ensures SortedDesc(m, key, [h] + ks)
  {
    var r := [h] + ks;
    forall i, j | 0 <= i < j < |r| ensures key(m[r[i]]) >= key(m[r[j]]) {
      assert r[j] == ks[j - 1];
      if i > 0 { assert r[i] == ks[i - 1]; } else { assert r[j] in ks; }
    }
  }

  lemma {:induction false} HeadBounds<V>(m: map<string, V>, key: V -> int, ks: seq<string>)
    requires SortedDesc(m, key, ks) && ks != []
    ensures Below(m, key, ks, key(m[ks[0]])) && SortedDesc(m, key, ks[1..])
  {
    forall x | x in ks ensures key(m[x]) <= key(m[ks[0]]) {
      var j :| 0 <= j < |ks| && ks[j] == x;
    }
    forall i, j | 0 <= i < j < |ks[1..]| ensures key(m[ks[1..][i]]) >= key(m[ks[1..][j]]) {
      assert ks[1..][i] == ks[i + 1] && ks[1..][j] == ks[j + 1];
    }
  }

  lemma {:induction false} ConsNoDup(h: string, ks: seq<string>)
    ensures NoDup([h] + ks) <==> h !in ks && NoDup(ks)
  {
    var r := [h] + ks;
    if h !in ks && NoDup(ks) {
      forall i, j | 0 <= i < j < |r| ensures r[i] != r[j] {
        assert r[j] == ks[j - 1];
        if i > 0 { assert r[i] == ks[i - 1]; }
      }
    }
    if NoDup(r) {
      forall i, j | 0 <= i < j < |ks| ensures ks[i] != ks[j] {
        assert r[i + 1] == ks[i] && r[j + 1] == ks[j];
      }
      forall j | 0 <= j < |ks| ensures ks[j] != h {
        assert r[0] == h && r[j + 1] == ks[j];
        assert r[0] != r[j + 1];
      }
    }
  }

  /** Inserts `k` into a descending list, before the first entry whose key it reaches. */
  function Insert<V>(m: map<string, V>, key: V -> int, ks: seq<string>, k: string): (r: seq<string>)
    requires SortedDesc(m, key, ks) && k in m
    ensures |r| == |ks| + 1
    ensures forall x :: x in r <==> x in ks || x == k
    ensures SortedDesc(m, key, r)
    ensures NoDup(ks) && k !in ks ==> NoDup(r)
  {
    if ks == [] then [k]
    else
      HeadBounds(m, key, ks);
      if key(m[k]) >= key(m[ks[0]]) then
        ConsSorted(m, key, k, ks);
        [k] + ks
      else
        var rest := Insert(m, key, ks[1..], k);
        assert ks == [ks[0]] + ks[1..];
        ConsNoDup(ks[0], ks[1..]);
        ConsNoDup(ks[0], rest);
        ConsSorted(m, key, ks[0], rest);
        [ks[0]] + rest
  }

  /** Reads the matching rows of `m` in key-descending order, one row at a time. */
  method Select<V>(m: map<string, V>, keep: V -> bool, key: V -> int) returns (ks: seq<string>)
    ensures IsListing(m, keep, key, ks)
  {
    ks := [];
    var rest := m.Keys;
    while rest != {}
      invariant rest <= m.Keys
      invariant NoDup(ks) && SortedDesc(m, key, ks)
      invariant forall x | x in ks :: keep(m[x]) && x !in rest
      invariant forall k | k in m && keep(m[k]) && k !in rest :: k in ks
      decreases rest
    {
      var k :| k in rest;
      rest := rest - {k};
      if keep(m[k]) {
        ks := Insert(m, key, ks, k);
      }
    }
  }

  /** The rows a listing names, in its order. */
  function Rows<V>(m: map<string, V>, ks: seq<string>): (rows: seq<V>)
    requires AllIn(m, ks)
    ensures |rows| == |ks| && forall i | 0 <= i < |ks| :: rows[i] == m[ks[i]]
  {
    if ks == [] then [] else [m[ks[0]]] + Rows(m, ks[1..])
  }

  /** Every row is stored under its own id. */
  predicate Keyed<V>(m: map<string, V>, id: V -> string) {
    forall k | k in m :: id(m[k]) == k
  }

  /**
   * `findMany({ where, orderBy: { key: "desc" } })` on a table keyed by row
   * id: every matching row exactly once, no other row, highest key first.
   */
  method SelectRows<V(==)>(m: map<string, V>, id: V -> string, keep: V -> bool, key: V -> int) returns (rows: seq<V>)
    requires Keyed(m, id)
    ensures NoDup(rows)
    ensures forall v :: v in rows <==> v in m.Values && keep(v)
    ensures forall i, j | 0 <= i < j < |rows| :: key(rows[i]) >= key(rows[j])
  {
    var ks := Select(m, keep, key);
    rows := Rows(m, ks);
    forall i, j | 0 <= i < j < |rows| ensures rows[i] != rows[j] {
      assert id(rows[i]) == ks[i] && id(rows[j]) == ks[j];
    }
    forall v | v in m.Values && keep(v) ensures v in rows {
      var k :| k in m && m[k] == v;
      var i :| 0 <= i < |ks| && ks[i] == k;
      assert rows[i] == v;
    }
  }

  /** A listing of a table with every row matching names every row of the table, so its length is the table's size. */
  lemma {:induction false} ListingSize<V>(m: map<string, V>, keep: V -> bool, key: V -> int, ks: seq<string>)
    requires IsListing(m, keep, key, ks)
    ensures |ks| == |set k | k in m && keep(m[k])|
  {
    var s := set i | 0 <= i < |ks| :: ks[i];
    assert s == set k | k in m && keep(m[k]);
    DistinctCard(ks);
  }

  lemma {:induction false} DistinctCard(ks: seq<string>)
    requires NoDup(ks)
    ensures |set i | 0 <= i < |ks| :: ks[i]| == |ks|
  {
    if ks != [] {
      var tail := ks[1..];
      DistinctCard(tail);
      var s := set i | 0 <= i < |ks| :: ks[i];
      var t := set i | 0 <= i < |tail| :: tail[i];
      assert s == t + {ks[0]} by {
        forall x | x in s ensures x in t + {ks[0]} {
          var i :| 0 <= i < |ks| && ks[i] == x;
          if i > 0 { assert tail[i - 1] == x; }
        }
      }
      assert ks[0] !in t;
    }
  }

  /** A subset is no larger than its superset. */
  lemma {:induction false} SubsetCard<T>(a: set<T>, b: set<T>)
    requires a <= b
    ensures |a| <= |b|
  {
    assert b == a + (b - a);
  }

  /** Three pairwise disjoint sets: the size of their union is the sum of their sizes. */
  lemma {:induction false} DisjointThree<T>(a: set<T>, b: set<T>, c: set<T>)
    requires a * b == {} && a * c == {} && b * c == {}
    ensures |a + b + c| == |a| + |b| + |c|
  {
    assert (a + b) * c == {};
    assert |a + b| == |a| + |b|;
  }
}
