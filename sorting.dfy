/** Python's `dict(sorted(d.items()))` on string-keyed dictionaries: the cache always
    writes its entry map and its variable map in ascending key order. */
module Sorting {
  import opened Strings

  /** Strictly ascending in Python's string order (hence also free of duplicates). */
  ghost predicate StrictlySorted(s: seq<string>) {
    forall i, j :: 0 <= i < j < |s| ==> Less(s[i], s[j])
  }

  /** In a strictly sorted sequence the head occurs nowhere in the tail. */
  lemma TailOfSorted(s: seq<string>, x: string)
    requires StrictlySorted(s) && |s| > 0
    ensures x in s[1..] <==> x in s && x != s[0]
  {
    if x in s[1..] && x == s[0] {
      var j :| 1 <= j < |s| && s[j] == x;
      LessIrreflexive(x);
    }
    if x in s && x != s[0] {
      var j :| 0 <= j < |s| && s[j] == x;
      assert s[1..][j - 1] == x;
    }
  }

  /** Insert `k` into a strictly sorted sequence at its place (no-op if present). */
  function Insert(s: seq<string>, k: string): (r: seq<string>)
    requires StrictlySorted(s)
    ensures StrictlySorted(r)
    ensures forall x :: x in r <==> x in s || x == k
  {
    if s == [] then [k]
    else if k == s[0] then s
    else if Less(k, s[0]) then
      var r := [k] + s;
      assert StrictlySorted(r) by {
        forall i, j | 0 <= i < j < |r| ensures Less(r[i], r[j]) {
          if i == 0 && j > 1 { LessTransitive(k, s[0], s[j - 1]); }
        }
      }
      r
    else
      LessTotal(k, s[0]);
      var rest := Insert(s[1..], k);
      var r := [s[0]] + rest;
      assert StrictlySorted(r) by {
        forall i, j | 0 <= i < j < |r| ensures Less(r[i], r[j]) {
          if i == 0 {
            assert r[j] in rest;
            if r[j] != k {
              var t :| 0 <= t < |s[1..]| && s[1..][t] == r[j];
              assert s[t + 1] == r[j];
            }
          }
        }
      }
      r
  }

  /** The keys of a set in ascending order: `sorted(keys)`. */
  ghost function SortedKeys(keys: set<string>): (r: seq<string>)
    ensures StrictlySorted(r)
    ensures forall x :: x in r <==> x in keys
    decreases keys
  {
    if keys == {} then []
    else
      var k :| k in keys;
      Insert(SortedKeys(keys - {k}), k)
  }

  lemma NothingInEmptyOnly(s: seq<string>)
    ensures (forall x :: x !in s) ==> s == []
  {
    if s != [] {
      assert s[0] in s;
    }
  }

  /** A set has exactly one strictly sorted enumeration. */
  lemma {:induction false} SortedUnique(a: seq<string>, b: seq<string>)
    requires StrictlySorted(a) && StrictlySorted(b)
    requires forall x :: x in a <==> x in b
    ensures a == b
    decreases |a|
  {
    if a == [] {
      NothingInEmptyOnly(b);
    } else {
      assert a[0] in b;
      if a[0] != b[0] {
        assert b[0] in a;
        var i :| 0 <= i < |a| && a[i] == b[0];
        var j :| 0 <= j < |b| && b[j] == a[0];
        LessAsymmetric(a[0], a[i]);
        assert false;
      }
      forall x ensures x in a[1..] <==> x in b[1..] {
        TailOfSorted(a, x);
        TailOfSorted(b, x);
      }
      SortedUnique(a[1..], b[1..]);
    }
  }

  /** `sorted(keys)`, computed by insertion. */
  method SortKeys(keys: set<string>) returns (ks: seq<string>)
    ensures ks == SortedKeys(keys)
  {
    ks := [];
    var rest := keys;
    while rest != {}
      invariant rest <= keys
      invariant StrictlySorted(ks)
      invariant forall x :: x in ks <==> x in keys - rest
      decreases rest
    {
      var k :| k in rest;
      ks := Insert(ks, k);
      rest := rest - {k};
    }
    SortedUnique(ks, SortedKeys(keys));
  }

  /** The items of `m` listed in the order of `ks`. */
  function ItemsInOrder<V>(m: map<string, V>, ks: seq<string>): (items: seq<(string, V)>)
    requires forall k :: k in ks ==> k in m
    ensures |items| == |ks|
    ensures forall i :: 0 <= i < |ks| ==> items[i] == (ks[i], m[ks[i]])
  {
    seq(|ks|, i requires 0 <= i < |ks| => (ks[i], m[ks[i]]))
  }

  /** `sorted(m.items())` */
  ghost function SortedItems<V>(m: map<string, V>): (items: seq<(string, V)>)
    ensures forall i, j :: 0 <= i < j < |items| ==> Less(items[i].0, items[j].0)
    ensures forall i :: 0 <= i < |items| ==> items[i].0 in m && items[i].1 == m[items[i].0]
    ensures forall k :: k in m ==> exists i :: 0 <= i < |items| && items[i].0 == k
  {
    var ks := SortedKeys(m.Keys);
    var items := ItemsInOrder(m, ks);
    assert forall i :: 0 <= i < |items| ==> items[i].0 == ks[i];
    assert forall k :: k in m ==> exists i :: 0 <= i < |items| && items[i].0 == k by {
      forall k | k in m ensures exists i :: 0 <= i < |items| && items[i].0 == k {
        var i :| 0 <= i < |ks| && ks[i] == k;
        assert items[i].0 == k;
      }
    }
    items
  }

  method SortItems<V>(m: map<string, V>) returns (items: seq<(string, V)>)
    ensures items == SortedItems(m)
  {
    var ks := SortKeys(m.Keys);
    items := ItemsInOrder(m, ks);
  }

  /** `dict(items)`: a later pair for the same key overrides an earlier one. */
  function ToMap<V>(items: seq<(string, V)>): map<string, V>
  {
    if items == [] then map[]
    else ToMap(items[..|items| - 1])[items[|items| - 1].0 := items[|items| - 1].1]
  }

  lemma {:induction false} ToMapOfItemsInOrder<V>(m: map<string, V>, ks: seq<string>)
    requires forall k :: k in ks ==> k in m
    ensures ToMap(ItemsInOrder(m, ks)) == map k | k in ks :: m[k]
    decreases |ks|
  {
    if ks != [] {
      var n := |ks| - 1;
      assert ItemsInOrder(m, ks)[..n] == ItemsInOrder(m, ks[..n]);
      ToMapOfItemsInOrder(m, ks[..n]);
      assert forall k :: k in ks <==> k in ks[..n] || k == ks[n] by {
        assert ks == ks[..n] + [ks[n]];
      }
    }
  }

  /** Sorting the items of a dictionary and rebuilding it loses nothing. */
  lemma ToMapOfSortedItems<V>(m: map<string, V>)
    ensures ToMap(SortedItems(m)) == m
  {
    ToMapOfItemsInOrder(m, SortedKeys(m.Keys));
  }
}
