/**
 * Ordering by a numeric key, largest first, as `sort({ createdAt: -1 })` and
 * `list.sort((a, b) => b.createdAt - a.createdAt)` order their results. The sort is stable:
 * items with equal keys keep their relative order.
 */
module Sorting {

  ghost predicate SortedDesc<T>(xs: seq<T>, key: T -> int) {
    forall i, j :: 0 <= i < j < |xs| ==> key(xs[i]) >= key(xs[j])
  }

  /** Places `x` in front of the first item whose key is smaller. */
  function InsertDesc<T>(x: T, ys: seq<T>, key: T -> int): (r: seq<T>)
    ensures |r| == |ys| + 1
    ensures multiset(r) == multiset(ys) + multiset{x}
    ensures SortedDesc(ys, key) ==> SortedDesc(r, key)
  {
    if ys == [] then [x]
    else if key(x) >= key(ys[0]) then
      PrependKeepsSorted(x, ys, key);
      [x] + ys
    else
      var rest := InsertDesc(x, ys[1..], key);
      assert ys == [ys[0]] + ys[1..];
      HeadKeepsSorted(x, ys, rest, key);
      [ys[0]] + rest
  }

  /** An item whose key is no smaller than the first key can go in front. */
  lemma PrependKeepsSorted<T>(x: T, ys: seq<T>, key: T -> int)
    requires ys != [] && key(x) >= key(ys[0])
    ensures SortedDesc(ys, key) ==> SortedDesc([x] + ys, key)
  {
    if SortedDesc(ys, key) {
      forall i, j | 0 <= i < j < |[x] + ys|
        ensures key(([x] + ys)[i]) >= key(([x] + ys)[j])
      {
        if i > 0 {
          assert ([x] + ys)[i] == ys[i - 1];
        }
        assert ([x] + ys)[j] == ys[j - 1];
      }
    }
  }

  /**
   * When `x` goes further back, the first item stays in front of the rest with `x` inserted:
   * its key is no smaller than `x`'s nor than any other item's.
   */
  lemma HeadKeepsSorted<T>(x: T, ys: seq<T>, rest: seq<T>, key: T -> int)
    requires ys != [] && key(x) < key(ys[0])
    requires multiset(rest) == multiset(ys[1..]) + multiset{x}
    requires SortedDesc(ys[1..], key) ==> SortedDesc(rest, key)
    ensures SortedDesc(ys, key) ==> SortedDesc([ys[0]] + rest, key)
  {
    if SortedDesc(ys, key) {
      assert SortedDesc(ys[1..], key);
      forall j | 0 <= j < |rest|
        ensures key(ys[0]) >= key(rest[j])
      {
        assert rest[j] in multiset(rest);
        assert rest[j] == x || rest[j] in multiset(ys[1..]);
        if rest[j] != x {
          var k :| 0 <= k < |ys[1..]| && ys[1..][k] == rest[j];
          assert ys[k + 1] == rest[j];
        }
      }
      forall i, j | 0 <= i < j < |[ys[0]] + rest|
        ensures key(([ys[0]] + rest)[i]) >= key(([ys[0]] + rest)[j])
      {
        assert ([ys[0]] + rest)[j] == rest[j - 1];
        if i > 0 {
          assert ([ys[0]] + rest)[i] == rest[i - 1];
        }
      }
    }
  }

  /** A stable insertion sort, largest key first. */
  function SortDesc<T>(xs: seq<T>, key: T -> int): (r: seq<T>)
    ensures |r| == |xs|
    ensures multiset(r) == multiset(xs)
    ensures SortedDesc(r, key)
  {
    if xs == [] then []
    else
      assert xs == [xs[0]] + xs[1..];
      InsertDesc(xs[0], SortDesc(xs[1..], key), key)
  }

  /** Sorting keeps exactly the items it was given. */
  lemma SortDescSameItems<T>(xs: seq<T>, key: T -> int, x: T)
    ensures x in SortDesc(xs, key) <==> x in xs
  {
    var r := SortDesc(xs, key);
    assert x in r <==> x in multiset(r);
    assert x in xs <==> x in multiset(xs);
  }

  /** The items of `xs` whose key is `k`, in their order in `xs`. */
  function WithKey<T>(xs: seq<T>, key: T -> int, k: int): seq<T>
    decreases |xs|
  {
    if xs == [] then []
    else (if key(xs[0]) == k then [xs[0]] else []) + WithKey(xs[1..], key, k)
  }

  /** An inserted item goes in front of every item with the same key. */
  lemma {:induction false} InsertDescWithKey<T>(x: T, ys: seq<T>, key: T -> int, k: int)
    ensures WithKey(InsertDesc(x, ys, key), key, k) ==
      (if key(x) == k then [x] + WithKey(ys, key, k) else WithKey(ys, key, k))
    decreases |ys|
  {
    if ys != [] && key(x) < key(ys[0]) {
      var rest := InsertDesc(x, ys[1..], key);
      assert InsertDesc(x, ys, key) == [ys[0]] + rest;
      assert ([ys[0]] + rest)[1..] == rest;
      InsertDescWithKey(x, ys[1..], key, k);
    } else if ys != [] {
      assert ([x] + ys)[1..] == ys;
    }
  }

  /** The sort is stable: items with equal keys come out in the order they went in. */
  lemma {:induction false} SortDescStable<T>(xs: seq<T>, key: T -> int, k: int)
    ensures WithKey(SortDesc(xs, key), key, k) == WithKey(xs, key, k)
    decreases |xs|
  {
    if xs != [] {
      SortDescStable(xs[1..], key, k);
      InsertDescWithKey(xs[0], SortDesc(xs[1..], key), key, k);
    }
  }
}
