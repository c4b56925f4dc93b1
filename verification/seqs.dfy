/**
 * Two list algorithms the pipeline uses in several places.
 *
 * - Python's `list.sort(key=..., reverse=True)`: a stable sort into
 *   non-increasing key order, specified here as an insertion sort.
 * - The `seen`-set loop that keeps the first item for each key and drops the
 *   later ones, preserving order.
 */
module Seqs {

  /** A sort key compared lexicographically, as a Python tuple `(major, minor)` is. */
  datatype Key = Key(major: real, minor: int)

  /** `a > b` on keys. */
  predicate Above(a: Key, b: Key) {
    a.major > b.major || (a.major == b.major && a.minor > b.minor)
  }

  /** Non-increasing by key: no later element is above an earlier one. */
  ghost predicate SortedDesc<T>(s: seq<T>, key: T -> Key) {
    forall i, j :: 0 <= i < j < |s| ==> !Above(key(s[j]), key(s[i]))
  }

  /** Places `x` in front of the first element whose key is not above that of `x`. */
  function Insert<T>(x: T, s: seq<T>, key: T -> Key): (r: seq<T>)
    ensures |r| == |s| + 1
    ensures multiset(r) == multiset(s) + multiset{x}
  {
    if s == [] then [x]
    else if Above(key(s[0]), key(x)) then
      assert s == [s[0]] + s[1..];
      [s[0]] + Insert(x, s[1..], key)
    else
      [x] + s
  }

  lemma {:induction false} InsertSorted<T>(x: T, s: seq<T>, key: T -> Key)
    requires SortedDesc(s, key)
    ensures SortedDesc(Insert(x, s, key), key)
  {
    if s != [] {
      var r := Insert(x, s, key);
      if Above(key(s[0]), key(x)) {
        var rest := Insert(x, s[1..], key);
        InsertSorted(x, s[1..], key);
        forall j | 0 <= j < |rest|
          ensures !Above(key(rest[j]), key(s[0]))
        {
          assert rest[j] in multiset(rest);
          if rest[j] != x {
            assert rest[j] in multiset(s[1..]);
            var i :| 0 <= i < |s[1..]| && s[1..][i] == rest[j];
            assert s[i + 1] == rest[j];
          }
        }
        assert r == [s[0]] + rest;
      } else {
        assert r == [x] + s;
      }
    }
  }

  /** `sorted(s, key=key, reverse=True)` */
  function SortDesc<T>(s: seq<T>, key: T -> Key): (r: seq<T>)
    ensures |r| == |s|
    ensures multiset(r) == multiset(s)
    ensures SortedDesc(r, key)
  {
    if s == [] then []
    else
      assert s == [s[0]] + s[1..];
      InsertSorted(s[0], SortDesc(s[1..], key), key);
      Insert(s[0], SortDesc(s[1..], key), key)
  }

  /** The elements of `s` whose key is `k`, in their order in `s`. */
  function WithKey<T>(s: seq<T>, key: T -> Key, k: Key): seq<T> {
    if s == [] then [] else (if key(s[0]) == k then [s[0]] else []) + WithKey(s[1..], key, k)
  }

  lemma WithKeyCons<T>(h: T, t: seq<T>, key: T -> Key, k: Key)
    ensures WithKey([h] + t, key, k) == (if key(h) == k then [h] else []) + WithKey(t, key, k)
  {
    assert ([h] + t)[1..] == t;
  }

  lemma {:induction false} InsertWithKey<T>(x: T, s: seq<T>, key: T -> Key, k: Key)
    ensures WithKey(Insert(x, s, key), key, k) == (if key(x) == k then [x] else []) + WithKey(s, key, k)
  {
    if s == [] {
      WithKeyCons(x, s, key, k);
    } else if Above(key(s[0]), key(x)) {
      InsertWithKey(x, s[1..], key, k);
      assert Insert(x, s, key) == [s[0]] + Insert(x, s[1..], key);
      assert s == [s[0]] + s[1..];
      WithKeyPassed(s[0], Insert(x, s[1..], key), s[1..], x, key, k);
    } else {
      assert Insert(x, s, key) == [x] + s;
      WithKeyCons(x, s, key, k);
    }
  }

  /** Putting `h`, whose key is above that of `x`, in front of both sides keeps them equal after filtering. */
  lemma WithKeyPassed<T>(h: T, r: seq<T>, t: seq<T>, x: T, key: T -> Key, k: Key)
    requires Above(key(h), key(x))
    requires WithKey(r, key, k) == (if key(x) == k then [x] else []) + WithKey(t, key, k)
    ensures WithKey([h] + r, key, k) == (if key(x) == k then [x] else []) + WithKey([h] + t, key, k)
  {
    WithKeyCons(h, r, key, k);
    WithKeyCons(h, t, key, k);
    var w := WithKey(t, key, k);
    if key(h) == k {
      assert key(x) != k;
    } else {
      assert [] + w == w;
    }
  }

  /**
   * Stability: for every key, the elements carrying it come out of the sort
   * in the order they went in.
   */
  lemma {:induction false} SortStable<T>(s: seq<T>, key: T -> Key, k: Key)
    ensures WithKey(SortDesc(s, key), key, k) == WithKey(s, key, k)
  {
    if s != [] {
      SortStable(s[1..], key, k);
      InsertWithKey(s[0], SortDesc(s[1..], key), key, k);
    }
  }

  /** Ordered by key, descending, and by `rank`, ascending, among equal keys. */
  ghost predicate RankedDesc<T>(s: seq<T>, key: T -> Key, rank: T -> int) {
    forall i, j :: 0 <= i < j < |s| ==>
      Above(key(s[i]), key(s[j])) || (key(s[i]) == key(s[j]) && rank(s[i]) < rank(s[j]))
  }

  lemma {:induction false} InsertRanked<T>(x: T, s: seq<T>, key: T -> Key, rank: T -> int)
    requires RankedDesc(s, key, rank)
    requires forall y :: y in s ==> rank(x) < rank(y)
    ensures RankedDesc(Insert(x, s, key), key, rank)
  {
    if s != [] && Above(key(s[0]), key(x)) {
      var rest := Insert(x, s[1..], key);
      assert RankedDesc(rest, key, rank) by {
        assert forall y :: y in s[1..] ==> y in s;
        InsertRanked(x, s[1..], key, rank);
      }
      forall j | 0 <= j < |rest|
        ensures RankedBefore(s[0], rest[j], key, rank)
      {
        assert rest[j] in multiset(rest);
        if rest[j] != x {
          assert rest[j] in multiset(s[1..]);
          var i :| 0 <= i < |s[1..]| && s[1..][i] == rest[j];
          assert s[i + 1] == rest[j];
        }
      }
      assert Insert(x, s, key) == [s[0]] + rest;
      RankedCons(s[0], rest, key, rank);
    } else if s != [] {
      forall j | 0 <= j < |s|
        ensures RankedBefore(x, s[j], key, rank)
      {
        assert s[j] in s;
        if j > 0 {
          assert RankedBefore(s[0], s[j], key, rank);
        }
      }
      assert Insert(x, s, key) == [x] + s;
      RankedCons(x, s, key, rank);
    }
  }

  /** `a` may come before `b`: its key is above, or the keys tie and its rank is lower. */
  predicate RankedBefore<T>(a: T, b: T, key: T -> Key, rank: T -> int) {
    Above(key(a), key(b)) || (key(a) == key(b) && rank(a) < rank(b))
  }

  lemma RankedCons<T>(h: T, t: seq<T>, key: T -> Key, rank: T -> int)
    requires RankedDesc(t, key, rank)
    requires forall j :: 0 <= j < |t| ==> RankedBefore(h, t[j], key, rank)
    ensures RankedDesc([h] + t, key, rank)
  {
    var r := [h] + t;
    forall i, j | 0 <= i < j < |r|
      ensures Above(key(r[i]), key(r[j])) || (key(r[i]) == key(r[j]) && rank(r[i]) < rank(r[j]))
    {
      if i == 0 {
        assert r[j] == t[j - 1];
        assert RankedBefore(h, t[j - 1], key, rank);
      } else {
        assert r[i] == t[i - 1] && r[j] == t[j - 1];
      }
    }
  }

  /**
   * When the input is listed in increasing `rank` order, the stable sort
   * breaks every tie by that order.
   */
  lemma {:induction false} SortRanked<T>(s: seq<T>, key: T -> Key, rank: T -> int)
    requires forall i, j :: 0 <= i < j < |s| ==> rank(s[i]) < rank(s[j])
    ensures RankedDesc(SortDesc(s, key), key, rank)
  {
    if s != [] {
      SortRanked(s[1..], key, rank);
      var t := SortDesc(s[1..], key);
      forall y | y in t
        ensures rank(s[0]) < rank(y)
      {
        assert y in multiset(s[1..]);
        var j :| 0 <= j < |s[1..]| && s[1..][j] == y;
        assert s[j + 1] == y;
      }
      InsertRanked(s[0], t, key, rank);
    }
  }

  lemma AppendAssoc<T>(a: seq<T>, b: seq<T>, c: seq<T>)
    ensures (a + b) + c == a + (b + c)
  {
  }

  lemma TakeAll<T>(s: seq<T>)
    ensures s[..|s|] == s
  {
  }

  lemma TakeStep<T>(s: seq<T>, i: nat)
    requires i < |s|
    ensures s[..i + 1] == s[..i] + [s[i]]
  {
  }

  /** The keys of the elements of `s`. */
  function KeysOf<T, K>(s: seq<T>, key: T -> K): set<K> {
    set i | 0 <= i < |s| :: key(s[i])
  }

  /** The index of the first element of `s` whose key is `k`. */
  function FirstIndex<T, K(==)>(s: seq<T>, key: T -> K, k: K): (i: nat)
    requires k in KeysOf(s, key)
    ensures i < |s| && key(s[i]) == k
    ensures forall j :: 0 <= j < i ==> key(s[j]) != k
  {
    if key(s[0]) == k then 0
    else
      assert k in KeysOf(s[1..], key) by {
        var i :| 0 <= i < |s| && key(s[i]) == k;
        assert s[1..][i - 1] == s[i];
      }
      1 + FirstIndex(s[1..], key, k)
  }

  lemma FirstIndexPrefix<T, K>(s: seq<T>, n: nat, key: T -> K, k: K)
    requires n <= |s|
    requires k in KeysOf(s[..n], key)
    ensures k in KeysOf(s, key)
    ensures FirstIndex(s, key, k) == FirstIndex(s[..n], key, k)
  {
    var x :| 0 <= x < n && key(s[..n][x]) == k;
    assert s[..n][x] == s[x];
    assert forall j :: 0 <= j < n ==> s[..n][j] == s[j];
  }

  lemma KeysOfAppend<T, K>(a: seq<T>, y: T, key: T -> K)
    ensures KeysOf(a + [y], key) == KeysOf(a, key) + {key(y)}
  {
    var b := a + [y];
    assert forall i :: 0 <= i < |a| ==> b[i] == a[i];
    assert b[|a|] == y;
  }

  /** Keeps the first element for each key, in order, as a loop over a `seen` set does. */
  function DedupBy<T, K(==)>(s: seq<T>, key: T -> K): (r: seq<T>)
    ensures KeysOf(r, key) == KeysOf(s, key)
  {
    if s == [] then []
    else
      var d := DedupBy(s[..|s| - 1], key);
      assert s == s[..|s| - 1] + [s[|s| - 1]];
      KeysOfAppend(s[..|s| - 1], s[|s| - 1], key);
      KeysOfAppend(d, s[|s| - 1], key);
      if key(s[|s| - 1]) in KeysOf(d, key) then d else d + [s[|s| - 1]]
  }

  /** No key occurs twice in the result of DedupBy. */
  lemma {:induction false} DedupDistinct<T, K>(s: seq<T>, key: T -> K)
    ensures forall i, j :: 0 <= i < j < |DedupBy(s, key)| ==> key(DedupBy(s, key)[i]) != key(DedupBy(s, key)[j])
  {
    if s != [] {
      var d := DedupBy(s[..|s| - 1], key);
      DedupDistinct(s[..|s| - 1], key);
      forall i | 0 <= i < |d|
        ensures key(d[i]) in KeysOf(d, key)
      {
      }
    }
  }

  /**
   * Each kept element is the first element of `s` with its key, and kept
   * elements appear in the order of those first occurrences.
   */
  lemma {:induction false} DedupFirstInOrder<T, K>(s: seq<T>, key: T -> K)
    ensures forall m :: 0 <= m < |DedupBy(s, key)| ==>
      key(DedupBy(s, key)[m]) in KeysOf(s, key) &&
      DedupBy(s, key)[m] == s[FirstIndex(s, key, key(DedupBy(s, key)[m]))]
    ensures forall m1, m2 :: 0 <= m1 < m2 < |DedupBy(s, key)| ==>
      FirstIndex(s, key, key(DedupBy(s, key)[m1])) < FirstIndex(s, key, key(DedupBy(s, key)[m2]))
  {
    var r := DedupBy(s, key);
    if s != [] {
      var n := |s| - 1;
      var s' := s[..n];
      var d := DedupBy(s', key);
      DedupFirstInOrder(s', key);
      assert s' == s[..n];
      forall m | 0 <= m < |d|
        ensures key(d[m]) in KeysOf(s', key)
        ensures FirstIndex(s, key, key(d[m])) == FirstIndex(s', key, key(d[m]))
        ensures d[m] == s[FirstIndex(s, key, key(d[m]))]
      {
        assert key(d[m]) in KeysOf(d, key);
        FirstIndexPrefix(s, n, key, key(d[m]));
        assert s'[FirstIndex(s', key, key(d[m]))] == s[FirstIndex(s', key, key(d[m]))];
      }
      if key(s[n]) !in KeysOf(d, key) {
        assert r == d + [s[n]];
        assert key(s[n]) in KeysOf(s, key);
        forall j | 0 <= j < n
          ensures key(s[j]) != key(s[n])
        {
          assert s'[j] == s[j];
          assert key(s'[j]) in KeysOf(s', key);
        }
        assert r[|d|] == s[n];
      }
    }
  }

  /** Every kept element comes from `s`. */
  lemma {:induction false} DedupElements<T, K>(s: seq<T>, key: T -> K)
    ensures forall x :: x in DedupBy(s, key) ==> x in s
  {
    if s != [] {
      DedupElements(s[..|s| - 1], key);
    }
  }

  /**
   * Deduplicating `a + b` keeps what deduplicating `a` keeps, in front, and
   * adds only elements of `b` after it.
   */
  lemma {:induction false} DedupExtends<T, K>(a: seq<T>, b: seq<T>, key: T -> K)
    ensures |DedupBy(a, key)| <= |DedupBy(a + b, key)|
    ensures DedupBy(a + b, key)[..|DedupBy(a, key)|] == DedupBy(a, key)
    ensures forall i :: |DedupBy(a, key)| <= i < |DedupBy(a + b, key)| ==> DedupBy(a + b, key)[i] in b
    decreases |b|
  {
    if b == [] {
      assert a + b == a;
    } else {
      var b' := b[..|b| - 1];
      DedupExtends(a, b', key);
      var s := a + b;
      assert s[..|s| - 1] == a + b';
      assert s[|s| - 1] == b[|b| - 1];
      var d' := DedupBy(a + b', key);
      assert forall i :: |DedupBy(a, key)| <= i < |d'| ==> d'[i] in b' && d'[i] in b;
    }
  }
}
