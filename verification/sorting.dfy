/**
 * `Array.prototype.sort` with the comparator `(a, b) => key(a) - key(b)`.
 * ECMAScript requires the sort to be stable, so the result is the stable
 * ascending order by key; it is written here as an insertion sort.
 */
module Sorting {

  /** Inserts x before the first element whose key is not smaller than its own. */
  function Insert<T>(x: T, s: seq<T>, key: T -> int): seq<T>
  {
    if s == [] || key(x) <= key(s[0]) then [x] + s else [s[0]] + Insert(x, s[1..], key)
  }

  /** The stable ascending order of s by key. */
  function SortBy<T>(s: seq<T>, key: T -> int): seq<T>
  {
    if s == [] then [] else Insert(s[0], SortBy(s[1..], key), key)
  }

  predicate SortedBy<T>(s: seq<T>, key: T -> int)
  {
    forall i, j :: 0 <= i < j < |s| ==> key(s[i]) <= key(s[j])
  }

  /** Sum of the keys of the elements. */
  function KeySum<T>(s: seq<T>, key: T -> int): int
  {
    if s == [] then 0 else key(s[0]) + KeySum(s[1..], key)
  }

  lemma {:induction false} KeySumAppend<T>(a: seq<T>, b: seq<T>, key: T -> int)
    ensures KeySum(a + b, key) == KeySum(a, key) + KeySum(b, key)
  {
    if a == [] {
      assert a + b == b;
    } else {
      KeySumAppend(a[1..], b, key);
      assert (a + b)[1..] == a[1..] + b;
    }
  }

  /** Every element of s has a key of at least b. */
  predicate KeysAtLeast<T>(s: seq<T>, b: int, key: T -> int)
  {
    forall i :: 0 <= i < |s| ==> b <= key(s[i])
  }

  lemma {:induction false} SortedCons<T>(a: T, t: seq<T>, key: T -> int)
    requires SortedBy(t, key) && KeysAtLeast(t, key(a), key)
    ensures SortedBy([a] + t, key)
  {
    var r := [a] + t;
    forall i, j | 0 <= i < j < |r| ensures key(r[i]) <= key(r[j]) {
      assert r[j] == t[j - 1];
      if i > 0 { assert r[i] == t[i - 1]; }
    }
  }

  lemma {:induction false} InsertKeysAtLeast<T>(x: T, s: seq<T>, b: int, key: T -> int)
    requires KeysAtLeast(s, b, key) && b <= key(x)
    ensures KeysAtLeast(Insert(x, s, key), b, key)
  {
    if s != [] && key(x) > key(s[0]) {
      InsertKeysAtLeast(x, s[1..], b, key);
      var r := Insert(x, s, key);
      assert r == [s[0]] + Insert(x, s[1..], key);
      forall i | 0 <= i < |r| ensures b <= key(r[i]) {
        if i > 0 { assert r[i] == Insert(x, s[1..], key)[i - 1]; }
      }
    } else {
      var r := [x] + s;
      forall i | 0 <= i < |r| ensures b <= key(r[i]) {
        if i > 0 { assert r[i] == s[i - 1]; }
      }
    }
  }

  lemma {:induction false} InsertSorted<T>(x: T, s: seq<T>, key: T -> int)
    requires SortedBy(s, key)
    ensures SortedBy(Insert(x, s, key), key)
  {
    if s == [] || key(x) <= key(s[0]) {
      SortedCons(x, s, key);
    } else {
      InsertSorted(x, s[1..], key);
      InsertKeysAtLeast(x, s[1..], key(s[0]), key);
      SortedCons(s[0], Insert(x, s[1..], key), key);
    }
  }

  lemma {:induction false} InsertMultiset<T>(x: T, s: seq<T>, key: T -> int)
    ensures multiset(Insert(x, s, key)) == multiset(s) + multiset{x}
    ensures KeySum(Insert(x, s, key), key) == key(x) + KeySum(s, key)
  {
    if s != [] && key(x) > key(s[0]) {
      InsertMultiset(x, s[1..], key);
      assert s == [s[0]] + s[1..];
    }
  }

  /** Sorting gives an ascending arrangement of the same elements with the same key sum. */
  lemma {:induction false} SortByFacts<T>(s: seq<T>, key: T -> int)
    ensures |SortBy(s, key)| == |s|
    ensures SortedBy(SortBy(s, key), key)
    ensures multiset(SortBy(s, key)) == multiset(s)
    ensures KeySum(SortBy(s, key), key) == KeySum(s, key)
  {
    if s != [] {
      var t := SortBy(s[1..], key);
      SortByFacts(s[1..], key);
      InsertSorted(s[0], t, key);
      InsertMultiset(s[0], t, key);
      assert s == [s[0]] + s[1..];
      assert multiset(s) == multiset(s[1..]) + multiset{s[0]};
      assert multiset(SortBy(s, key)) == multiset(s);
      assert |SortBy(s, key)| == |multiset(SortBy(s, key))| == |multiset(s)| == |s|;
    }
  }

  /** The elements of s whose key is k, in their order in s. */
  function WithKey<T>(s: seq<T>, key: T -> int, k: int): seq<T>
  {
    if s == [] then []
    else if key(s[0]) == k then [s[0]] + WithKey(s[1..], key, k)
    else WithKey(s[1..], key, k)
  }

  /**
   * Inserting x puts it ahead of every element with the same key: the
   * elements it passes all have smaller keys.
   */
  lemma {:induction false} InsertWithKey<T>(x: T, t: seq<T>, key: T -> int, k: int)
    ensures WithKey(Insert(x, t, key), key, k) == if key(x) == k then [x] + WithKey(t, key, k) else WithKey(t, key, k)
  {
    var r := Insert(x, t, key);
    if t == [] || key(x) <= key(t[0]) {
      assert r[0] == x && r[1..] == t;
    } else {
      var rest := Insert(x, t[1..], key);
      InsertWithKey(x, t[1..], key, k);
      assert r[0] == t[0] && r[1..] == rest;
      if key(t[0]) == k {
        assert key(x) != k;
        assert WithKey(r, key, k) == [t[0]] + WithKey(rest, key, k);
        assert WithKey(t, key, k) == [t[0]] + WithKey(t[1..], key, k);
      } else {
        assert WithKey(r, key, k) == WithKey(rest, key, k);
        assert WithKey(t, key, k) == WithKey(t[1..], key, k);
      }
    }
  }

  /**
   * The sort is stable: for every key, the elements with that key come out
   * in the order they went in, so two elements with equal keys keep their
   * relative order.
   */
  lemma {:induction false} SortByStable<T>(s: seq<T>, key: T -> int, k: int)
    ensures WithKey(SortBy(s, key), key, k) == WithKey(s, key, k)
  {
    if s != [] {
      SortByStable(s[1..], key, k);
      InsertWithKey(s[0], SortBy(s[1..], key), key, k);
    }
  }

  function Map<T, U>(f: T -> U, s: seq<T>): (r: seq<U>)
    ensures |r| == |s| && forall i :: 0 <= i < |s| ==> r[i] == f(s[i])
  {
    seq(|s|, i requires 0 <= i < |s| => f(s[i]))
  }

  /** Mapping distributes over concatenation. */
  lemma {:induction false} MapAppend<T, U>(f: T -> U, a: seq<T>, b: seq<T>)
    ensures Map(f, a + b) == Map(f, a) + Map(f, b)
  {
    forall i | 0 <= i < |a| + |b| ensures Map(f, a + b)[i] == (Map(f, a) + Map(f, b))[i] {
    }
  }

  /** Mapping keeps the key sum when the new key of f(y) is the old key of y. */
  lemma {:induction false} KeySumMap<T, U>(f: T -> U, s: seq<T>, k1: T -> int, k2: U -> int)
    requires forall y :: k2(f(y)) == k1(y)
    ensures KeySum(Map(f, s), k2) == KeySum(s, k1)
  {
    if s != [] {
      KeySumMap(f, s[1..], k1, k2);
      assert Map(f, s)[1..] == Map(f, s[1..]);
    }
  }

  /** Sorting a list that is already in order leaves it as it is; in particular sorting twice is sorting once. */
  lemma {:induction false} SortBySorted<T>(s: seq<T>, key: T -> int)
    requires SortedBy(s, key)
    ensures SortBy(s, key) == s
  {
    if s != [] {
      assert SortedBy(s[1..], key) by {
        forall i, j | 0 <= i < j < |s[1..]| ensures key(s[1..][i]) <= key(s[1..][j]) {
          assert s[1..][i] == s[i + 1] && s[1..][j] == s[j + 1];
        }
      }
      SortBySorted(s[1..], key);
      assert [s[0]] + s[1..] == s;
    }
  }

  lemma {:induction false} InsertMap<T, U>(f: T -> U, x: T, s: seq<T>, k1: T -> int, k2: U -> int)
    requires forall y :: k2(f(y)) == k1(y)
    ensures Map(f, Insert(x, s, k1)) == Insert(f(x), Map(f, s), k2)
  {
    if s != [] && k1(x) > k1(s[0]) {
      InsertMap(f, x, s[1..], k1, k2);
      assert Map(f, s)[1..] == Map(f, s[1..]);
      assert Map(f, [s[0]] + Insert(x, s[1..], k1)) == [f(s[0])] + Map(f, Insert(x, s[1..], k1));
    } else {
      assert Map(f, [x] + s) == [f(x)] + Map(f, s);
    }
  }

  /**
   * Projecting the elements onto a record with the same key commutes with
   * sorting: sorting then projecting equals projecting then sorting.
   */
  lemma {:induction false} SortByMap<T, U>(f: T -> U, s: seq<T>, k1: T -> int, k2: U -> int)
    requires forall y :: k2(f(y)) == k1(y)
    ensures Map(f, SortBy(s, k1)) == SortBy(Map(f, s), k2)
  {
    if s != [] {
      SortByMap(f, s[1..], k1, k2);
      InsertMap(f, s[0], SortBy(s[1..], k1), k1, k2);
      assert Map(f, s)[1..] == Map(f, s[1..]);
    }
  }
}
