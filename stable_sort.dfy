/**
 * `Array.prototype.sort` with a numeric comparator `(a, b) => key(a) - key(b)`.
 * Since ES2019 the sort is stable, so its result is fixed: the elements in
 * ascending key order, elements with equal keys in their original order.
 * That result is defined here as an insertion sort and characterised by
 * three lemmas: it is sorted, it is a permutation, and it keeps the order
 * of the elements of each key.
 */
module StableSort {

  predicate SortedBy<T>(s: seq<T>, key: T -> int) {
    forall i, j :: 0 <= i < j < |s| ==> key(s[i]) <= key(s[j])
  }

  /** Inserts `x` after every element whose key is at most `key(x)`. */
  function InsertByKey<T>(sorted: seq<T>, x: T, key: T -> int): (r: seq<T>)
    ensures |r| == |sorted| + 1
  {
    if sorted == [] then [x]
    else if key(x) < key(sorted[0]) then [x] + sorted
    else [sorted[0]] + InsertByKey(sorted[1..], x, key)
  }

  /** The sorted array, built by inserting the elements one by one in input order. */
  function SortByKey<T>(s: seq<T>, key: T -> int): (r: seq<T>)
    ensures |r| == |s|
  {
    if s == [] then [] else InsertByKey(SortByKey(s[..|s| - 1], key), s[|s| - 1], key)
  }

  /** The elements of `s` whose key is `k`, in order. */
  function WithKey<T>(s: seq<T>, key: T -> int, k: int): (r: seq<T>)
    ensures |r| <= |s|
  {
    if s == [] then []
    else WithKey(s[..|s| - 1], key, k) + (if key(s[|s| - 1]) == k then [s[|s| - 1]] else [])
  }

  // ---------------------------------------------------------------------------
  // Sortedness

  lemma {:induction false} InsertByKeySorted<T>(sorted: seq<T>, x: T, key: T -> int)
    requires SortedBy(sorted, key)
    ensures SortedBy(InsertByKey(sorted, x, key), key)
    ensures forall i :: 0 <= i < |sorted| + 1 ==>
      InsertByKey(sorted, x, key)[i] == x || InsertByKey(sorted, x, key)[i] in sorted
    decreases |sorted|
  {
    if sorted != [] && key(x) >= key(sorted[0]) {
      InsertByKeySorted(sorted[1..], x, key);
      var rest := InsertByKey(sorted[1..], x, key);
      assert InsertByKey(sorted, x, key) == [sorted[0]] + rest;
      forall i | 0 <= i < |rest|
        ensures key(sorted[0]) <= key(rest[i])
      {
        assert rest[i] == x || rest[i] in sorted[1..];
      }
    }
  }

  lemma {:induction false} SortByKeySorted<T>(s: seq<T>, key: T -> int)
    ensures SortedBy(SortByKey(s, key), key)
    decreases |s|
  {
    if s != [] {
      SortByKeySorted(s[..|s| - 1], key);
      InsertByKeySorted(SortByKey(s[..|s| - 1], key), s[|s| - 1], key);
    }
  }

  // ---------------------------------------------------------------------------
  // Permutation

  lemma {:induction false} InsertByKeyPermutes<T>(sorted: seq<T>, x: T, key: T -> int)
    ensures multiset(InsertByKey(sorted, x, key)) == multiset(sorted) + multiset{x}
    decreases |sorted|
  {
    if sorted != [] && key(x) >= key(sorted[0]) {
      InsertByKeyPermutes(sorted[1..], x, key);
      assert sorted == [sorted[0]] + sorted[1..];
    }
  }

  lemma {:induction false} SortByKeyPermutes<T>(s: seq<T>, key: T -> int)
    ensures multiset(SortByKey(s, key)) == multiset(s)
    decreases |s|
  {
    if s != [] {
      var init, last := s[..|s| - 1], s[|s| - 1];
      assert s == init + [last];
      SortByKeyPermutes(init, key);
      InsertByKeyPermutes(SortByKey(init, key), last, key);
    }
  }

  // ---------------------------------------------------------------------------
  // Stability

  lemma {:induction false} WithKeyConcat<T>(a: seq<T>, b: seq<T>, key: T -> int, k: int)
    ensures WithKey(a + b, key, k) == WithKey(a, key, k) + WithKey(b, key, k)
    decreases |b|
  {
    if b == [] {
      assert a + b == a;
    } else {
      var b' := b[..|b| - 1];
      assert (a + b)[..|a + b| - 1] == a + b';
      WithKeyConcat(a, b', key, k);
    }
  }

  lemma WithKeySingle<T>(x: T, key: T -> int, k: int)
    ensures WithKey([x], key, k) == if key(x) == k then [x] else []
  {
    assert [x][..0] == [];
  }

  /** Inserting `x` adds it to the end of the elements with its key, and changes no other key's elements. */
  lemma {:induction false} InsertByKeyWithKey<T>(sorted: seq<T>, x: T, key: T -> int, k: int)
    requires SortedBy(sorted, key)
    ensures WithKey(InsertByKey(sorted, x, key), key, k)
         == WithKey(sorted, key, k) + (if key(x) == k then [x] else [])
    decreases |sorted|
  {
    WithKeySingle(x, key, k);
    if sorted == [] {
      assert WithKey(sorted, key, k) == [];
    } else if key(x) < key(sorted[0]) {
      InsertInFrontWithKey(sorted, x, key, k);
    } else {
      InsertByKeyWithKey(sorted[1..], x, key, k);
      InsertFurtherWithKey(sorted, x, key, k);
    }
  }

  lemma InsertInFrontWithKey<T>(sorted: seq<T>, x: T, key: T -> int, k: int)
    requires SortedBy(sorted, key)
    requires sorted != [] && key(x) < key(sorted[0])
    ensures WithKey([x] + sorted, key, k)
         == WithKey(sorted, key, k) + (if key(x) == k then [x] else [])
  {
    WithKeySingle(x, key, k);
    WithKeyConcat([x], sorted, key, k);
    if key(x) == k {
      WithKeyNone(sorted, key, k);
    }
  }

  lemma InsertFurtherWithKey<T>(sorted: seq<T>, x: T, key: T -> int, k: int)
    requires sorted != []
    requires WithKey(InsertByKey(sorted[1..], x, key), key, k)
          == WithKey(sorted[1..], key, k) + (if key(x) == k then [x] else [])
    ensures WithKey([sorted[0]] + InsertByKey(sorted[1..], x, key), key, k)
         == WithKey(sorted, key, k) + (if key(x) == k then [x] else [])
  {
    var rest := sorted[1..];
    WithKeyConcat([sorted[0]], InsertByKey(rest, x, key), key, k);
    assert sorted == [sorted[0]] + rest;
    WithKeyConcat([sorted[0]], rest, key, k);
  }

  /** A sorted sequence whose first key exceeds `k` has no element with key `k`. */
  lemma {:induction false} WithKeyNone<T>(sorted: seq<T>, key: T -> int, k: int)
    requires SortedBy(sorted, key)
    requires sorted != [] && k < key(sorted[0])
    ensures WithKey(sorted, key, k) == []
    decreases |sorted|
  {
    var init := sorted[..|sorted| - 1];
    if init != [] {
      WithKeyNone(init, key, k);
    }
  }

  lemma {:induction false} SortByKeyStable<T>(s: seq<T>, key: T -> int, k: int)
    ensures WithKey(SortByKey(s, key), key, k) == WithKey(s, key, k)
    decreases |s|
  {
    if s != [] {
      var init := s[..|s| - 1];
      SortByKeyStable(init, key, k);
      SortByKeySorted(init, key);
      InsertByKeyWithKey(SortByKey(init, key), s[|s| - 1], key, k);
    }
  }
}
