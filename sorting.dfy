/** Kotlin's `sortedBy` and `sortedByDescending`: stable sorts by an integer key.
    Stability is stated as "the elements that share a key keep their relative order". */
module Sorting {

  predicate SortedBy<T>(s: seq<T>, key: T -> int) {
    forall a, b :: 0 <= a < b < |s| ==> key(s[a]) <= key(s[b])
  }

  /** The elements of `s` whose key is `k`, in the order of `s`. */
  function WithKey<T>(s: seq<T>, key: T -> int, k: int): seq<T>
    decreases |s|
  {
    if s == [] then [] else (if key(s[0]) == k then [s[0]] else []) + WithKey(s[1..], key, k)
  }

  /** Places `x` before the first element whose key is at least `x`'s. */
  function Insert<T>(x: T, s: seq<T>, key: T -> int): (r: seq<T>)
    ensures |r| == |s| + 1
    ensures multiset(r) == multiset(s) + multiset{x}
    decreases |s|
  {
    if s == [] || key(x) <= key(s[0]) then
      [x] + s
    else
      assert s == [s[0]] + s[1..];
      [s[0]] + Insert(x, s[1..], key)
  }

  lemma SortedByTail<T>(s: seq<T>, key: T -> int)
    requires s != [] && SortedBy(s, key)
    ensures SortedBy(s[1..], key)
  {
    forall a, b | 0 <= a < b < |s[1..]|
      ensures key(s[1..][a]) <= key(s[1..][b])
    {
      assert s[1..][a] == s[a + 1] && s[1..][b] == s[b + 1];
    }
  }

  lemma {:induction false} InsertSorted<T>(x: T, s: seq<T>, key: T -> int)
    requires SortedBy(s, key)
    ensures SortedBy(Insert(x, s, key), key)
    decreases |s|
  {
    if s != [] && key(x) > key(s[0]) {
      var rest := Insert(x, s[1..], key);
      SortedByTail(s, key);
      InsertSorted(x, s[1..], key);
      forall e | e in rest
        ensures key(s[0]) <= key(e)
      {
        assert e in multiset(rest);
        assert e == x || e in multiset(s[1..]);
      }
      var r := [s[0]] + rest;
      forall a, b | 0 <= a < b < |r|
        ensures key(r[a]) <= key(r[b])
      {
        if a > 0 {
          assert r[a] == rest[a - 1] && r[b] == rest[b - 1];
        } else {
          assert r[b] == rest[b - 1] && r[b] in rest;
        }
      }
    }
  }

  /** Insertion sort; `s[0]` lands before every later element that has the same key. */
  function SortBy<T>(s: seq<T>, key: T -> int): (r: seq<T>)
    ensures |r| == |s| && multiset(r) == multiset(s)
    ensures SortedBy(r, key)
    decreases |s|
  {
    if s == [] then []
    else
      assert s == [s[0]] + s[1..];
      InsertSorted(s[0], SortBy(s[1..], key), key);
      Insert(s[0], SortBy(s[1..], key), key)
  }

  lemma {:induction false} InsertWithKey<T>(x: T, s: seq<T>, key: T -> int, k: int)
    requires SortedBy(s, key)
    ensures WithKey(Insert(x, s, key), key, k) == (if key(x) == k then [x] else []) + WithKey(s, key, k)
    decreases |s|
  {
    if s == [] || key(x) <= key(s[0]) {
      assert ([x] + s)[1..] == s;
    } else {
      var rest := Insert(x, s[1..], key);
      var r := [s[0]] + rest;
      assert r[0] == s[0] && r[1..] == rest;
      SortedByTail(s, key);
      InsertWithKey(x, s[1..], key, k);
      assert WithKey(s, key, k) == (if key(s[0]) == k then [s[0]] else []) + WithKey(s[1..], key, k);
      assert WithKey(r, key, k) == (if key(s[0]) == k then [s[0]] else []) + WithKey(rest, key, k);
    }
  }

  /** Stability: sorting keeps, for every key, the relative order of the elements with that key. */
  lemma {:induction false} SortByStable<T>(s: seq<T>, key: T -> int, k: int)
    ensures WithKey(SortBy(s, key), key, k) == WithKey(s, key, k)
    decreases |s|
  {
    if s != [] {
      SortByStable(s[1..], key, k);
      InsertWithKey(s[0], SortBy(s[1..], key), key, k);
    }
  }

  /** A sequence that is already in key order comes back unchanged. */
  lemma {:induction false} SortBySorted<T>(s: seq<T>, key: T -> int)
    requires SortedBy(s, key)
    ensures SortBy(s, key) == s
    decreases |s|
  {
    if s != [] {
      SortBySorted(s[1..], key);
      assert s == [s[0]] + s[1..];
    }
  }

  /** Sum of `f` over `s` (Kotlin's `sumOf`). */
  function SumOf<T>(s: seq<T>, f: T -> int): int
    decreases |s|
  {
    if s == [] then 0 else f(s[0]) + SumOf(s[1..], f)
  }

  lemma {:induction false} SumOfAppend<T>(s: seq<T>, x: T, f: T -> int)
    ensures SumOf(s + [x], f) == SumOf(s, f) + f(x)
    decreases |s|
  {
    if s != [] {
      assert (s + [x])[1..] == s[1..] + [x];
      SumOfAppend(s[1..], x, f);
    }
  }

  lemma {:induction false} SumOfInsert<T>(x: T, s: seq<T>, key: T -> int, f: T -> int)
    ensures SumOf(Insert(x, s, key), f) == SumOf(s, f) + f(x)
    decreases |s|
  {
    if s != [] && key(x) > key(s[0]) {
      SumOfInsert(x, s[1..], key, f);
      assert ([s[0]] + Insert(x, s[1..], key))[1..] == Insert(x, s[1..], key);
    } else {
      assert ([x] + s)[1..] == s;
    }
  }

  /** Reordering does not change a sum. */
  lemma {:induction false} SumOfSortBy<T>(s: seq<T>, key: T -> int, f: T -> int)
    ensures SumOf(SortBy(s, key), f) == SumOf(s, f)
    decreases |s|
  {
    if s != [] {
      SumOfSortBy(s[1..], key, f);
      SumOfInsert(s[0], SortBy(s[1..], key), key, f);
    }
  }

  /** `k` is the first position of a greatest key in `s`. */
  predicate IsFirstMax<T>(s: seq<T>, key: T -> int, k: int)
  {
    0 <= k < |s| && (forall j :: 0 <= j < |s| ==> key(s[j]) <= key(s[k]))
    && (forall j :: 0 <= j < k ==> key(s[j]) < key(s[k]))
  }

  /** `k` is the first position of a least key in `s`. */
  predicate IsFirstMin<T>(s: seq<T>, key: T -> int, k: int)
  {
    0 <= k < |s| && (forall j :: 0 <= j < |s| ==> key(s[k]) <= key(s[j]))
    && (forall j :: 0 <= j < k ==> key(s[k]) < key(s[j]))
  }

  /** Kotlin's `maxByOrNull` on a non-empty list: the first element of greatest key
      (a later element replaces the candidate only when strictly greater). */
  function FirstMaxIndex<T>(s: seq<T>, key: T -> int): (k: nat)
    requires |s| > 0
    ensures k < |s|
    ensures forall j :: 0 <= j < |s| ==> key(s[j]) <= key(s[k])
    ensures forall j :: 0 <= j < k ==> key(s[j]) < key(s[k])
    decreases |s|
  {
    if |s| == 1 then 0
    else
      var k := FirstMaxIndex(s[..|s| - 1], key);
      assert forall j :: 0 <= j < |s| - 1 ==> s[..|s| - 1][j] == s[j];
      if key(s[k]) < key(s[|s| - 1]) then |s| - 1 else k
  }

  /** Kotlin's `minByOrNull` on a non-empty list: the first element of least key. */
  function FirstMinIndex<T>(s: seq<T>, key: T -> int): (k: nat)
    requires |s| > 0
    ensures k < |s|
    ensures forall j :: 0 <= j < |s| ==> key(s[k]) <= key(s[j])
    ensures forall j :: 0 <= j < k ==> key(s[k]) < key(s[j])
    decreases |s|
  {
    if |s| == 1 then 0
    else
      var k := FirstMinIndex(s[..|s| - 1], key);
      assert forall j :: 0 <= j < |s| - 1 ==> s[..|s| - 1][j] == s[j];
      if key(s[k]) > key(s[|s| - 1]) then |s| - 1 else k
  }
}
