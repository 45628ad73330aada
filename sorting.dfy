/** Python's `list.sort(key=..., reverse=True)` as a value: a stable sort into non-increasing
    key order. Stability fixes the result uniquely, so any stable algorithm (CPython uses
    Timsort) returns the same list; here it is an insertion sort. */
module Sorting {

  /** Keys never increase from left to right. */
  predicate SortedDesc<T>(s: seq<T>, key: T -> int) {
    forall i, j :: 0 <= i < j < |s| ==> key(s[i]) >= key(s[j])
  }

  /** The elements of `s` whose key is `k`, in their order in `s`. */
  function WithKey<T>(s: seq<T>, key: T -> int, k: int): seq<T> {
    if s == [] then [] else (if key(s[0]) == k then [s[0]] else []) + WithKey(s[1..], key, k)
  }

  /** Puts `x` in front of the first element whose key is not larger than its own. */
  function Insert<T>(x: T, s: seq<T>, key: T -> int): (r: seq<T>)
    ensures multiset(r) == multiset(s) + multiset{x}
  {
    if s == [] || key(x) >= key(s[0]) then [x] + s
    else
      assert s == [s[0]] + s[1..];
      [s[0]] + Insert(x, s[1..], key)
  }

  lemma {:induction false} InsertSorted<T>(x: T, s: seq<T>, key: T -> int)
    requires SortedDesc(s, key)
    ensures SortedDesc(Insert(x, s, key), key)
  {
    if s == [] || key(x) >= key(s[0]) {
      var r := [x] + s;
      forall i, j | 0 <= i < j < |r| ensures key(r[i]) >= key(r[j]) {
        if i > 0 { assert r[i] == s[i-1]; }
        assert r[j] == s[j-1];
      }
    } else {
      InsertSorted(x, s[1..], key);
      var rest := Insert(x, s[1..], key);
      var r := [s[0]] + rest;
      forall i, j | 0 <= i < j < |r| ensures key(r[i]) >= key(r[j]) {
        if i > 0 {
          assert r[i] == rest[i-1];
        } else {
          assert rest[j-1] in multiset(rest);
          assert r[j] == x || r[j] in multiset(s[1..]);
        }
      }
    }
  }

  /** The list sorted by non-increasing key, equal keys keeping their input order: a
      permutation of the input (its order is `SortDescSorted`). */
  function SortDesc<T>(s: seq<T>, key: T -> int): (r: seq<T>)
    ensures multiset(r) == multiset(s)
    ensures |r| == |s|
  {
    if s == [] then []
    else
      assert s == [s[0]] + s[1..];
      var r := Insert(s[0], SortDesc(s[1..], key), key);
      assert |r| == |multiset(r)|;
      r
  }

  /** The sorted list is in non-increasing key order. */
  lemma {:induction false} SortDescSorted<T>(s: seq<T>, key: T -> int)
    ensures SortedDesc(SortDesc(s, key), key)
  {
    if s != [] {
      SortDescSorted(s[1..], key);
      InsertSorted(s[0], SortDesc(s[1..], key), key);
    }
  }

  /** Inserting `x` only passes elements of larger key, so among the elements of any one key
      it lands in front. */
  lemma {:induction false} InsertStable<T>(x: T, s: seq<T>, key: T -> int, k: int)
    ensures WithKey(Insert(x, s, key), key, k) == (if key(x) == k then [x] else []) + WithKey(s, key, k)
  {
    if s == [] || key(x) >= key(s[0]) {
      assert ([x] + s)[1..] == s;
    } else {
      var rest := Insert(x, s[1..], key);
      assert ([s[0]] + rest)[1..] == rest;
      InsertStable(x, s[1..], key, k);
    }
  }

  /** Sorting keeps, for every key, the relative order of the elements with that key. */
  lemma {:induction false} SortStable<T>(s: seq<T>, key: T -> int, k: int)
    ensures WithKey(SortDesc(s, key), key, k) == WithKey(s, key, k)
  {
    if s != [] {
      SortStable(s[1..], key, k);
      InsertStable(s[0], SortDesc(s[1..], key), key, k);
    }
  }
}
