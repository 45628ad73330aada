/** Facts about Python lists used by several modules: distinctness, occurrence counts and
    Python's index arithmetic (negative indices count from the end). */
module Lists {

  /** No value occurs twice. */
  predicate NoDup<T(==)>(s: seq<T>) {
    forall i, j :: 0 <= i < j < |s| ==> s[i] != s[j]
  }

  /** Number of occurrences of `x` in `s`. */
  function Count<T(==)>(s: seq<T>, x: T): (n: nat)
    ensures n == multiset(s)[x]
    ensures n > 0 <==> x in s
  {
    if s == [] then 0
    else
      assert s == [s[0]] + s[1..];
      (if s[0] == x then 1 else 0) + Count(s[1..], x)
  }

  lemma {:induction false} NoDupCount<T>(s: seq<T>, x: T)
    requires NoDup(s)
    ensures multiset(s)[x] <= 1
  {
    if s != [] {
      assert s == [s[0]] + s[1..];
      assert NoDup(s[1..]);
      NoDupCount(s[1..], x);
      if s[0] == x {
        assert x !in s[1..];
      }
    }
  }

  lemma {:induction false} CountNoDup<T>(s: seq<T>)
    requires forall x :: multiset(s)[x] <= 1
    ensures NoDup(s)
  {
    forall i, j | 0 <= i < j < |s| ensures s[i] != s[j] {
      assert s == s[..j] + s[j..];
      assert s[i] in s[..j] && s[j] in s[j..];
      assert multiset(s) == multiset(s[..j]) + multiset(s[j..]);
      assert s[i] in multiset(s[..j]) && s[j] in multiset(s[j..]);
      assert multiset(s)[s[i]] >= multiset(s[..j])[s[i]] + multiset(s[j..])[s[i]];
      assert multiset(s)[s[i]] <= 1;
    }
  }

  /** Rearranging a list (same multiset) keeps it free of duplicates. */
  lemma PermutationNoDup<T>(s: seq<T>, t: seq<T>)
    requires multiset(s) == multiset(t) && NoDup(s)
    ensures NoDup(t) && |t| == |s|
  {
    assert |t| == |multiset(t)| == |multiset(s)| == |s|;
    forall x ensures multiset(t)[x] <= 1 { NoDupCount(s, x); }
    CountNoDup(t);
  }

  /** Python accepts `-len(s) <= i < len(s)` as an index into `s`. */
  predicate PyIndexOk(len: int, i: int) {
    -len <= i < len
  }

  /** The position Python reads for index `i`. */
  function PyPos(len: int, i: int): (p: int)
    requires PyIndexOk(len, i)
    ensures 0 <= p < len
    ensures p % len == i % len
  {
    if i < 0 then i + len else i
  }

  /** The "ensure" pattern: every listed key that is absent gets the default `d`, in list order;
      present keys keep their value. */
  function WithDefaults<K, V>(m: map<K, V>, keys: seq<K>, d: V): (r: map<K, V>)
    ensures r.Keys == m.Keys + (set k | k in keys)
    ensures forall k :: k in m ==> r[k] == m[k]
    ensures forall k :: k in r && k !in m ==> r[k] == d
    decreases |keys|
  {
    if keys == [] then m
    else
      var r := WithDefaults(if keys[0] in m then m else m[keys[0] := d], keys[1..], d);
      assert (set k | k in keys) == {keys[0]} + (set k | k in keys[1..]);
      r
  }

  /** Ensuring one more key at the end of the list ensures the others first, then that one. */
  lemma {:induction false} WithDefaultsSnoc<K, V>(m: map<K, V>, keys: seq<K>, k: K, d: V)
    ensures WithDefaults(m, keys + [k], d) == (var r := WithDefaults(m, keys, d); if k in r then r else r[k := d])
    decreases |keys|
  {
    if keys == [] {
      assert keys + [k] == [k];
      assert [k][1..] == [];
    } else {
      assert (keys + [k])[1..] == keys[1..] + [k];
      WithDefaultsSnoc(if keys[0] in m then m else m[keys[0] := d], keys[1..], k, d);
    }
  }

  /** Ensuring the same keys twice changes nothing the second time. */
  lemma WithDefaultsIdempotent<K, V>(m: map<K, V>, keys: seq<K>, d: V)
    ensures WithDefaults(WithDefaults(m, keys, d), keys, d) == WithDefaults(m, keys, d)
  {
    var once := WithDefaults(m, keys, d);
    var twice := WithDefaults(once, keys, d);
    assert twice.Keys == once.Keys;
  }

  /** Ensuring the keys again, whether or not they were ensured before, gives the same map. */
  lemma WithDefaultsAgain<K, V>(start: map<K, V>, m: map<K, V>, keys: seq<K>, d: V)
    requires m == start || m == WithDefaults(start, keys, d)
    ensures WithDefaults(m, keys, d) == WithDefaults(start, keys, d)
  {
    WithDefaultsIdempotent(start, keys, d);
  }

  /** A list comprehension `[f(x) for x in s]`. */
  function Map<A, B>(f: A -> B, s: seq<A>): (r: seq<B>)
    ensures |r| == |s|
    ensures forall i :: 0 <= i < |s| ==> r[i] == f(s[i])
  {
    seq(|s|, i requires 0 <= i < |s| => f(s[i]))
  }

  /** The image of a concatenation is the concatenation of the images. */
  lemma MapConcat<A, B>(f: A -> B, a: seq<A>, b: seq<A>)
    ensures Map(f, a + b) == Map(f, a) + Map(f, b)
  {
  }

  /** Taking out the element at `k` takes its image out of the image. */
  lemma MapRemove<A, B>(f: A -> B, t: seq<A>, k: nat)
    requires k < |t|
    ensures multiset(Map(f, t)) == multiset(Map(f, t[..k] + t[k + 1..])) + multiset{f(t[k])}
    ensures multiset(t) == multiset(t[..k] + t[k + 1..]) + multiset{t[k]}
  {
    assert t == t[..k] + [t[k]] + t[k + 1..];
    MapConcat(f, t[..k] + [t[k]], t[k + 1..]);
    MapConcat(f, t[..k], [t[k]]);
    MapConcat(f, t[..k], t[k + 1..]);
  }

  /** Multiset union with one element cancels. */
  lemma CancelOne<A>(a: multiset<A>, b: multiset<A>, x: A)
    requires a + multiset{x} == b + multiset{x}
    ensures a == b
  {
    assert a == (a + multiset{x}) - multiset{x};
    assert b == (b + multiset{x}) - multiset{x};
  }

  /** Rearranging a list rearranges its image the same way. */
  lemma {:induction false} MapPermutation<A, B>(f: A -> B, s: seq<A>, t: seq<A>)
    requires multiset(s) == multiset(t)
    ensures multiset(Map(f, s)) == multiset(Map(f, t))
    decreases |s|
  {
    if s == [] {
      assert |t| == |multiset(t)| == 0;
    } else {
      var k := RemoveFirst(s, t);
      var rest := t[..k] + t[k + 1..];
      MapPermutation(f, s[1..], rest);
      MapRemove(f, t, k);
      MapCons(f, s);
    }
  }

  /** The image of a non-empty list is the image of its head and of its tail. */
  lemma MapCons<A, B>(f: A -> B, s: seq<A>)
    requires s != []
    ensures multiset(Map(f, s)) == multiset{f(s[0])} + multiset(Map(f, s[1..]))
  {
    assert Map(f, s) == [f(s[0])] + Map(f, s[1..]);
  }

  /** Where a rearrangement holds the first element, and what is left of it without that. */
  lemma RemoveFirst<A>(s: seq<A>, t: seq<A>) returns (k: nat)
    requires multiset(s) == multiset(t) && s != []
    ensures k < |t| && t[k] == s[0]
    ensures multiset(s[1..]) == multiset(t[..k] + t[k + 1..])
  {
    assert s[0] in multiset(t);
    k :| 0 <= k < |t| && t[k] == s[0];
    MapRemove(x => x, t, k);
    assert s == [s[0]] + s[1..];
    CancelOne(multiset(s[1..]), multiset(t[..k] + t[k + 1..]), s[0]);
  }
}
