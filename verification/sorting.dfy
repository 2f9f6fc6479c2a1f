/** Python's `list.sort(key=…)`: a stable sort. Elements whose keys compare
    equal keep their original order; `reverse=True` reverses the comparison,
    not the list, so it is stable too. The sort is an insertion sort over an
    ordering `lt` on keys that behaves like Python's `<` on one type. */
module Sorting {

  /** What Python's sort assumes of `<`: irreflexive, asymmetric, and
      "not less" is transitive. */
  ghost predicate StrictWeakOrder<K(!new)>(lt: (K, K) -> bool) {
    && (forall a :: !lt(a, a))
    && (forall a, b :: lt(a, b) ==> !lt(b, a))
    && (forall a, b, c :: !lt(a, b) && !lt(b, c) ==> !lt(a, c))
  }

  /** No element is strictly before one that precedes it. */
  predicate SortedBy<T, K>(s: seq<T>, key: T -> K, lt: (K, K) -> bool) {
    forall i, j :: 0 <= i < j < |s| ==> !lt(key(s[j]), key(s[i]))
  }

  /** The elements with key `k`, in order. */
  function WithKey<T, K(==)>(s: seq<T>, key: T -> K, k: K): (r: seq<T>)
    ensures |r| <= |s|
  {
    if |s| == 0 then [] else (if key(s[0]) == k then [s[0]] else []) + WithKey(s[1..], key, k)
  }

  /** Inserts `x` before the first element it is not strictly after. */
  function Insert<T(==), K(!new)>(x: T, s: seq<T>, key: T -> K, lt: (K, K) -> bool): (r: seq<T>)
    requires StrictWeakOrder(lt)
    requires SortedBy(s, key, lt)
    ensures multiset(r) == multiset(s) + multiset{x}
    ensures SortedBy(r, key, lt)
  {
    if |s| == 0 || !lt(key(s[0]), key(x)) then
      forall j | 0 < j < |s| ensures !lt(key(s[j]), key(x)) {
        NotLessTransitive(lt, key(s[j]), key(s[0]), key(x));
      }
      PrependSorted(x, s, key, lt);
      [x] + s
    else
      var rest := Insert(x, s[1..], key, lt);
      assert s == [s[0]] + s[1..];
      forall j | 0 <= j < |rest| ensures !lt(key(rest[j]), key(s[0])) {
        assert rest[j] in multiset(rest);
      }
      PrependSorted(s[0], rest, key, lt);
      [s[0]] + rest
  }

  lemma NotLessTransitive<K(!new)>(lt: (K, K) -> bool, a: K, b: K, c: K)
    requires StrictWeakOrder(lt)
    requires !lt(a, b) && !lt(b, c)
    ensures !lt(a, c)
  {
  }

  /** A sorted list stays sorted under a new head that nothing in it is
      strictly before. */
  lemma PrependSorted<T, K>(x: T, s: seq<T>, key: T -> K, lt: (K, K) -> bool)
    requires SortedBy(s, key, lt)
    requires forall j :: 0 <= j < |s| ==> !lt(key(s[j]), key(x))
    ensures SortedBy([x] + s, key, lt)
  {
    var r := [x] + s;
    forall i, j | 0 <= i < j < |r| ensures !lt(key(r[j]), key(r[i])) {
      assert r[j] == s[j - 1];
      if i > 0 {
        assert r[i] == s[i - 1];
      }
    }
  }

  /** `sorted(s, key=key)` for the ordering `lt`. */
  function SortBy<T(==), K(!new)>(s: seq<T>, key: T -> K, lt: (K, K) -> bool): (r: seq<T>)
    requires StrictWeakOrder(lt)
    ensures multiset(r) == multiset(s)
    ensures SortedBy(r, key, lt)
  {
    if |s| == 0 then []
    else
      assert s == [s[0]] + s[1..];
      Insert(s[0], SortBy(s[1..], key, lt), key, lt)
  }

  lemma {:induction false} InsertStable<T, K(!new)>(x: T, s: seq<T>, key: T -> K, lt: (K, K) -> bool, k: K)
    requires StrictWeakOrder(lt)
    requires SortedBy(s, key, lt)
    ensures WithKey(Insert(x, s, key, lt), key, k) == WithKey([x], key, k) + WithKey(s, key, k)
    decreases |s|
  {
    if |s| == 0 || !lt(key(s[0]), key(x)) {
      assert ([x] + s)[1..] == s;
    } else {
      var rest := Insert(x, s[1..], key, lt);
      assert ([s[0]] + rest)[1..] == rest;
      assert key(s[0]) != key(x);
      InsertStable(x, s[1..], key, lt, k);
    }
  }

  /** Stability: for every key, the elements with that key come out in the
      order they went in. */
  lemma {:induction false} SortByStable<T, K(!new)>(s: seq<T>, key: T -> K, lt: (K, K) -> bool, k: K)
    requires StrictWeakOrder(lt)
    ensures WithKey(SortBy(s, key, lt), key, k) == WithKey(s, key, k)
    decreases |s|
  {
    if |s| > 0 {
      var sorted := SortBy(s[1..], key, lt);
      assert SortBy(s, key, lt) == Insert(s[0], sorted, key, lt);
      InsertStable(s[0], sorted, key, lt, k);
      SortByStable(s[1..], key, lt, k);
      WithKeyCons(s, key, k);
    }
  }

  /** The elements with a key split at the head like the list does. */
  lemma WithKeyCons<T, K>(s: seq<T>, key: T -> K, k: K)
    requires |s| > 0
    ensures WithKey(s, key, k) == WithKey([s[0]], key, k) + WithKey(s[1..], key, k)
  {
    assert [s[0]][1..] == [];
  }

  // ---------------------------------------------------------------------
  // the two orderings the application sorts by

  /** Python's `<` on `str`: code point by code point, a proper prefix
      first. */
  predicate LexLess(a: string, b: string)
    decreases |a|
  {
    if |b| == 0 then false
    else if |a| == 0 then true
    else if a[0] != b[0] then a[0] < b[0]
    else LexLess(a[1..], b[1..])
  }

  lemma {:induction false} LexLessIrreflexive(a: string)
    ensures !LexLess(a, a)
    decreases |a|
  {
    if |a| > 0 {
      LexLessIrreflexive(a[1..]);
    }
  }

  lemma {:induction false} LexLessTrichotomy(a: string, b: string)
    ensures LexLess(a, b) || LexLess(b, a) || a == b
    decreases |a|
  {
    if |a| > 0 && |b| > 0 && a[0] == b[0] {
      LexLessTrichotomy(a[1..], b[1..]);
      if a[1..] == b[1..] {
        assert a == [a[0]] + a[1..] && b == [b[0]] + b[1..];
      }
    }
  }

  lemma {:induction false} LexLessTransitive(a: string, b: string, c: string)
    requires LexLess(a, b) && LexLess(b, c)
    ensures LexLess(a, c)
    decreases |a|
  {
    if |a| > 0 && a[0] == b[0] && b[0] == c[0] {
      LexLessTransitive(a[1..], b[1..], c[1..]);
    }
  }

  /** The comparison `reverse=True` makes of string keys. */
  function Descending(): (string, string) -> bool {
    (a: string, b: string) => LexLess(b, a)
  }

  /** The comparison `sort(key=…)` makes of integer keys. */
  function Ascending(): (int, int) -> bool {
    (a: int, b: int) => a < b
  }

  lemma DescendingIsOrder()
    ensures StrictWeakOrder(Descending())
  {
    var lt := Descending();
    forall a: string ensures !lt(a, a) {
      LexLessIrreflexive(a);
    }
    forall a: string, b: string | lt(a, b) ensures !lt(b, a) {
      if LexLess(a, b) {
        LexLessTransitive(b, a, b);
        LexLessIrreflexive(b);
      }
    }
    forall a: string, b: string, c: string | !lt(a, b) && !lt(b, c) ensures !lt(a, c) {
      LexLessTrichotomy(a, b);
      if LexLess(c, a) {
        if LexLess(a, b) {
          LexLessTransitive(c, a, b);
        }
      }
    }
  }

  lemma AscendingIsOrder()
    ensures StrictWeakOrder(Ascending())
  {
  }
}
