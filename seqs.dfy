/** Optional values, for the results that Swift returns as `T?`. */
module Wrappers {
  datatype Option<+T> = None | Some(value: T)
}

/**
 * Heap-free sequence combinators that the budget computations are built from:
 * `filter`, `reduce(0, +)`, `sorted(by:)` and `Dictionary(grouping:by:)`.
 *
 * The record types are classes, so whatever a combinator needs to know about an
 * element (its sort key, its converted amount, whether a filter keeps it) is read
 * from the heap once, by the caller, into a `map` or a `set`; the combinators and
 * their lemmas then never touch the heap.
 */
module Seqs {

  // ---------------------------------------------------------------- filter

  /** The elements of `s` that belong to `keep`, in their original order. */
  function Filter<T>(s: seq<T>, keep: set<T>): (r: seq<T>)
    ensures |r| <= |s|
    ensures forall x :: x in r ==> x in s && x in keep
    ensures forall x :: x in s && x in keep ==> x in r
  {
    if s == [] then [] else (if s[0] in keep then [s[0]] else []) + Filter(s[1..], keep)
  }

  /** `r` is `s` with some elements left out and the rest kept in order. */
  predicate IsSubsequence<T(==)>(r: seq<T>, s: seq<T>)
  {
    if r == [] then true
    else if s == [] then false
    else if r[0] == s[0] then IsSubsequence(r[1..], s[1..])
    else IsSubsequence(r, s[1..])
  }

  lemma {:induction false} FilterIsSubsequence<T>(s: seq<T>, keep: set<T>)
    ensures IsSubsequence(Filter(s, keep), s)
  {
    if s != [] {
      FilterIsSubsequence(s[1..], keep);
      var r := Filter(s, keep);
      if s[0] in keep {
        assert r[0] == s[0] && r[1..] == Filter(s[1..], keep);
      } else {
        assert r == Filter(s[1..], keep);
      }
    }
  }

  /** A filter only looks at the members of `s`; two keep-sets that agree on them give the same result. */
  lemma {:induction false} FilterAgree<T>(s: seq<T>, a: set<T>, b: set<T>)
    requires forall x :: x in s ==> (x in a <==> x in b)
    ensures Filter(s, a) == Filter(s, b)
  {
    if s != [] {
      FilterAgree(s[1..], a, b);
    }
  }

  lemma {:induction false} FilterKeepsAll<T>(s: seq<T>, keep: set<T>)
    requires forall x :: x in s ==> x in keep
    ensures Filter(s, keep) == s
  {
    if s != [] {
      FilterKeepsAll(s[1..], keep);
    }
  }

  lemma {:induction false} FilterKeepsNone<T>(s: seq<T>, keep: set<T>)
    requires forall x :: x in s ==> x !in keep
    ensures Filter(s, keep) == []
  {
    if s != [] {
      FilterKeepsNone(s[1..], keep);
    }
  }

  lemma {:induction false} FilterOfFilter<T>(s: seq<T>, a: set<T>, b: set<T>)
    ensures Filter(Filter(s, a), b) == Filter(s, a * b)
  {
    if s != [] {
      FilterOfFilter(s[1..], a, b);
      if s[0] in a {
        var f := Filter(s, a);
        assert f == [s[0]] + Filter(s[1..], a);
        assert f[0] == s[0] && f[1..] == Filter(s[1..], a);
        assert Filter(f, b) == (if s[0] in b then [s[0]] else []) + Filter(f[1..], b);
      } else {
        assert Filter(s, a) == Filter(s[1..], a);
      }
    }
  }

  /** Filtering twice with the same keep-set is filtering once. */
  lemma FilterIdempotent<T>(s: seq<T>, keep: set<T>)
    ensures Filter(Filter(s, keep), keep) == Filter(s, keep)
  {
    FilterOfFilter(s, keep, keep);
    assert keep * keep == keep;
  }

  lemma {:induction false} FilterConcat<T>(a: seq<T>, b: seq<T>, keep: set<T>)
    ensures Filter(a + b, keep) == Filter(a, keep) + Filter(b, keep)
  {
    if a == [] {
      assert a + b == b;
    } else {
      assert (a + b)[0] == a[0] && (a + b)[1..] == a[1..] + b;
      FilterConcat(a[1..], b, keep);
    }
  }

  /** Filtering a sequence without repetitions gives one without repetitions. */
  lemma {:induction false} FilterDistinct<T>(s: seq<T>, keep: set<T>)
    requires Distinct(s)
    ensures Distinct(Filter(s, keep))
  {
    if s != [] {
      var t := s[1..];
      assert Distinct(t) by {
        forall i, j | 0 <= i < j < |t| ensures t[i] != t[j] {
          assert t[i] == s[i + 1] && t[j] == s[j + 1];
        }
      }
      FilterDistinct(t, keep);
      var f := Filter(t, keep);
      if s[0] in keep {
        assert s[0] !in t by {
          forall j | 0 <= j < |t| ensures t[j] != s[0] {
            assert t[j] == s[j + 1];
          }
        }
        var r := [s[0]] + f;
        forall i, j | 0 <= i < j < |r| ensures r[i] != r[j] {
          if i == 0 {
            assert r[j] == f[j - 1] && f[j - 1] in f;
          } else {
            assert r[i] == f[i - 1] && r[j] == f[j - 1];
          }
        }
      }
    }
  }

  /** Two disjoint filters of the same sequence together hold every element of their union filter exactly as often. */
  lemma {:induction false} FilterDisjointUnion<T>(s: seq<T>, a: set<T>, b: set<T>)
    requires a !! b
    ensures multiset(Filter(s, a)) + multiset(Filter(s, b)) == multiset(Filter(s, a + b))
  {
    if s != [] {
      FilterDisjointUnion(s[1..], a, b);
    }
  }

  // ---------------------------------------------------------------- sums

  /**
   * `reduce(0) { $0 + value[$1] }`. Swift folds from the left; on exact reals the
   * grouping of the additions does not matter, and folding from the front is
   * what the lemmas below find easiest.
   */
  function SumBy<T>(s: seq<T>, value: map<T, real>): (r: real)
    requires forall x :: x in s ==> x in value
  {
    if s == [] then 0.0 else value[s[0]] + SumBy(s[1..], value)
  }

  lemma {:induction false} SumByConcat<T>(a: seq<T>, b: seq<T>, value: map<T, real>)
    requires forall x :: x in a ==> x in value
    requires forall x :: x in b ==> x in value
    ensures forall x :: x in a + b ==> x in value
    ensures SumBy(a + b, value) == SumBy(a, value) + SumBy(b, value)
  {
    if a == [] {
      assert a + b == b;
    } else {
      assert (a + b)[0] == a[0] && (a + b)[1..] == a[1..] + b;
      SumByConcat(a[1..], b, value);
    }
  }

  /** The sum only looks at the values of the members of `s`. */
  lemma {:induction false} SumByAgree<T>(s: seq<T>, v: map<T, real>, w: map<T, real>)
    requires forall x :: x in s ==> x in v && x in w && v[x] == w[x]
    ensures SumBy(s, v) == SumBy(s, w)
  {
    if s != [] {
      assert forall x :: x in s[1..] ==> x in s;
      SumByAgree(s[1..], v, w);
    }
  }

  /** Taking one element out of the sum. */
  lemma SumByRemove<T>(b: seq<T>, k: nat, value: map<T, real>)
    requires k < |b|
    requires forall x :: x in b ==> x in value
    ensures forall x :: x in b[..k] + b[k + 1..] ==> x in value
    ensures SumBy(b, value) == value[b[k]] + SumBy(b[..k] + b[k + 1..], value)
  {
    var front, back := b[..k], b[k + 1..];
    assert b == front + ([b[k]] + back);
    assert forall y :: y in front ==> y in b;
    assert forall y :: y in back ==> y in b;
    SumByConcat(front, back, value);
    SumByConcat(front, [b[k]] + back, value);
    assert ([b[k]] + back)[1..] == back;
  }

  /** The sum does not depend on the order of the elements. */
  lemma {:induction false} SumByPermutation<T>(a: seq<T>, b: seq<T>, value: map<T, real>)
    requires multiset(a) == multiset(b)
    requires forall x :: x in a ==> x in value
    ensures forall x :: x in b ==> x in value
    ensures SumBy(a, value) == SumBy(b, value)
  {
    assert forall x :: x in b ==> x in multiset(a);
    if a != [] {
      var k := MatchFirst(a, b);
      SumByRemove(b, k, value);
      assert forall y :: y in a[1..] ==> y in a;
      SumByPermutation(a[1..], b[..k] + b[k + 1..], value);
    }
  }

  /** Where the first element of `a` sits in a permutation `b` of it, and what is left of both. */
  lemma MatchFirst<T>(a: seq<T>, b: seq<T>) returns (k: nat)
    requires a != [] && multiset(a) == multiset(b)
    ensures k < |b| && b[k] == a[0]
    ensures multiset(a[1..]) == multiset(b[..k] + b[k + 1..])
  {
    assert a[0] in multiset(b);
    k :| 0 <= k < |b| && b[k] == a[0];
    var rest := b[..k] + b[k + 1..];
    assert b == b[..k] + [b[k]] + b[k + 1..];
    assert multiset(b) == multiset(b[..k]) + multiset{a[0]} + multiset(b[k + 1..]);
    assert multiset(rest) == multiset(b[..k]) + multiset(b[k + 1..]);
    assert a == [a[0]] + a[1..];
    assert multiset(a) == multiset{a[0]} + multiset(a[1..]);
    assert multiset(a[1..]) == multiset(a) - multiset{a[0]};
    assert multiset(rest) == multiset(b) - multiset{a[0]};
  }

  /** Splitting a sequence by a keep-set and its complement splits its sum. */
  lemma {:induction false} SumByFilterSplit<T>(s: seq<T>, keep: set<T>, other: set<T>, value: map<T, real>)
    requires forall x :: x in s ==> x in value
    requires forall x :: x in s ==> (x in keep <==> x !in other)
    ensures SumBy(Filter(s, keep), value) + SumBy(Filter(s, other), value) == SumBy(s, value)
  {
    if s != [] {
      assert forall x :: x in s[1..] ==> x in s;
      SumByFilterSplit(s[1..], keep, other, value);
      if s[0] in keep {
        assert Filter(s, keep) == [s[0]] + Filter(s[1..], keep);
        assert Filter(s, other) == Filter(s[1..], other);
      } else {
        assert Filter(s, keep) == Filter(s[1..], keep);
        assert Filter(s, other) == [s[0]] + Filter(s[1..], other);
      }
    }
  }

  // ---------------------------------------------------------------- sorting

  /** No element occurs twice. */
  predicate Distinct<T(==)>(s: seq<T>)
  {
    forall i, j :: 0 <= i < j < |s| ==> s[i] != s[j]
  }

  /** Appending a new element keeps a sequence free of repetitions. */
  lemma DistinctSnoc<T>(s: seq<T>, x: T)
    requires Distinct(s) && x !in s
    ensures Distinct(s + [x])
  {
    var t := s + [x];
    forall i, j | 0 <= i < j < |t| ensures t[i] != t[j] {
      assert t[i] == s[i];
      if j < |s| {
        assert t[j] == s[j];
      }
    }
  }

  /** Two sequences without repetitions and without common elements concatenate to one. */
  lemma DistinctConcat<T>(a: seq<T>, b: seq<T>)
    requires Distinct(a) && Distinct(b)
    requires forall x :: x in a ==> x !in b
    ensures Distinct(a + b)
  {
    var t := a + b;
    forall i, j | 0 <= i < j < |t| ensures t[i] != t[j] {
      if j < |a| {
        assert t[i] == a[i] && t[j] == a[j];
      } else if i < |a| {
        assert t[i] == a[i] && t[j] == b[j - |a|];
        assert a[i] in a;
      } else {
        assert t[i] == b[i - |a|] && t[j] == b[j - |a|];
      }
    }
  }

  /** The two halves of a sequence without repetitions have none and share nothing. */
  lemma DistinctSplit<T>(a: seq<T>, b: seq<T>)
    requires Distinct(a + b)
    ensures Distinct(a) && Distinct(b)
    ensures forall x :: x in a ==> x !in b
  {
    var t := a + b;
    assert forall i :: 0 <= i < |a| ==> t[i] == a[i];
    assert forall j :: 0 <= j < |b| ==> t[|a| + j] == b[j];
  }

  lemma {:induction false} DistinctCountsOnce<T>(s: seq<T>, x: T)
    requires Distinct(s)
    ensures multiset(s)[x] <= 1
  {
    if s != [] {
      assert s == [s[0]] + s[1..];
      assert Distinct(s[1..]) by {
        forall i, j | 0 <= i < j < |s[1..]| ensures s[1..][i] != s[1..][j] {
          assert s[1..][i] == s[i + 1] && s[1..][j] == s[j + 1];
        }
      }
      DistinctCountsOnce(s[1..], x);
      if s[0] == x {
        assert x !in s[1..] by {
          forall j | 0 <= j < |s[1..]| ensures s[1..][j] != x {
            assert s[1..][j] == s[j + 1];
          }
        }
      }
    }
  }

  /** A reordering of a sequence without repetitions has none either. */
  lemma DistinctPermutation<T>(a: seq<T>, b: seq<T>)
    requires multiset(a) == multiset(b)
    requires Distinct(a)
    ensures Distinct(b)
  {
    forall i, j | 0 <= i < j < |b| ensures b[i] != b[j] {
      if b[i] == b[j] {
        var x := b[i];
        assert b == b[..j] + [x] + b[j + 1..];
        assert x in b[..j];
        assert multiset(b)[x] == multiset(b[..j])[x] + 1 + multiset(b[j + 1..])[x];
        DistinctCountsOnce(a, x);
        assert false;
      }
    }
  }

  /** `lt` is a strict order: asymmetric and transitive. */
  ghost predicate StrictOrder<K(!new)>(lt: (K, K) -> bool)
  {
    && (forall a, b :: lt(a, b) ==> !lt(b, a))
    && (forall a, b, c :: lt(a, b) && lt(b, c) ==> lt(a, c))
  }

  /** No element is strictly before an element that precedes it. */
  ghost predicate SortedBy<T, K>(s: seq<T>, key: map<T, K>, lt: (K, K) -> bool)
    requires forall x :: x in s ==> x in key
  {
    forall i, j :: 0 <= i < j < |s| ==> !lt(key[s[j]], key[s[i]])
  }

  /** Puts `x` in front of the first element of `t` whose key it is strictly before. */
  function Insert<T, K>(x: T, t: seq<T>, key: map<T, K>, lt: (K, K) -> bool): (r: seq<T>)
    requires x in key && forall y :: y in t ==> y in key
    ensures multiset(r) == multiset(t) + multiset{x}
  {
    if t == [] then [x]
    else if lt(key[x], key[t[0]]) then [x] + t
    else assert t == [t[0]] + t[1..]; [t[0]] + Insert(x, t[1..], key, lt)
  }

  /** `sorted(by:)`: an insertion sort; each element goes after the earlier ones with an equal key, so ties keep their order. */
  function SortBy<T, K>(s: seq<T>, key: map<T, K>, lt: (K, K) -> bool): (r: seq<T>)
    requires forall x :: x in s ==> x in key
    ensures multiset(r) == multiset(s)
    ensures |r| == |s|
    ensures forall x :: x in r ==> x in s
    ensures forall x :: x in s ==> x in r
  {
    if s == [] then []
    else
      assert s == s[..|s| - 1] + [s[|s| - 1]];
      var r := Insert(s[|s| - 1], SortBy(s[..|s| - 1], key, lt), key, lt);
      assert forall x :: x in r ==> x in multiset(r);
      assert forall x :: x in multiset(r) ==> x in r;
      r
  }

  /** Sorting only looks at the keys of the members of `s`. */
  lemma {:induction false} SortByAgree<T, K>(s: seq<T>, key: map<T, K>, other: map<T, K>, lt: (K, K) -> bool)
    requires forall x :: x in s ==> x in key && x in other && key[x] == other[x]
    ensures SortBy(s, key, lt) == SortBy(s, other, lt)
  {
    if s != [] {
      var front := s[..|s| - 1];
      assert forall x :: x in front ==> x in s;
      SortByAgree(front, key, other, lt);
      InsertAgree(s[|s| - 1], SortBy(front, key, lt), key, other, lt);
    }
  }

  lemma {:induction false} InsertAgree<T, K>(x: T, t: seq<T>, key: map<T, K>, other: map<T, K>, lt: (K, K) -> bool)
    requires x in key && x in other && key[x] == other[x]
    requires forall y :: y in t ==> y in key && y in other && key[y] == other[y]
    ensures Insert(x, t, key, lt) == Insert(x, t, other, lt)
  {
    if t != [] {
      assert forall y :: y in t[1..] ==> y in t;
      InsertAgree(x, t[1..], key, other, lt);
    }
  }

  /** `lt` orders any two different keys one way or the other. */
  ghost predicate Total<K(!new)>(lt: (K, K) -> bool)
  {
    forall a, b :: a != b ==> lt(a, b) || lt(b, a)
  }

  /** Distinct keys sorted by a total strict order come out strictly increasing. */
  lemma SortedKeysStrict<K(!new)>(ks: seq<K>, lt: (K, K) -> bool)
    requires StrictOrder(lt) && Total(lt)
    requires Distinct(ks)
    ensures var o := SortBy(ks, SelfKeys(ks), lt);
      Distinct(o) && forall i, j :: 0 <= i < j < |o| ==> lt(o[i], o[j])
  {
    var o := SortBy(ks, SelfKeys(ks), lt);
    SortBySorted(ks, SelfKeys(ks), lt);
    DistinctPermutation(ks, o);
    forall i, j | 0 <= i < j < |o| ensures lt(o[i], o[j]) {
      assert o[i] in ks && o[j] in ks;
      assert !lt(SelfKeys(ks)[o[j]], SelfKeys(ks)[o[i]]);
    }
  }

  /** A sequence with a head is sorted when its tail is and nothing in the tail is strictly before the head. */
  lemma SortedCons<T, K>(h: T, t: seq<T>, key: map<T, K>, lt: (K, K) -> bool)
    requires h in key && forall y :: y in t ==> y in key
    ensures forall y :: y in [h] + t ==> y in key
    ensures SortedBy([h] + t, key, lt)
        <==> (forall y :: y in t ==> !lt(key[y], key[h])) && SortedBy(t, key, lt)
  {
    var r := [h] + t;
    assert forall y :: y in r ==> y == h || y in t;
    if SortedBy(r, key, lt) {
      forall i, j | 0 <= i < j < |t| ensures !lt(key[t[j]], key[t[i]]) {
        assert t[i] == r[i + 1] && t[j] == r[j + 1];
      }
      forall y | y in t ensures !lt(key[y], key[h]) {
        var j :| 0 <= j < |t| && t[j] == y;
        assert r[0] == h && r[j + 1] == y;
      }
    }
    if (forall y :: y in t ==> !lt(key[y], key[h])) && SortedBy(t, key, lt) {
      forall i, j | 0 <= i < j < |r| ensures !lt(key[r[j]], key[r[i]]) {
        assert r[j] == t[j - 1] && r[j] in t;
        if i > 0 {
          assert r[i] == t[i - 1];
        }
      }
    }
  }

  lemma {:induction false} InsertSorted<T, K(!new)>(x: T, t: seq<T>, key: map<T, K>, lt: (K, K) -> bool)
    requires StrictOrder(lt)
    requires x in key && forall y :: y in t ==> y in key
    requires SortedBy(t, key, lt)
    ensures forall y :: y in Insert(x, t, key, lt) ==> y in key
    ensures SortedBy(Insert(x, t, key, lt), key, lt)
  {
    var r := Insert(x, t, key, lt);
    assert forall y :: y in r ==> y in multiset(r);
    if t == [] {
      assert r == [x];
    } else {
      var h := t[0];
      assert t == [h] + t[1..];
      SortedCons(h, t[1..], key, lt);
      if lt(key[x], key[h]) {
        assert r == [x] + t;
        SortedCons(x, t, key, lt);
      } else {
        var rest := Insert(x, t[1..], key, lt);
        InsertSorted(x, t[1..], key, lt);
        assert r == [h] + rest;
        assert forall y :: y in rest ==> y in multiset(rest);
        assert forall y :: y in rest ==> y == x || y in t[1..];
        SortedCons(h, rest, key, lt);
      }
    }
  }

  lemma {:induction false} SortBySorted<T, K(!new)>(s: seq<T>, key: map<T, K>, lt: (K, K) -> bool)
    requires StrictOrder(lt)
    requires forall x :: x in s ==> x in key
    ensures SortedBy(SortBy(s, key, lt), key, lt)
  {
    if s != [] {
      var init := s[..|s| - 1];
      assert forall x :: x in init ==> x in s;
      SortBySorted(init, key, lt);
      InsertSorted(s[|s| - 1], SortBy(init, key, lt), key, lt);
    }
  }

  // ---------------------------------------------------------------- grouping

  /** The elements whose key is `k`, as a keep-set for `Filter`. */
  function WithKey<T, K(==)>(key: map<T, K>, k: K): (r: set<T>)
    ensures forall x :: x in r ==> x in key && key[x] == k
    ensures forall x :: x in key && key[x] == k ==> x in r
  {
    set x | x in key && key[x] == k
  }

  /** The distinct keys of `s`, in order of first occurrence: the keys of `Dictionary(grouping:by:)`. */
  function GroupKeys<T, K(==)>(s: seq<T>, key: map<T, K>): (r: seq<K>)
    requires forall x :: x in s ==> x in key
    ensures forall x :: x in s ==> key[x] in r
    ensures forall k :: k in r ==> exists x :: x in s && key[x] == k
    ensures Distinct(r)
  {
    if s == [] then []
    else
      var ks := GroupKeys(s[..|s| - 1], key);
      assert forall x :: x in s ==> x in s[..|s| - 1] || x == s[|s| - 1];
      if key[s[|s| - 1]] in ks then ks else ks + [key[s[|s| - 1]]]
  }

  /** The identity on the keys `ks`, for sorting keys by themselves. */
  function SelfKeys<K(==)>(ks: seq<K>): (m: map<K, K>)
    ensures forall k :: k in ks ==> k in m && m[k] == k
  {
    map k | k in ks :: k
  }

  /** The sum of the group sums, one group per key in `ks`. */
  function GroupedSum<T, K(==)>(ks: seq<K>, s: seq<T>, key: map<T, K>, value: map<T, real>): (r: real)
    requires forall x :: x in s ==> x in value
  {
    if ks == [] then 0.0
    else GroupedSum(ks[..|ks| - 1], s, key, value) + SumBy(Filter(s, WithKey(key, ks[|ks| - 1])), value)
  }

  /** Appending one element changes only the group of its own key, by its value. */
  lemma GroupSumAppend<T, K>(s: seq<T>, x: T, key: map<T, K>, value: map<T, real>, k: K)
    requires forall y :: y in s ==> y in value
    requires x in key && x in value
    ensures forall y :: y in s + [x] ==> y in value
    ensures SumBy(Filter(s + [x], WithKey(key, k)), value)
         == SumBy(Filter(s, WithKey(key, k)), value) + (if key[x] == k then value[x] else 0.0)
  {
    assert forall y :: y in s + [x] ==> y in s || y == x;
    var keep := WithKey(key, k);
    FilterConcat(s, [x], keep);
    var single := Filter([x], keep);
    assert single == (if key[x] == k then [x] else []) + Filter([], keep);
    SumByConcat(Filter(s, keep), single, value);
    if key[x] == k {
      assert SumBy(single, value) == value[x] + SumBy([x][1..], value);
    }
  }

  lemma {:induction false} GroupedSumAppend<T, K>(ks: seq<K>, s: seq<T>, x: T, key: map<T, K>, value: map<T, real>)
    requires forall y :: y in s ==> y in value
    requires x in key && x in value
    requires Distinct(ks)
    ensures forall y :: y in s + [x] ==> y in value
    ensures GroupedSum(ks, s + [x], key, value)
         == GroupedSum(ks, s, key, value) + (if key[x] in ks then value[x] else 0.0)
  {
    assert forall y :: y in s + [x] ==> y in s || y == x;
    if ks != [] {
      var init, k := ks[..|ks| - 1], ks[|ks| - 1];
      assert ks == init + [k];
      assert Distinct(init) by {
        forall i, j | 0 <= i < j < |init| ensures init[i] != init[j] {
          assert init[i] == ks[i] && init[j] == ks[j];
        }
      }
      GroupedSumAppend(init, s, x, key, value);
      GroupSumAppend(s, x, key, value, k);
      assert k !in init;
      assert key[x] in ks <==> key[x] in init || key[x] == k;
    }
  }

  lemma {:induction false} GroupedSumOfEmpty<T, K>(ks: seq<K>, key: map<T, K>, value: map<T, real>)
    ensures GroupedSum(ks, [], key, value) == 0.0
  {
    if ks != [] {
      GroupedSumOfEmpty(ks[..|ks| - 1], key, value);
    }
  }

  /**
   * Grouping loses and duplicates nothing: for any list of distinct keys that
   * covers every element's key, the group sums add up to the sum of the whole sequence.
   */
  lemma {:induction false} GroupedSumCovering<T, K>(ks: seq<K>, s: seq<T>, key: map<T, K>, value: map<T, real>)
    requires forall x :: x in s ==> x in key && x in value
    requires Distinct(ks)
    requires forall x :: x in s ==> key[x] in ks
    ensures GroupedSum(ks, s, key, value) == SumBy(s, value)
  {
    if s == [] {
      GroupedSumOfEmpty(ks, key, value);
    } else {
      var init, x := s[..|s| - 1], s[|s| - 1];
      assert s == init + [x];
      assert forall y :: y in init ==> y in s;
      GroupedSumCovering(ks, init, key, value);
      GroupedSumAppend(ks, init, x, key, value);
      SumByConcat(init, [x], value);
      assert SumBy([x], value) == value[x] + SumBy([x][1..], value);
    }
  }

  /** In particular for the keys of `Dictionary(grouping:by:)`. */
  lemma GroupedSumIsTotal<T, K>(s: seq<T>, key: map<T, K>, value: map<T, real>)
    requires forall x :: x in s ==> x in key && x in value
    ensures GroupedSum(GroupKeys(s, key), s, key, value) == SumBy(s, value)
  {
    GroupedSumCovering(GroupKeys(s, key), s, key, value);
  }

  /** One `(key, group sum)` pair per key of `ks`, in the order of `ks`. */
  function GroupSums<T, K(==)>(ks: seq<K>, s: seq<T>, key: map<T, K>, value: map<T, real>): (r: seq<(K, real)>)
    requires forall x :: x in s ==> x in value
    ensures |r| == |ks|
    ensures forall i :: 0 <= i < |r| ==> r[i].0 == ks[i]
    ensures forall i :: 0 <= i < |r| ==> r[i].1 == SumBy(Filter(s, WithKey(key, ks[i])), value)
  {
    if ks == [] then []
    else
      var k := ks[|ks| - 1];
      GroupSums(ks[..|ks| - 1], s, key, value) + [(k, SumBy(Filter(s, WithKey(key, k)), value))]
  }

  /** The second components of pairs, as a value map for `SumBy`. */
  function Seconds<K(==)>(ps: seq<(K, real)>): (m: map<(K, real), real>)
    ensures forall p :: p in ps ==> p in m && m[p] == p.1
  {
    map p | p in ps :: p.1
  }

  /** `reduce(0) { $0 + $1.total }` over `(key, total)` pairs. */
  function TotalOf<K(==)>(ps: seq<(K, real)>): (r: real)
  {
    SumBy(ps, Seconds(ps))
  }

  lemma {:induction false} TotalOfGroupSums<T, K>(ks: seq<K>, s: seq<T>, key: map<T, K>, value: map<T, real>)
    requires forall x :: x in s ==> x in value
    ensures TotalOf(GroupSums(ks, s, key, value)) == GroupedSum(ks, s, key, value)
  {
    if ks != [] {
      var init, k := ks[..|ks| - 1], ks[|ks| - 1];
      var front := GroupSums(init, s, key, value);
      var last := (k, SumBy(Filter(s, WithKey(key, k)), value));
      var all := front + [last];
      TotalOfGroupSums(init, s, key, value);
      SumByConcat(front, [last], Seconds(all));
      assert SumBy([last], Seconds(all)) == last.1 + SumBy([last][1..], Seconds(all));
      SumByAgree(front, Seconds(all), Seconds(front));
    }
  }

  /** Reordering the pairs does not change their total. */
  lemma TotalOfPermutation<K>(ps: seq<(K, real)>, qs: seq<(K, real)>)
    requires multiset(ps) == multiset(qs)
    ensures TotalOf(ps) == TotalOf(qs)
  {
    assert forall p :: p in qs ==> p in multiset(ps);
    SumByPermutation(ps, qs, Seconds(ps));
    SumByAgree(qs, Seconds(ps), Seconds(qs));
  }

  /** A reordering of the pairs for the keys `ks` still has a pair for each key of `ks`. */
  lemma PairForKey<K, V>(ks: seq<K>, pairs: seq<(K, V)>, r: seq<(K, V)>, k: K)
    requires |pairs| == |ks| && forall i :: 0 <= i < |pairs| ==> pairs[i].0 == ks[i]
    requires multiset(r) == multiset(pairs)
    requires k in ks
    ensures exists i :: 0 <= i < |r| && r[i].0 == k
  {
    var j :| 0 <= j < |ks| && ks[j] == k;
    assert pairs[j] in multiset(r);
    var i :| 0 <= i < |r| && r[i] == pairs[j];
  }

  /** The first components of the pairs are pairwise different. */
  predicate DistinctFirsts<K(==), V(==)>(ps: seq<(K, V)>)
  {
    forall i, j :: 0 <= i < j < |ps| ==> ps[i].0 != ps[j].0
  }

  /** A reordering of pairs with different first components has different first components. */
  lemma DistinctFirstsPermutation<K, V>(a: seq<(K, V)>, b: seq<(K, V)>)
    requires multiset(a) == multiset(b)
    requires DistinctFirsts(a)
    ensures DistinctFirsts(b)
  {
    assert Distinct(a);
    DistinctPermutation(a, b);
    forall i, j | 0 <= i < j < |b| ensures b[i].0 != b[j].0 {
      assert b[i] in multiset(a) && b[j] in multiset(a);
      var p :| 0 <= p < |a| && a[p] == b[i];
      var q :| 0 <= q < |a| && a[q] == b[j];
      assert p != q;
    }
  }

  /**
   * Grouping by distinct keys gives distinct group keys. Dafny proves this unaided
   * from `GroupSums`' own contract; it is named for the grouping lemmas that call it.
   */
  lemma GroupSumsDistinct<T, K>(ks: seq<K>, s: seq<T>, key: map<T, K>, value: map<T, real>)
    requires forall x :: x in s ==> x in value
    requires Distinct(ks)
    ensures DistinctFirsts(GroupSums(ks, s, key, value))
  {
  }

  // ---------------------------------------------------------------- strings

  /** Swift's `<` on strings, taken as the lexicographic order of the characters' code points. */
  predicate LexLess(a: string, b: string)
  {
    if b == [] then false
    else if a == [] then true
    else a[0] < b[0] || (a[0] == b[0] && LexLess(a[1..], b[1..]))
  }

  lemma {:induction false} LexLessAsymmetric(a: string, b: string)
    ensures LexLess(a, b) ==> !LexLess(b, a)
  {
    if a != [] && b != [] && a[0] == b[0] {
      LexLessAsymmetric(a[1..], b[1..]);
    }
  }

  lemma {:induction false} LexLessTransitive(a: string, b: string, c: string)
    ensures LexLess(a, b) && LexLess(b, c) ==> LexLess(a, c)
  {
    if a != [] && b != [] && c != [] && a[0] == b[0] && b[0] == c[0] {
      LexLessTransitive(a[1..], b[1..], c[1..]);
    }
  }

  /** Two different strings are ordered one way or the other. */
  lemma {:induction false} LexLessTotal(a: string, b: string)
    ensures a != b ==> LexLess(a, b) || LexLess(b, a)
  {
    if a != [] && b != [] && a[0] == b[0] {
      LexLessTotal(a[1..], b[1..]);
      assert a == [a[0]] + a[1..] && b == [b[0]] + b[1..];
    }
  }

  lemma LexLessIsStrictOrder()
    ensures StrictOrder(LexLess)
  {
    forall a, b { LexLessAsymmetric(a, b); }
    forall a, b, c { LexLessTransitive(a, b, c); }
  }
}
