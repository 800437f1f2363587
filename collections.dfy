/**
 * Generic sequence helpers shared by the expense engine: filtering
 * (`Array.prototype.filter`), summing (`reduce((sum, x) => sum + f(x), 0)`),
 * and the grouping a JavaScript object performs when a `forEach` fills it
 * key by key (the keys in first-encountered order, and per key the elements
 * carrying it).
 */
module Collections {

  /** A value that may be missing (`undefined` in the source). */
  datatype Option<T> = None | Some(value: T)

  // ---------------------------------------------------------------------
  // Search
  // ---------------------------------------------------------------------

  /** `s.findIndex(p)`: the first position satisfying `p`, or -1. */
  function FindIndex<T>(s: seq<T>, p: T -> bool): (i: int)
    ensures -1 <= i < |s|
    ensures 0 <= i ==> p(s[i]) && forall j :: 0 <= j < i ==> !p(s[j])
    ensures i == -1 ==> forall j :: 0 <= j < |s| ==> !p(s[j])
  {
    if s == [] then -1
    else if p(s[0]) then 0
    else
      var k := FindIndex(s[1..], p);
      if k == -1 then -1 else k + 1
  }

  /** `s.find(p)`: the first element satisfying `p`, if any. */
  function Find<T>(s: seq<T>, p: T -> bool): (r: Option<T>)
    ensures r.Some? <==> exists j :: 0 <= j < |s| && p(s[j])
    ensures r.Some? ==> exists i :: 0 <= i < |s| && s[i] == r.value && p(s[i]) && forall j :: 0 <= j < i ==> !p(s[j])
  {
    var i := FindIndex(s, p);
    if 0 <= i then Some(s[i]) else None
  }

  // ---------------------------------------------------------------------
  // Filter
  // ---------------------------------------------------------------------

  /** `s.filter(p)`: the elements of `s` satisfying `p`, in their order. */
  function Filter<T>(s: seq<T>, p: T -> bool): (r: seq<T>)
    ensures |r| <= |s|
  {
    if s == [] then []
    else Filter(s[..|s| - 1], p) + (if p(s[|s| - 1]) then [s[|s| - 1]] else [])
  }

  /** Filter keeps exactly the elements of `s` that satisfy `p`. */
  lemma {:induction false} FilterMembers<T>(s: seq<T>, p: T -> bool)
    ensures forall x :: x in Filter(s, p) ==> x in s && p(x)
    ensures forall x :: x in s && p(x) ==> x in Filter(s, p)
  {
    if s != [] {
      FilterMembers(s[..|s| - 1], p);
      assert s == s[..|s| - 1] + [s[|s| - 1]];
    }
  }

  lemma {:induction false} FilterConcat<T>(a: seq<T>, b: seq<T>, p: T -> bool)
    ensures Filter(a + b, p) == Filter(a, p) + Filter(b, p)
    decreases |b|
  {
    if b == [] {
      assert a + b == a;
    } else {
      var b' := b[..|b| - 1];
      assert (a + b)[..|a + b| - 1] == a + b';
      FilterConcat(a, b', p);
    }
  }

  /** Filtering a sequence whose elements all pass gives it back unchanged. */
  lemma {:induction false} FilterAllPass<T>(s: seq<T>, p: T -> bool)
    requires forall x :: x in s ==> p(x)
    ensures Filter(s, p) == s
  {
    if s != [] {
      FilterAllPass(s[..|s| - 1], p);
      assert s == s[..|s| - 1] + [s[|s| - 1]];
    }
  }

  /** Filtering a sequence none of whose elements pass gives nothing. */
  lemma {:induction false} FilterNonePass<T>(s: seq<T>, p: T -> bool)
    requires forall x :: x in s ==> !p(x)
    ensures Filter(s, p) == []
  {
    if s != [] {
      FilterNonePass(s[..|s| - 1], p);
      assert s[|s| - 1] in s;
    }
  }

  /** Filtering twice with the same predicate is filtering once. */
  lemma FilterIdempotent<T>(s: seq<T>, p: T -> bool)
    ensures Filter(Filter(s, p), p) == Filter(s, p)
  {
    FilterMembers(s, p);
    FilterAllPass(Filter(s, p), p);
  }

  /** With `p` implying `q` everywhere, `q` keeps at least as many elements. */
  lemma {:induction false} FilterMonotone<T>(s: seq<T>, p: T -> bool, q: T -> bool)
    requires forall x :: p(x) ==> q(x)
    ensures |Filter(s, p)| <= |Filter(s, q)|
  {
    if s != [] {
      FilterMonotone(s[..|s| - 1], p, q);
    }
  }

  /**
   * Filter keeps exactly the elements satisfying `p`, in index order: there
   * is a strictly increasing list of positions of `s` that Filter's result
   * reads off, and it names every position whose element satisfies `p`.
   */
  lemma {:induction false} FilterIndices<T>(s: seq<T>, p: T -> bool) returns (idx: seq<nat>)
    ensures |idx| == |Filter(s, p)|
    ensures forall j :: 0 <= j < |idx| ==> idx[j] < |s| && Filter(s, p)[j] == s[idx[j]]
    ensures forall j, k :: 0 <= j < k < |idx| ==> idx[j] < idx[k]
    ensures forall i :: 0 <= i < |s| && p(s[i]) ==> i in idx
  {
    if s == [] {
      idx := [];
    } else {
      var n := |s| - 1;
      var s' := s[..n];
      var idx' := FilterIndices(s', p);
      if p(s[n]) {
        idx := idx' + [n];
      } else {
        idx := idx';
      }
    }
  }

  /** Two positions whose elements satisfy `p` leave at least two elements after filtering. */
  lemma {:induction false} FilterKeepsTwo<T>(s: seq<T>, p: T -> bool, i: nat, j: nat)
    requires i < j < |s| && p(s[i]) && p(s[j])
    ensures |Filter(s, p)| >= 2
  {
    var n := |s| - 1;
    if j == n {
      FilterMembers(s[..n], p);
      assert s[i] in s[..n];
      assert s[i] in Filter(s[..n], p);
    } else {
      FilterKeepsTwo(s[..n], p, i, j);
    }
  }

  /** The elements of `s` in the opposite order. */
  function Reverse<T>(s: seq<T>): (r: seq<T>)
    ensures |r| == |s|
  {
    seq(|s|, i requires 0 <= i < |s| => s[|s| - 1 - i])
  }

  lemma ReverseSnoc<T>(s: seq<T>, x: T)
    ensures Reverse(s + [x]) == [x] + Reverse(s)
  {
    assert Reverse(s + [x])[0] == x;
    forall i | 1 <= i <= |s|
      ensures Reverse(s + [x])[i] == Reverse(s)[i - 1]
    {
    }
  }

  lemma ReverseShort<T>(s: seq<T>)
    requires |s| <= 1
    ensures Reverse(s) == s
  {
  }

  /** Filtering a reversed sequence is reversing the filtered one. */
  lemma {:induction false} FilterReverse<T>(s: seq<T>, p: T -> bool)
    ensures Filter(Reverse(s), p) == Reverse(Filter(s, p))
  {
    if s != [] {
      var n := |s| - 1;
      var s', x := s[..n], s[n];
      assert s == s' + [x];
      ReverseSnoc(s', x);
      FilterConcat([x], Reverse(s'), p);
      assert [x][..0] == [];
      FilterReverse(s', p);
      if p(x) {
        ReverseSnoc(Filter(s', p), x);
      }
    }
  }

  // ---------------------------------------------------------------------
  // Sums
  // ---------------------------------------------------------------------

  /** `s.reduce((sum, x) => sum + f(x), 0)`, added up from the left. */
  function SumOf<T>(s: seq<T>, f: T -> real): real
  {
    if s == [] then 0.0 else SumOf(s[..|s| - 1], f) + f(s[|s| - 1])
  }

  lemma {:induction false} SumOfConcat<T>(a: seq<T>, b: seq<T>, f: T -> real)
    ensures SumOf(a + b, f) == SumOf(a, f) + SumOf(b, f)
    decreases |b|
  {
    if b == [] {
      assert a + b == a;
    } else {
      var b' := b[..|b| - 1];
      assert (a + b)[..|a + b| - 1] == a + b';
      SumOfConcat(a, b', f);
    }
  }

  /** Positive weights on a non-empty sequence give a positive sum. */
  lemma {:induction false} SumOfPositive<T>(s: seq<T>, f: T -> real)
    requires s != []
    requires forall x :: x in s ==> f(x) > 0.0
    ensures SumOf(s, f) > 0.0
  {
    var n := |s| - 1;
    assert s[n] in s;
    if n > 0 {
      forall x | x in s[..n] ensures f(x) > 0.0 {
        assert x in s;
      }
      SumOfPositive(s[..n], f);
    } else {
      assert s[..n] == [];
    }
  }

  /** With non-negative weights, a filter never sums to more than the whole. */
  lemma {:induction false} SumOfFilterMonotone<T>(s: seq<T>, p: T -> bool, q: T -> bool, f: T -> real)
    requires forall x :: p(x) ==> q(x)
    requires forall x :: x in s ==> f(x) >= 0.0
    ensures SumOf(Filter(s, p), f) <= SumOf(Filter(s, q), f)
  {
    if s != [] {
      var n := |s| - 1;
      SumOfFilterMonotone(s[..n], p, q, f);
      var tp := if p(s[n]) then [s[n]] else [];
      var tq := if q(s[n]) then [s[n]] else [];
      SumOfConcat(Filter(s[..n], p), tp, f);
      SumOfConcat(Filter(s[..n], q), tq, f);
      assert SumOf(tp, f) <= SumOf(tq, f) by {
        assert s[n] in s;
        if p(s[n]) { assert [s[n]][..0] == []; }
        if q(s[n]) { assert [s[n]][..0] == []; }
      }
    }
  }

  /** With non-negative weights, a filter sums to at most the whole sequence. */
  lemma SumOfFilterAtMost<T>(s: seq<T>, p: T -> bool, f: T -> real)
    requires forall x :: x in s ==> f(x) >= 0.0
    ensures SumOf(Filter(s, p), f) <= SumOf(s, f)
  {
    var all := (x: T) => true;
    SumOfFilterMonotone(s, p, all, f);
    FilterAllPass(s, all);
  }

  // ---------------------------------------------------------------------
  // Grouping by a key
  // ---------------------------------------------------------------------

  /** Some element of `s` has key `k`. */
  ghost predicate HasKey<T, K>(s: seq<T>, g: T -> K, k: K)
  {
    exists x :: x in s && g(x) == k
  }

  ghost predicate NoDuplicates<K>(ks: seq<K>)
  {
    forall i, j :: 0 <= i < j < |ks| ==> ks[i] != ks[j]
  }

  /**
   * The keys, in the order a `forEach` that does `if (!obj[g(x)]) obj[g(x)] = ...`
   * first creates them: each key once, at its first occurrence.
   */
  function DistinctKeys<T, K(==)>(s: seq<T>, g: T -> K): (ks: seq<K>)
    ensures forall k :: k in ks ==> HasKey(s, g, k)
    ensures forall x :: x in s ==> g(x) in ks
  {
    if s == [] then []
    else
      var n := |s| - 1;
      assert s == s[..n] + [s[n]];
      var ks := DistinctKeys(s[..n], g);
      if g(s[n]) in ks then ks else ks + [g(s[n])]
  }

  /** The predicate "has key `k`", the one every caller shares. */
  function KeyIs<T, K(==)>(g: T -> K, k: K): T -> bool
  {
    x => g(x) == k
  }

  /** The elements of `s` with key `k`, in their order (one bucket of the grouping). */
  function WithKey<T, K(==)>(s: seq<T>, g: T -> K, k: K): (r: seq<T>)
  {
    Filter(s, KeyIs(g, k))
  }

  /** A bucket holds exactly the elements of `s` with its key. */
  lemma WithKeyMembers<T, K>(s: seq<T>, g: T -> K, k: K)
    ensures forall x :: x in WithKey(s, g, k) ==> x in s && g(x) == k
    ensures forall x :: x in s && g(x) == k ==> x in WithKey(s, g, k)
  {
    FilterMembers(s, KeyIs(g, k));
  }

  lemma WithKeySnoc<T, K>(s: seq<T>, x: T, g: T -> K, k: K)
    ensures WithKey(s + [x], g, k) == WithKey(s, g, k) + (if g(x) == k then [x] else [])
  {
    assert (s + [x])[..|s|] == s;
  }

  /** Two positions with the same key put at least two elements in its bucket. */
  lemma WithKeyKeepsTwo<T, K>(s: seq<T>, g: T -> K, i: nat, j: nat)
    requires i < j < |s| && g(s[i]) == g(s[j])
    ensures |WithKey(s, g, g(s[i]))| >= 2
  {
    FilterKeepsTwo(s, KeyIs(g, g(s[i])), i, j);
  }

  /** When no two positions share a key, every bucket holds at most one element. */
  lemma WithKeyAtMostOne<T, K>(s: seq<T>, g: T -> K, k: K)
    requires forall i, j :: 0 <= i < j < |s| ==> g(s[i]) != g(s[j])
    ensures |WithKey(s, g, k)| <= 1
  {
    if |WithKey(s, g, k)| >= 2 {
      var i, j := TwoInBucket(s, g, k);
      assert false;
    }
  }

  /** A bucket of two or more elements draws them from two positions of `s`. */
  lemma TwoInBucket<T, K>(s: seq<T>, g: T -> K, k: K) returns (i: nat, j: nat)
    requires |WithKey(s, g, k)| >= 2
    ensures i < j < |s| && g(s[i]) == k && g(s[j]) == k
  {
    var w := WithKey(s, g, k);
    var idx := FilterIndices(s, KeyIs(g, k));
    WithKeyMembers(s, g, k);
    assert w[0] in w && w[1] in w;
    i, j := idx[0], idx[1];
  }

  /** A key absent from `s` has an empty bucket. */
  lemma WithKeyMissing<T, K>(s: seq<T>, g: T -> K, k: K)
    ensures HasKey(s, g, k) || WithKey(s, g, k) == []
  {
    if WithKey(s, g, k) != [] {
      var x := WithKey(s, g, k)[0];
      assert x in WithKey(s, g, k);
      WithKeyMembers(s, g, k);
    }
  }

  /** A key that is not among the distinct keys has an empty bucket. */
  lemma WithKeyAbsent<T, K>(s: seq<T>, g: T -> K, k: K)
    requires k !in DistinctKeys(s, g)
    ensures WithKey(s, g, k) == []
  {
    WithKeyMissing(s, g, k);
    if HasKey(s, g, k) {
      assert false;
    }
  }

  /** Appending an element adds its key at the end, unless the key is already there. */
  lemma DistinctKeysSnoc<T, K>(s: seq<T>, x: T, g: T -> K)
    ensures DistinctKeys(s + [x], g) == if g(x) in DistinctKeys(s, g) then DistinctKeys(s, g) else DistinctKeys(s, g) + [g(x)]
  {
    assert (s + [x])[..|s|] == s;
  }

  /** Appending an element adds its weight to its own bucket's sum and to no other. */
  lemma WithKeySumSnoc<T, K>(s: seq<T>, x: T, g: T -> K, f: T -> real, k: K)
    ensures SumOf(WithKey(s + [x], g, k), f) == SumOf(WithKey(s, g, k), f) + (if g(x) == k then f(x) else 0.0)
    ensures |WithKey(s + [x], g, k)| == |WithKey(s, g, k)| + (if g(x) == k then 1 else 0)
  {
    WithKeySnoc(s, x, g, k);
    var tail := if g(x) == k then [x] else [];
    SumOfConcat(WithKey(s, g, k), tail, f);
    assert [x][..0] == [];
  }

  // ---------------------------------------------------------------------
  // Accumulating into a dictionary
  // ---------------------------------------------------------------------

  /** Folds `step` over `s` from `init`, left to right. */
  function Fold<T, V>(s: seq<T>, init: V, step: (V, T) -> V): V
  {
    if s == [] then init else step(Fold(s[..|s| - 1], init, step), s[|s| - 1])
  }

  /**
   * The dictionary a `forEach` over `s` builds with
   * `acc[g(x)] = step(acc[g(x)] || init, x)`.
   */
  function Accumulate<T, K, V>(s: seq<T>, g: T -> K, init: V, step: (V, T) -> V): map<K, V>
  {
    if s == [] then map[]
    else
      var n := |s| - 1;
      var acc := Accumulate(s[..n], g, init, step);
      acc[g(s[n]) := step(if g(s[n]) in acc then acc[g(s[n])] else init, s[n])]
  }

  /** One more element: the dictionary gains or updates that element's key. */
  lemma AccumulateStep<T, K, V>(s: seq<T>, i: nat, g: T -> K, init: V, step: (V, T) -> V)
    requires i < |s|
    ensures var acc := Accumulate(s[..i], g, init, step);
      Accumulate(s[..i + 1], g, init, step) == acc[g(s[i]) := step(if g(s[i]) in acc then acc[g(s[i])] else init, s[i])]
    ensures g(s[i]) in Accumulate(s[..i], g, init, step) <==> g(s[i]) in DistinctKeys(s[..i], g)
    ensures DistinctKeys(s[..i + 1], g)
         == if g(s[i]) in DistinctKeys(s[..i], g) then DistinctKeys(s[..i], g) else DistinctKeys(s[..i], g) + [g(s[i])]
  {
    assert s[..i + 1][..i] == s[..i];
    AccumulateDomain(s[..i], g, init, step, g(s[i]));
  }

  /** The dictionary's keys are exactly the keys that occur in `s`. */
  lemma {:induction false} AccumulateDomain<T, K, V>(s: seq<T>, g: T -> K, init: V, step: (V, T) -> V, k: K)
    ensures k in Accumulate(s, g, init, step) <==> k in DistinctKeys(s, g)
  {
    if s != [] {
      AccumulateDomain(s[..|s| - 1], g, init, step, k);
    }
  }

  /** Under each key, the dictionary holds the fold over that key's bucket. */
  lemma {:induction false} AccumulateValue<T, K, V>(s: seq<T>, g: T -> K, init: V, step: (V, T) -> V, k: K)
    requires k in Accumulate(s, g, init, step)
    ensures Accumulate(s, g, init, step)[k] == Fold(WithKey(s, g, k), init, step)
  {
    var n := |s| - 1;
    var prefix := s[..n];
    assert prefix + [s[n]] == s;
    WithKeySnoc(prefix, s[n], g, k);
    var w := WithKey(prefix, g, k);
    if g(s[n]) == k {
      if k in Accumulate(prefix, g, init, step) {
        AccumulateValue(prefix, g, init, step, k);
      } else {
        AccumulateDomain(prefix, g, init, step, k);
        WithKeyAbsent(prefix, g, k);
      }
      assert WithKey(s, g, k)[..|w|] == w;
    } else {
      assert WithKey(s, g, k) == w;
      AccumulateValue(prefix, g, init, step, k);
    }
  }

  /** The step `v.push(x)` of a bucket. */
  function Append<T>(): (seq<T>, T) -> seq<T>
  {
    (v: seq<T>, x: T) => v + [x]
  }

  /** Applies the `Append()` closure, so that callers have a term to trigger on. */
  lemma AppendApply<T>(v: seq<T>, x: T)
    ensures Append()(v, x) == v + [x]
  {
  }

  /** Folding `Append()` from the empty bucket rebuilds the sequence. */
  lemma {:induction false} FoldAppend<T>(s: seq<T>)
    ensures Fold(s, [], Append()) == s
  {
    if s != [] {
      var n := |s| - 1;
      assert s == s[..n] + [s[n]];
      FoldAppend(s[..n]);
      AppendApply(s[..n], s[n]);
    }
  }

  /**
   * The dictionary of a `forEach` that creates `acc[g(x)] = []` at a key's
   * first use and pushes `x` onto it holds, for exactly the keys of `s`,
   * each key's bucket in input order.
   */
  lemma GroupMeaning<T, K>(s: seq<T>, g: T -> K, acc: map<K, seq<T>>)
    requires acc == Accumulate(s, g, [], Append())
    ensures forall k :: k in acc <==> k in DistinctKeys(s, g)
    ensures forall k :: k in acc ==> acc[k] == WithKey(s, g, k)
  {
    forall k
      ensures k in acc <==> k in DistinctKeys(s, g)
    {
      AccumulateDomain(s, g, [], Append(), k);
    }
    forall k | k in acc
      ensures acc[k] == WithKey(s, g, k)
    {
      AccumulateValue(s, g, [], Append(), k);
      FoldAppend(WithKey(s, g, k));
    }
  }

  /** The step `v + f(x)` of a running sum. */
  function AddTo<T>(f: T -> real): (real, T) -> real
  {
    (v: real, x: T) => v + f(x)
  }

  /** Applies the `AddTo(f)` closure, so that callers have a term to trigger on. */
  lemma AddToApply<T>(f: T -> real, v: real, x: T)
    ensures AddTo(f)(v, x) == v + f(x)
  {
  }

  /** Folding `AddTo(f)` from zero is the sum. */
  lemma {:induction false} FoldAddTo<T>(s: seq<T>, f: T -> real)
    ensures Fold(s, 0.0, AddTo(f)) == SumOf(s, f)
  {
    if s != [] {
      FoldAddTo(s[..|s| - 1], f);
    }
  }

  /**
   * The dictionary of a `forEach` that keeps `acc[g(x)] = (acc[g(x)] || 0) + f(x)`
   * holds, for exactly the keys of `s`, the sum of each key's bucket.
   */
  lemma KeyedTotalsMeaning<T, K>(s: seq<T>, g: T -> K, f: T -> real, acc: map<K, real>)
    requires acc == Accumulate(s, g, 0.0, AddTo(f))
    ensures forall k :: k in acc <==> k in DistinctKeys(s, g)
    ensures forall k :: k in acc ==> acc[k] == SumOf(WithKey(s, g, k), f)
  {
    forall k
      ensures k in acc <==> k in DistinctKeys(s, g)
    {
      AccumulateDomain(s, g, 0.0, AddTo(f), k);
    }
    forall k | k in acc
      ensures acc[k] == SumOf(WithKey(s, g, k), f)
    {
      AccumulateValue(s, g, 0.0, AddTo(f), k);
      FoldAddTo(WithKey(s, g, k), f);
    }
  }

  lemma {:induction false} DistinctKeysNoDuplicates<T, K>(s: seq<T>, g: T -> K)
    ensures NoDuplicates(DistinctKeys(s, g))
  {
    if s != [] {
      DistinctKeysNoDuplicates(s[..|s| - 1], g);
    }
  }

  /** A key occurs in a non-empty sequence iff it occurs before the last element or is the last one's. */
  lemma HasKeyLast<T, K>(s: seq<T>, g: T -> K, k: K)
    requires s != []
    ensures HasKey(s, g, k) <==> HasKey(s[..|s| - 1], g, k) || g(s[|s| - 1]) == k
  {
    var n := |s| - 1;
    assert s == s[..n] + [s[n]];
    if HasKey(s, g, k) && g(s[n]) != k {
      var x :| x in s && g(x) == k;
      assert x in s[..n];
    }
    if g(s[n]) == k {
      assert s[n] in s;
    }
    if HasKey(s[..n], g, k) {
      var x :| x in s[..n] && g(x) == k;
      assert x in s;
    }
  }

  /** Each key that occurs in `s` is listed exactly once, and no other value is. */
  lemma {:induction false} DistinctKeysOnce<T, K>(s: seq<T>, g: T -> K, k: K)
    ensures multiset(DistinctKeys(s, g))[k] == if HasKey(s, g, k) then 1 else 0
  {
    if s == [] {
    } else {
      var n := |s| - 1;
      var ks := DistinctKeys(s[..n], g);
      DistinctKeysOnce(s[..n], g, k);
      DistinctKeysOnce(s[..n], g, g(s[n]));
      HasKeyLast(s, g, k);
      if g(s[n]) !in ks {
        assert DistinctKeys(s, g) == ks + [g(s[n])];
        assert multiset(ks + [g(s[n])]) == multiset(ks) + multiset{g(s[n])};
      } else {
        assert DistinctKeys(s, g) == ks;
      }
    }
  }

  /** The set of key values occurring in `s`. */
  ghost function KeySet<T, K>(s: seq<T>, g: T -> K): set<K>
  {
    set x | x in s :: g(x)
  }

  /** The number of keys is the number of distinct key values. */
  lemma DistinctKeysCardinality<T, K>(s: seq<T>, g: T -> K)
    ensures |DistinctKeys(s, g)| == |KeySet(s, g)|
  {
    var ks := DistinctKeys(s, g);
    DistinctKeysNoDuplicates(s, g);
    NoDuplicatesCardinality(ks);
    assert (set k | k in ks) == (set x | x in s :: g(x)) by {
      forall k | k in ks ensures k in (set x | x in s :: g(x)) {
        assert HasKey(s, g, k);
        var x :| x in s && g(x) == k;
      }
    }
  }

  lemma {:induction false} NoDuplicatesCardinality<K>(ks: seq<K>)
    requires NoDuplicates(ks)
    ensures |set k | k in ks| == |ks|
  {
    if ks != [] {
      var n := |ks| - 1;
      NoDuplicatesCardinality(ks[..n]);
      assert (set k | k in ks) == (set k | k in ks[..n]) + {ks[n]} by {
        assert ks == ks[..n] + [ks[n]];
      }
      assert ks[n] !in (set k | k in ks[..n]);
    }
  }

  /** Sum over the buckets of the keys `ks`: `sum_{k in ks} sum_{x in s, g(x) = k} f(x)`. */
  function KeyedSum<T, K(==)>(ks: seq<K>, s: seq<T>, g: T -> K, f: T -> real): real
  {
    if ks == [] then 0.0
    else KeyedSum(ks[..|ks| - 1], s, g, f) + SumOf(WithKey(s, g, ks[|ks| - 1]), f)
  }

  /** Total size of the buckets of the keys `ks`. */
  function KeyedCount<T, K(==)>(ks: seq<K>, s: seq<T>, g: T -> K): nat
  {
    if ks == [] then 0
    else KeyedCount(ks[..|ks| - 1], s, g) + |WithKey(s, g, ks[|ks| - 1])|
  }

  lemma {:induction false} KeyedSumSnoc<T, K>(ks: seq<K>, s: seq<T>, x: T, g: T -> K, f: T -> real)
    requires NoDuplicates(ks)
    ensures KeyedSum(ks, s + [x], g, f) == KeyedSum(ks, s, g, f) + (if g(x) in ks then f(x) else 0.0)
  {
    if ks != [] {
      var n := |ks| - 1;
      var k := ks[n];
      assert ks == ks[..n] + [k];
      KeyedSumSnoc(ks[..n], s, x, g, f);
      WithKeySnoc(s, x, g, k);
      SumOfConcat(WithKey(s, g, k), if g(x) == k then [x] else [], f);
      if g(x) == k {
        assert [x][..0] == [];
        assert g(x) !in ks[..n];
      }
    }
  }

  lemma {:induction false} KeyedCountSnoc<T, K>(ks: seq<K>, s: seq<T>, x: T, g: T -> K)
    requires NoDuplicates(ks)
    ensures KeyedCount(ks, s + [x], g) == KeyedCount(ks, s, g) + (if g(x) in ks then 1 else 0)
  {
    if ks != [] {
      var n := |ks| - 1;
      var k := ks[n];
      assert ks == ks[..n] + [k];
      KeyedCountSnoc(ks[..n], s, x, g);
      WithKeySnoc(s, x, g, k);
      if g(x) == k {
        assert g(x) !in ks[..n];
      }
    }
  }

  /** The buckets of all keys together sum to the whole: grouping loses and doubles nothing. */
  lemma {:induction false} PartitionSum<T, K>(s: seq<T>, g: T -> K, f: T -> real)
    ensures KeyedSum(DistinctKeys(s, g), s, g, f) == SumOf(s, f)
  {
    if s != [] {
      var n := |s| - 1;
      var s', x := s[..n], s[n];
      assert s == s' + [x];
      var ks := DistinctKeys(s', g);
      PartitionSum(s', g, f);
      DistinctKeysNoDuplicates(s', g);
      KeyedSumSnoc(ks, s', x, g, f);
      if g(x) !in ks {
        NewKeyBucketSum(s', x, g, f);
        var ks2 := ks + [g(x)];
        assert ks2[..|ks2| - 1] == ks;
      }
    }
  }

  /** A key met for the first time at the last element has that element alone in its bucket. */
  lemma NewKeyBucketSum<T, K>(s: seq<T>, x: T, g: T -> K, f: T -> real)
    requires g(x) !in DistinctKeys(s, g)
    ensures WithKey(s + [x], g, g(x)) == [x]
    ensures SumOf(WithKey(s + [x], g, g(x)), f) == f(x)
  {
    WithKeyMissing(s, g, g(x));
    WithKeySnoc(s, x, g, g(x));
    assert [x][..0] == [];
  }

  /** The bucket sizes of all keys add up to the length of `s`. */
  lemma {:induction false} PartitionCount<T, K>(s: seq<T>, g: T -> K)
    ensures KeyedCount(DistinctKeys(s, g), s, g) == |s|
  {
    if s != [] {
      var n := |s| - 1;
      var s', x := s[..n], s[n];
      assert s == s' + [x];
      var ks := DistinctKeys(s', g);
      PartitionCount(s', g);
      DistinctKeysNoDuplicates(s', g);
      KeyedCountSnoc(ks, s', x, g);
      if g(x) !in ks {
        NewKeyBucketSum(s', x, g, _ => 0.0);
        var ks2 := ks + [g(x)];
        assert ks2[..|ks2| - 1] == ks;
      }
    }
  }
}
