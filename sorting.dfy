/**
 * `Array.prototype.sort(cmp)` with a comparator that subtracts one numeric
 * key from another. ECMAScript 2019 (section 22.1.3.27) requires the sort to
 * be stable, so its result is determined by the input: the elements ordered
 * by key, elements with equal keys in their input order. `StableSorted`
 * defines that result (as an insertion sort); `StableSortedUnique` shows
 * that any stable sort produces the same sequence, and `SortInPlace` is the
 * in-place algorithm proved to compute it.
 */
module Sorting {
  import opened Collections

  /**
   * The comparator is positive on `(a, b)`: `key(a) - key(b) > 0` in
   * ascending order, `key(b) - key(a) > 0` in descending order, so `a`
   * belongs after `b`.
   */
  predicate After<T>(a: T, b: T, key: T -> real, desc: bool)
  {
    Rank(a, key, desc) > Rank(b, key, desc)
  }

  /** The key, negated in descending order, so that `After` is one comparison. */
  function Rank<T>(x: T, key: T -> real, desc: bool): real
  {
    if desc then -key(x) else key(x)
  }

  /** No element is followed by one it belongs after. */
  ghost predicate SortedBy<T>(s: seq<T>, key: T -> real, desc: bool)
  {
    forall i, j :: 0 <= i < j < |s| ==> !After(s[i], s[j], key, desc)
  }

  /** Put `x` behind every element it does not belong before (so behind all its ties). */
  function Insert<T>(s: seq<T>, x: T, key: T -> real, desc: bool): (r: seq<T>)
    ensures |r| == |s| + 1
  {
    if s == [] then [x]
    else if After(s[|s| - 1], x, key, desc) then Insert(s[..|s| - 1], x, key, desc) + [s[|s| - 1]]
    else s + [x]
  }

  /** The stable sort of `s`: each element inserted, in input order, into the sorted prefix. */
  function StableSorted<T>(s: seq<T>, key: T -> real, desc: bool): (r: seq<T>)
    ensures |r| == |s|
  {
    if s == [] then []
    else Insert(StableSorted(s[..|s| - 1], key, desc), s[|s| - 1], key, desc)
  }

  // ---------------------------------------------------------------------
  // The result is a permutation
  // ---------------------------------------------------------------------

  lemma {:induction false} InsertPermutes<T>(s: seq<T>, x: T, key: T -> real, desc: bool)
    ensures multiset(Insert(s, x, key, desc)) == multiset(s) + multiset{x}
  {
    if s != [] {
      var n := |s| - 1;
      assert s == s[..n] + [s[n]];
      if After(s[n], x, key, desc) {
        InsertPermutes(s[..n], x, key, desc);
      }
    }
  }

  /** Sorting neither adds, drops nor duplicates an element. */
  lemma {:induction false} StableSortedPermutes<T>(s: seq<T>, key: T -> real, desc: bool)
    ensures multiset(StableSorted(s, key, desc)) == multiset(s)
  {
    if s != [] {
      var n := |s| - 1;
      assert s == s[..n] + [s[n]];
      StableSortedPermutes(s[..n], key, desc);
      InsertPermutes(StableSorted(s[..n], key, desc), s[n], key, desc);
    }
  }

  // ---------------------------------------------------------------------
  // The result is ordered
  // ---------------------------------------------------------------------

  lemma SortedPrefix<T>(s: seq<T>, key: T -> real, desc: bool, m: nat)
    requires SortedBy(s, key, desc) && m <= |s|
    ensures SortedBy(s[..m], key, desc)
  {
    assert forall i :: 0 <= i < m ==> s[..m][i] == s[i];
  }

  /** In an ordered sequence no element has a larger rank than the last. */
  lemma SortedLastIsGreatest<T>(s: seq<T>, key: T -> real, desc: bool, y: T)
    requires SortedBy(s, key, desc) && y in s
    ensures Rank(y, key, desc) <= Rank(s[|s| - 1], key, desc)
  {
    var i :| 0 <= i < |s| && s[i] == y;
    if i < |s| - 1 {
      assert !After(s[i], s[|s| - 1], key, desc);
    }
  }

  lemma {:induction false} InsertSorted<T>(s: seq<T>, x: T, key: T -> real, desc: bool)
    requires SortedBy(s, key, desc)
    ensures SortedBy(Insert(s, x, key, desc), key, desc)
  {
    if s != [] {
      var n := |s| - 1;
      var last := s[n];
      if After(last, x, key, desc) {
        var s' := s[..n];
        SortedPrefix(s, key, desc, n);
        InsertSorted(s', x, key, desc);
        var t := Insert(s', x, key, desc);
        InsertPermutes(s', x, key, desc);
        forall i | 0 <= i < |t| ensures Rank(t[i], key, desc) <= Rank(last, key, desc) {
          assert t[i] in multiset(t);
          if t[i] != x {
            assert t[i] in multiset(s');
            assert t[i] in s;
            SortedLastIsGreatest(s, key, desc, t[i]);
          }
        }
        assert forall i :: 0 <= i < |t| ==> (t + [last])[i] == t[i];
      } else {
        forall i | 0 <= i < |s| ensures Rank(s[i], key, desc) <= Rank(x, key, desc) {
          SortedLastIsGreatest(s, key, desc, s[i]);
        }
      }
    }
  }

  /** The result is non-decreasing (ascending) or non-increasing (descending) by key. */
  lemma {:induction false} StableSortedIsSorted<T>(s: seq<T>, key: T -> real, desc: bool)
    ensures SortedBy(StableSorted(s, key, desc), key, desc)
  {
    if s != [] {
      StableSortedIsSorted(s[..|s| - 1], key, desc);
      InsertSorted(StableSorted(s[..|s| - 1], key, desc), s[|s| - 1], key, desc);
    }
  }

  // ---------------------------------------------------------------------
  // Ties keep their input order
  // ---------------------------------------------------------------------

  lemma {:induction false} InsertKeepsTies<T>(s: seq<T>, x: T, key: T -> real, desc: bool, v: real)
    ensures WithKey(Insert(s, x, key, desc), key, v) == WithKey(s, key, v) + (if key(x) == v then [x] else [])
  {
    if s != [] {
      var n := |s| - 1;
      var s', last := s[..n], s[n];
      assert s == s' + [last];
      WithKeySnoc(s', last, key, v);
      if After(last, x, key, desc) {
        InsertKeepsTies(s', x, key, desc, v);
        WithKeySnoc(Insert(s', x, key, desc), last, key, v);
      } else {
        WithKeySnoc(s, x, key, v);
      }
    } else {
      WithKeySnoc([], x, key, v);
    }
  }

  /** For every key value, the elements carrying it come out in the order they went in. */
  lemma {:induction false} StableSortedKeepsTies<T>(s: seq<T>, key: T -> real, desc: bool, v: real)
    ensures WithKey(StableSorted(s, key, desc), key, v) == WithKey(s, key, v)
  {
    if s != [] {
      var n := |s| - 1;
      assert s == s[..n] + [s[n]];
      StableSortedKeepsTies(s[..n], key, desc, v);
      InsertKeepsTies(StableSorted(s[..n], key, desc), s[n], key, desc, v);
      WithKeySnoc(s[..n], s[n], key, v);
    }
  }

  // ---------------------------------------------------------------------
  // Any stable sort gives this result
  // ---------------------------------------------------------------------

  /** A non-empty sequence has an element of the key of its first element. */
  lemma WithKeyOfFirst<T>(r: seq<T>, key: T -> real)
    requires r != []
    ensures WithKey(r, key, key(r[0])) != []
  {
    WithKeyMembers(r, key, key(r[0]));
    assert r[0] in WithKey(r, key, key(r[0]));
  }

  /** Two ordered sequences whose last elements lead the same ties have equally ranked last elements. */
  lemma LastRanksAgree<T>(r: seq<T>, t: seq<T>, key: T -> real, desc: bool)
    requires SortedBy(r, key, desc) && SortedBy(t, key, desc)
    requires r != [] && t != []
    requires forall v :: WithKey(r, key, v) == WithKey(t, key, v)
    ensures key(r[|r| - 1]) == key(t[|t| - 1])
  {
    var a, b := r[|r| - 1], t[|t| - 1];
    WithKeyMembers(r, key, key(a));
    WithKeyMembers(t, key, key(a));
    WithKeyMembers(r, key, key(b));
    WithKeyMembers(t, key, key(b));
    assert a in WithKey(r, key, key(a));
    assert b in WithKey(t, key, key(b));
    SortedLastIsGreatest(t, key, desc, a);
    SortedLastIsGreatest(r, key, desc, b);
  }

  lemma {:induction false} SortedSameTiesEqual<T>(r: seq<T>, t: seq<T>, key: T -> real, desc: bool)
    requires SortedBy(r, key, desc) && SortedBy(t, key, desc)
    requires forall v :: WithKey(r, key, v) == WithKey(t, key, v)
    ensures r == t
    decreases |r| + |t|
  {
    if r == [] || t == [] {
      if r != [] {
        WithKeyOfFirst(r, key);
        assert false;
      } else if t != [] {
        WithKeyOfFirst(t, key);
        assert false;
      }
    } else {
      var m, n := |r| - 1, |t| - 1;
      var a, b := r[m], t[n];
      var r', t' := r[..m], t[..n];
      assert r == r' + [a];
      assert t == t' + [b];
      LastRanksAgree(r, t, key, desc);
      forall v ensures WithKey(r', key, v) == WithKey(t', key, v) {
        WithKeySnoc(r', a, key, v);
        WithKeySnoc(t', b, key, v);
        var e := WithKey(r, key, v);
        assert e == WithKey(t, key, v);
        assert e == WithKey(r', key, v) + (if key(a) == v then [a] else []);
        assert e == WithKey(t', key, v) + (if key(b) == v then [b] else []);
        if key(a) == v {
          assert e[..|e| - 1] == WithKey(r', key, v);
          assert e[..|e| - 1] == WithKey(t', key, v);
        } else {
          assert WithKey(r', key, v) + [] == WithKey(r', key, v);
          assert WithKey(t', key, v) + [] == WithKey(t', key, v);
        }
      }
      SortedPrefix(r, key, desc, m);
      SortedPrefix(t, key, desc, n);
      SortedSameTiesEqual(r', t', key, desc);
      WithKeySnoc(r', a, key, key(a));
      WithKeySnoc(t', b, key, key(a));
      var e := WithKey(r, key, key(a));
      assert e == WithKey(t, key, key(a));
      assert a == e[|e| - 1] == b;
    }
  }

  /**
   * Uniqueness: a sequence ordered by key, whose elements of each key value
   * are those of `s` in the order of `s`, is `StableSorted(s)`. So the model
   * fits whichever stable algorithm the engine uses.
   */
  lemma StableSortedUnique<T>(r: seq<T>, s: seq<T>, key: T -> real, desc: bool)
    requires SortedBy(r, key, desc)
    requires forall v :: WithKey(r, key, v) == WithKey(s, key, v)
    ensures r == StableSorted(s, key, desc)
  {
    var t := StableSorted(s, key, desc);
    StableSortedIsSorted(s, key, desc);
    forall v ensures WithKey(r, key, v) == WithKey(t, key, v) {
      StableSortedKeepsTies(s, key, desc, v);
    }
    SortedSameTiesEqual(r, t, key, desc);
  }

  /** An already ordered sequence is left as it is. */
  lemma {:induction false} StableSortedOfSorted<T>(s: seq<T>, key: T -> real, desc: bool)
    requires SortedBy(s, key, desc)
    ensures StableSorted(s, key, desc) == s
  {
    if s != [] {
      var n := |s| - 1;
      SortedPrefix(s, key, desc, n);
      StableSortedOfSorted(s[..n], key, desc);
      if n > 0 {
        assert !After(s[n - 1], s[n], key, desc);
      }
      assert s[..n] + [s[n]] == s;
    }
  }

  /** Sorting twice with the same comparator is sorting once. */
  lemma StableSortedIdempotent<T>(s: seq<T>, key: T -> real, desc: bool)
    ensures StableSorted(StableSorted(s, key, desc), key, desc) == StableSorted(s, key, desc)
  {
    StableSortedIsSorted(s, key, desc);
    StableSortedOfSorted(StableSorted(s, key, desc), key, desc);
  }

  /**
   * Without exact ties, sorting in descending order gives the ascending
   * result reversed.
   */
  lemma StableSortedReverse<T>(s: seq<T>, key: T -> real)
    requires forall i, j :: 0 <= i < j < |s| ==> key(s[i]) != key(s[j])
    ensures StableSorted(s, key, true) == Reverse(StableSorted(s, key, false))
  {
    var r := Reverse(StableSorted(s, key, false));
    StableSortedIsSorted(s, key, false);
    SortedReverse(StableSorted(s, key, false), key);
    forall v
      ensures WithKey(r, key, v) == WithKey(s, key, v)
    {
      ReverseKeepsTies(s, key, v);
    }
    StableSortedUnique(r, s, key, true);
  }

  /** An ascending sequence read backwards is descending. */
  lemma SortedReverse<T>(s: seq<T>, key: T -> real)
    requires SortedBy(s, key, false)
    ensures SortedBy(Reverse(s), key, true)
  {
    var r, n := Reverse(s), |s|;
    forall i, j | 0 <= i < j < |r|
      ensures !After(r[i], r[j], key, true)
    {
      assert r[i] == s[n - 1 - i] && r[j] == s[n - 1 - j];
      assert !After(s[n - 1 - j], s[n - 1 - i], key, false);
    }
  }

  /** Without ties every key's bucket has at most one element, so reversing the ascending sort keeps it. */
  lemma ReverseKeepsTies<T>(s: seq<T>, key: T -> real, v: real)
    requires forall i, j :: 0 <= i < j < |s| ==> key(s[i]) != key(s[j])
    ensures WithKey(Reverse(StableSorted(s, key, false)), key, v) == WithKey(s, key, v)
  {
    var asc := StableSorted(s, key, false);
    FilterReverse(asc, KeyIs(key, v));
    StableSortedKeepsTies(s, key, false, v);
    WithKeyAtMostOne(s, key, v);
    ReverseShort(WithKey(s, key, v));
    assert WithKey(Reverse(asc), key, v) == Reverse(WithKey(asc, key, v));
  }

  // ---------------------------------------------------------------------
  // What sorting preserves
  // ---------------------------------------------------------------------

  lemma {:induction false} InsertSum<T>(s: seq<T>, x: T, key: T -> real, desc: bool, f: T -> real)
    ensures SumOf(Insert(s, x, key, desc), f) == SumOf(s, f) + f(x)
  {
    if s != [] {
      var n := |s| - 1;
      if After(s[n], x, key, desc) {
        InsertSum(s[..n], x, key, desc, f);
        var t := Insert(s[..n], x, key, desc) + [s[n]];
        assert t[..|t| - 1] == Insert(s[..n], x, key, desc);
      } else {
        assert (s + [x])[..|s|] == s;
      }
    }
  }

  /** Sorting does not change a sum over the elements. */
  lemma {:induction false} StableSortedSum<T>(s: seq<T>, key: T -> real, desc: bool, f: T -> real)
    ensures SumOf(StableSorted(s, key, desc), f) == SumOf(s, f)
  {
    if s != [] {
      var n := |s| - 1;
      StableSortedSum(s[..n], key, desc, f);
      InsertSum(StableSorted(s[..n], key, desc), s[n], key, desc, f);
    }
  }

  lemma {:induction false} InsertCount<T>(s: seq<T>, x: T, key: T -> real, desc: bool, p: T -> bool)
    ensures |Filter(Insert(s, x, key, desc), p)| == |Filter(s, p)| + (if p(x) then 1 else 0)
  {
    if s != [] {
      var n := |s| - 1;
      if After(s[n], x, key, desc) {
        InsertCount(s[..n], x, key, desc, p);
        var t := Insert(s[..n], x, key, desc) + [s[n]];
        assert t[..|t| - 1] == Insert(s[..n], x, key, desc);
      } else {
        assert (s + [x])[..|s|] == s;
      }
    }
  }

  /** Sorting does not change how many elements satisfy a predicate. */
  lemma {:induction false} StableSortedCount<T>(s: seq<T>, key: T -> real, desc: bool, p: T -> bool)
    ensures |Filter(StableSorted(s, key, desc), p)| == |Filter(s, p)|
  {
    if s != [] {
      var n := |s| - 1;
      StableSortedCount(s[..n], key, desc, p);
      InsertCount(StableSorted(s[..n], key, desc), s[n], key, desc, p);
    }
  }

  // ---------------------------------------------------------------------
  // The in-place sort
  // ---------------------------------------------------------------------

  /** Where the inner loop of `SortInPlace` stops, `Insert` puts `x`. */
  lemma {:induction false} InsertAt<T>(s: seq<T>, x: T, key: T -> real, desc: bool, j: nat)
    requires j <= |s|
    requires j == 0 || !After(s[j - 1], x, key, desc)
    requires forall k :: j <= k < |s| ==> After(s[k], x, key, desc)
    ensures Insert(s, x, key, desc) == s[..j] + [x] + s[j..]
    decreases |s|
  {
    if s == [] {
    } else if j == |s| {
      assert s[..j] == s;
    } else {
      var n := |s| - 1;
      InsertAt(s[..n], x, key, desc, j);
      assert s[..n][..j] == s[..j];
      assert s[..n][j..] + [s[n]] == s[j..];
    }
  }

  /** `a.sort(cmp)`: sorts `a` in place, stably, by insertion. */
  method SortInPlace<T>(a: array<T>, key: T -> real, desc: bool)
    modifies a
    ensures a[..] == StableSorted(old(a[..]), key, desc)
  {
    ghost var input := a[..];
    var i := 0;
    while i < a.Length
      invariant 0 <= i <= a.Length
      invariant a[..i] == StableSorted(input[..i], key, desc)
      invariant a[i..] == input[i..]
    {
      assert a[i] == input[i] && a[i + 1..] == input[i + 1..] by {
        assert a[i..][0] == a[i] && a[i..][1..] == a[i + 1..];
        assert input[i..][0] == input[i] && input[i..][1..] == input[i + 1..];
      }
      InsertInPlace(a, i, key, desc);
      assert input[..i + 1] == input[..i] + [input[i]];
      i := i + 1;
    }
    assert input[..a.Length] == input;
  }

  /** One step of `SortInPlace`: moves `a[i]` into the prefix `a[..i]`, shifting the larger elements up. */
  method InsertInPlace<T>(a: array<T>, i: nat, key: T -> real, desc: bool)
    requires i < a.Length
    modifies a
    ensures a[..i + 1] == Insert(old(a[..i]), old(a[i]), key, desc)
    ensures a[i + 1..] == old(a[i + 1..])
  {
    ghost var sorted := a[..i];
    var x := a[i];
    var j := i;
    while j > 0 && After(a[j - 1], x, key, desc)
      invariant 0 <= j <= i
      invariant forall k :: 0 <= k < j ==> a[k] == sorted[k]
      invariant forall k :: j < k <= i ==> a[k] == sorted[k - 1]
      invariant forall k :: i < k < a.Length ==> a[k] == old(a[k])
      invariant forall k :: j <= k < i ==> After(sorted[k], x, key, desc)
    {
      a[j] := a[j - 1];
      j := j - 1;
    }
    a[j] := x;
    InsertAt(sorted, x, key, desc, j);
    assert a[..i + 1] == sorted[..j] + [x] + sorted[j..];
  }
}
