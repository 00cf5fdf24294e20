/**
 * The array operations the dashboard builds its views from: `filter`,
 * `filter(...).length`, `slice` with JavaScript's clamping, and counting
 * occurrences of keys (what the `forEach` dictionary increments compute).
 * Recursion is on the last element, which is how a left-to-right loop sees it.
 */
module Seqs {

  /** `s.filter(p)`. */
  function Filter<T>(s: seq<T>, p: T -> bool): (r: seq<T>)
    ensures |r| <= |s|
    ensures forall x :: x in r ==> x in s && p(x)
    ensures forall x :: x in s && p(x) ==> x in r
  {
    if s == [] then []
    else Filter(s[..|s| - 1], p) + (if p(s[|s| - 1]) then [s[|s| - 1]] else [])
  }

  /** `s.filter(p).length`, counted directly. */
  function CountWhere<T>(s: seq<T>, p: T -> bool): (n: nat)
    ensures n <= |s|
  {
    if s == [] then 0
    else CountWhere(s[..|s| - 1], p) + (if p(s[|s| - 1]) then 1 else 0)
  }

  /** Filtering distributes over concatenation, so it keeps the relative order of what it keeps. */
  lemma {:induction false} FilterConcat<T>(a: seq<T>, b: seq<T>, p: T -> bool)
    ensures Filter(a + b, p) == Filter(a, p) + Filter(b, p)
    decreases |b|
  {
    if b == [] {
      assert a + b == a;
    } else {
      var b', x := b[..|b| - 1], b[|b| - 1];
      assert (a + b)[..|a + b| - 1] == a + b';
      assert (a + b)[|a + b| - 1] == x;
      FilterConcat(a, b', p);
      var t := if p(x) then [x] else [];
      assert Filter(a + b, p) == Filter(a + b', p) + t;
      assert Filter(b, p) == Filter(b', p) + t;
      assert Filter(a, p) + Filter(b', p) + t == Filter(a, p) + (Filter(b', p) + t);
    }
  }

  lemma {:induction false} FilterLength<T>(s: seq<T>, p: T -> bool)
    ensures |Filter(s, p)| == CountWhere(s, p)
  {
    if s != [] {
      FilterLength(s[..|s| - 1], p);
    }
  }

  /** A filter every element passes is the identity. */
  lemma {:induction false} FilterAll<T>(s: seq<T>, p: T -> bool)
    requires forall i :: 0 <= i < |s| ==> p(s[i])
    ensures Filter(s, p) == s
  {
    if s != [] {
      FilterAll(s[..|s| - 1], p);
    }
  }

  /** A filter no element passes is empty. */
  lemma {:induction false} FilterNone<T>(s: seq<T>, p: T -> bool)
    requires forall i :: 0 <= i < |s| ==> !p(s[i])
    ensures Filter(s, p) == []
  {
    if s != [] {
      FilterNone(s[..|s| - 1], p);
    }
  }

  /** Filters with the same verdict on every element agree. */
  lemma {:induction false} FilterExt<T>(s: seq<T>, p: T -> bool, q: T -> bool)
    requires forall i :: 0 <= i < |s| ==> p(s[i]) == q(s[i])
    ensures Filter(s, p) == Filter(s, q)
    ensures CountWhere(s, p) == CountWhere(s, q)
  {
    if s != [] {
      FilterExt(s[..|s| - 1], p, q);
    }
  }

  lemma {:induction false} CountWherePrefix<T>(s: seq<T>, i: nat, p: T -> bool)
    requires i < |s|
    ensures CountWhere(s[..i + 1], p) == CountWhere(s[..i], p) + (if p(s[i]) then 1 else 0)
  {
    assert s[..i + 1][..i] == s[..i];
  }

  /** Nothing is counted exactly when no element passes. */
  lemma {:induction false} CountWhereZero<T>(s: seq<T>, p: T -> bool)
    ensures CountWhere(s, p) == 0 <==> forall i :: 0 <= i < |s| ==> !p(s[i])
  {
    if s != [] {
      CountWhereZero(s[..|s| - 1], p);
    }
  }

  /** Two predicates that never hold together count at most the whole sequence. */
  lemma {:induction false} CountDisjoint<T>(s: seq<T>, p: T -> bool, q: T -> bool)
    requires forall i :: 0 <= i < |s| ==> !(p(s[i]) && q(s[i]))
    ensures CountWhere(s, p) + CountWhere(s, q) <= |s|
  {
    if s != [] {
      CountDisjoint(s[..|s| - 1], p, q);
    }
  }

  /** Counting a disjunction of two exclusive predicates adds their counts. */
  lemma {:induction false} CountOr<T>(s: seq<T>, p: T -> bool, q: T -> bool, pq: T -> bool)
    requires forall i :: 0 <= i < |s| ==> !(p(s[i]) && q(s[i]))
    requires forall i :: 0 <= i < |s| ==> pq(s[i]) == (p(s[i]) || q(s[i]))
    ensures CountWhere(s, pq) == CountWhere(s, p) + CountWhere(s, q)
  {
    if s != [] {
      CountOr(s[..|s| - 1], p, q, pq);
    }
  }

  function Min(a: int, b: int): int {
    if a <= b then a else b
  }

  /** `s.slice(start, end)` for non-negative bounds: both bounds are clamped to the length. */
  function Slice<T>(s: seq<T>, start: nat, end: nat): (r: seq<T>)
    ensures |r| <= |s| && |r| <= (if end >= start then end - start else 0)
    ensures start < |s| && start <= end ==> |r| == Min(end, |s|) - start
    ensures forall k :: 0 <= k < |r| ==> start + k < |s| && r[k] == s[start + k]
  {
    var hi := Min(end, |s|);
    var lo := Min(start, hi);
    s[lo..hi]
  }

  /** Number of occurrences of `k` in `s`. */
  function Occurrences<K(==)>(s: seq<K>, k: K): (n: nat)
    ensures n <= |s|
    ensures n > 0 <==> k in s
  {
    if s == [] then 0
    else Occurrences(s[..|s| - 1], k) + (if s[|s| - 1] == k then 1 else 0)
  }

  lemma OccurrencesPrefix<K>(s: seq<K>, i: nat, k: K)
    requires i < |s|
    ensures Occurrences(s[..i + 1], k) == Occurrences(s[..i], k) + (if s[i] == k then 1 else 0)
  {
    assert s[..i + 1][..i] == s[..i];
  }

  predicate Distinct<K(==)>(s: seq<K>) {
    forall i, j :: 0 <= i < j < |s| ==> s[i] != s[j]
  }

  /** The sum, over the keys listed in `keys`, of how often each occurs in `s`. */
  function SumOccurrences<K(==)>(keys: seq<K>, s: seq<K>): nat {
    if keys == [] then 0
    else SumOccurrences(keys[..|keys| - 1], s) + Occurrences(s, keys[|keys| - 1])
  }

  lemma {:induction false} SumOccurrencesSnoc<K>(keys: seq<K>, s: seq<K>, x: K)
    ensures SumOccurrences(keys, s + [x])
         == SumOccurrences(keys, s) + Occurrences(keys, x)
  {
    if keys != [] {
      var init := keys[..|keys| - 1];
      assert (s + [x])[..|s + [x]| - 1] == s;
      SumOccurrencesSnoc(init, s, x);
    }
  }

  /**
   * Counting every key of a duplicate-free key list that covers `s`
   * counts every element of `s` exactly once.
   */
  lemma {:induction false} SumOccurrencesCovers<K>(keys: seq<K>, s: seq<K>)
    requires Distinct(keys)
    requires forall x :: x in s ==> x in keys
    ensures SumOccurrences(keys, s) == |s|
    decreases |s|
  {
    if s == [] {
      SumOccurrencesEmpty(keys);
    } else {
      var init, x := s[..|s| - 1], s[|s| - 1];
      assert s == init + [x];
      SumOccurrencesCovers(keys, init);
      SumOccurrencesSnoc(keys, init, x);
      DistinctOccursOnce(keys, x);
    }
  }

  lemma {:induction false} SumOccurrencesEmpty<K>(keys: seq<K>)
    ensures SumOccurrences(keys, []) == 0
  {
    if keys != [] {
      SumOccurrencesEmpty(keys[..|keys| - 1]);
    }
  }

  lemma {:induction false} DistinctOccursOnce<K>(keys: seq<K>, x: K)
    requires Distinct(keys) && x in keys
    ensures Occurrences(keys, x) == 1
  {
    var init := keys[..|keys| - 1];
    if keys[|keys| - 1] == x {
      assert x !in init;
    } else {
      DistinctOccursOnce(init, x);
    }
  }
}
