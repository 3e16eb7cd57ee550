/**
 * The array combinators the dashboard is written with (`filter`, `map`,
 * `reduce` with `+`, and `[...new Set(xs)]`), as functions on sequences.
 * The combinators recurse on the LAST element, so that a loop that walks a
 * sequence from the front extends `s[..i]` to `s[..i+1]` by one unfolding;
 * only the search `FirstIndex` walks from the front.
 */
module Seqs {

  /** `s.filter(p)`: the elements of `s` that satisfy `p`, in their order. */
  function Filter<T(!new)>(s: seq<T>, p: T -> bool): (r: seq<T>)
    ensures |r| <= |s|
    ensures forall x :: x in r ==> x in s && p(x)
  {
    if s == [] then []
    else
      var rest := Filter(s[..|s| - 1], p);
      if p(s[|s| - 1]) then rest + [s[|s| - 1]] else rest
  }

  /** `s.map(f)`. */
  function Map<T, U>(s: seq<T>, f: T -> U): (r: seq<U>)
    ensures |r| == |s|
    ensures forall k :: 0 <= k < |s| ==> r[k] == f(s[k])
  {
    if s == [] then [] else Map(s[..|s| - 1], f) + [f(s[|s| - 1])]
  }

  /** `s.reduce((sum, x) => sum + f(x), 0)`. */
  function SumOf<T>(s: seq<T>, f: T -> real): real
  {
    if s == [] then 0.0 else SumOf(s[..|s| - 1], f) + f(s[|s| - 1])
  }

  /** The sum of `f` over the elements of `s` that satisfy `p`. */
  function SumWhere<T>(s: seq<T>, p: T -> bool, f: T -> real): real
  {
    if s == [] then 0.0
    else SumWhere(s[..|s| - 1], p, f) + (if p(s[|s| - 1]) then f(s[|s| - 1]) else 0.0)
  }

  /** `[...new Set(s)]`: each distinct element once, in order of first appearance. */
  function Distinct<T(==)>(s: seq<T>): seq<T>
  {
    if s == [] then []
    else
      var seen := Distinct(s[..|s| - 1]);
      if s[|s| - 1] in seen then seen else seen + [s[|s| - 1]]
  }

  predicate NoDuplicates<T(==)>(s: seq<T>)
  {
    forall i, j :: 0 <= i < j < |s| ==> s[i] != s[j]
  }

  /** The position where `x` first occurs in `s`. */
  function FirstIndex<T(==)>(s: seq<T>, x: T): (k: nat)
    requires x in s
    ensures k < |s| && s[k] == x
    ensures forall j :: 0 <= j < k ==> s[j] != x
  {
    if s[0] == x then 0 else 1 + FirstIndex(s[1..], x)
  }

  /** `idx` lists increasing positions of `s` whose elements, in turn, make up `r`. */
  ghost predicate IsEmbedding<T>(idx: seq<int>, r: seq<T>, s: seq<T>)
  {
    && |idx| == |r|
    && (forall k :: 0 <= k < |idx| ==> 0 <= idx[k] < |s| && r[k] == s[idx[k]])
    && (forall k, l :: 0 <= k < l < |idx| ==> idx[k] < idx[l])
  }

  /** `r` is `s` with some elements left out and the rest kept in their order. */
  ghost predicate IsSubsequence<T>(r: seq<T>, s: seq<T>)
  {
    exists idx :: IsEmbedding(idx, r, s)
  }

  // ---------------------------------------------------------------------
  // Filter

  lemma {:induction false} FilterAppend<T(!new)>(a: seq<T>, b: seq<T>, p: T -> bool)
    ensures Filter(a + b, p) == Filter(a, p) + Filter(b, p)
    decreases |b|
  {
    if b == [] {
      assert a + b == a;
    } else {
      var b' := b[..|b| - 1];
      assert (a + b)[..|a + b| - 1] == a + b';
      assert (a + b)[|a + b| - 1] == b[|b| - 1];
      FilterAppend(a, b', p);
    }
  }

  /** The filter keeps every copy of each element that satisfies `p`, and nothing else. */
  lemma {:induction false} FilterMultiset<T(!new)>(s: seq<T>, p: T -> bool)
    ensures forall x :: multiset(Filter(s, p))[x] == if p(x) then multiset(s)[x] else 0
  {
    if s != [] {
      var s' := s[..|s| - 1];
      FilterMultiset(s', p);
      assert s == s' + [s[|s| - 1]];
      assert multiset(s) == multiset(s') + multiset{s[|s| - 1]};
    }
  }

  /** The filter keeps the relative order of what it keeps. */
  lemma {:induction false} FilterIsSubsequence<T(!new)>(s: seq<T>, p: T -> bool)
    ensures IsSubsequence(Filter(s, p), s)
  {
    if s == [] {
      assert IsEmbedding([], Filter(s, p), s);
    } else {
      var s' := s[..|s| - 1];
      FilterIsSubsequence(s', p);
      var idx :| IsEmbedding(idx, Filter(s', p), s');
      if p(s[|s| - 1]) {
        assert IsEmbedding(idx + [|s'|], Filter(s, p), s);
      } else {
        assert IsEmbedding(idx, Filter(s, p), s);
      }
    }
  }

  lemma {:induction false} FilterNone<T(!new)>(s: seq<T>, p: T -> bool)
    requires forall x :: x in s ==> !p(x)
    ensures Filter(s, p) == []
  {
    if s != [] {
      FilterNone(s[..|s| - 1], p);
    }
  }

  lemma {:induction false} FilterAll<T(!new)>(s: seq<T>, p: T -> bool)
    requires forall x :: x in s ==> p(x)
    ensures Filter(s, p) == s
  {
    if s != [] {
      FilterAll(s[..|s| - 1], p);
    }
  }

  // ---------------------------------------------------------------------
  // SumOf

  lemma {:induction false} SumOfAppend<T>(a: seq<T>, b: seq<T>, f: T -> real)
    ensures SumOf(a + b, f) == SumOf(a, f) + SumOf(b, f)
    decreases |b|
  {
    if b == [] {
      assert a + b == a;
    } else {
      var b' := b[..|b| - 1];
      assert (a + b)[..|a + b| - 1] == a + b';
      assert (a + b)[|a + b| - 1] == b[|b| - 1];
      SumOfAppend(a, b', f);
    }
  }

  /** Filtering and then summing is summing only what satisfies `p`. */
  lemma {:induction false} SumOfFilter<T(!new)>(s: seq<T>, p: T -> bool, f: T -> real)
    ensures SumOf(Filter(s, p), f) == SumWhere(s, p, f)
  {
    if s != [] {
      var s' := s[..|s| - 1];
      SumOfFilter(s', p, f);
      if p(s[|s| - 1]) {
        SumOfAppend(Filter(s', p), [s[|s| - 1]], f);
        assert SumOf([s[|s| - 1]], f) == SumOf([], f) + f(s[|s| - 1]);
      }
    }
  }

  /** Elements on which `f` is 0 may be left out of a sum. */
  lemma {:induction false} SumOfDropZeros<T(!new)>(s: seq<T>, p: T -> bool, f: T -> real)
    requires forall x :: x in s && !p(x) ==> f(x) == 0.0
    ensures SumOf(Filter(s, p), f) == SumOf(s, f)
  {
    if s != [] {
      var s' := s[..|s| - 1];
      SumOfDropZeros(s', p, f);
      if p(s[|s| - 1]) {
        SumOfAppend(Filter(s', p), [s[|s| - 1]], f);
        assert SumOf([s[|s| - 1]], f) == SumOf([], f) + f(s[|s| - 1]);
      }
    }
  }

  lemma {:induction false} SumOfNonNegative<T(!new)>(s: seq<T>, f: T -> real)
    requires forall x :: x in s ==> f(x) >= 0.0
    ensures SumOf(s, f) >= 0.0
  {
    if s != [] {
      SumOfNonNegative(s[..|s| - 1], f);
    }
  }

  /** Summing `f` over the images of `g` is summing `h`, for any `h` that agrees with `f` after `g`. */
  lemma {:induction false} SumOfMap<T(!new), U>(s: seq<T>, g: T -> U, f: U -> real, h: T -> real)
    requires forall x :: x in s ==> h(x) == f(g(x))
    ensures SumOf(Map(s, g), f) == SumOf(s, h)
  {
    if s != [] {
      var s' := s[..|s| - 1];
      SumOfMap(s', g, f, h);
      assert Map(s, g)[..|s| - 1] == Map(s', g);
    }
  }

  /** Two functions that agree on the elements have the same sum. */
  lemma {:induction false} SumOfCongruent<T(!new)>(s: seq<T>, f: T -> real, g: T -> real)
    requires forall x :: x in s ==> f(x) == g(x)
    ensures SumOf(s, f) == SumOf(s, g)
  {
    if s != [] {
      SumOfCongruent(s[..|s| - 1], f, g);
    }
  }

  // ---------------------------------------------------------------------
  // Distinct

  /** Every element of `s` appears in `Distinct(s)` and nothing else does. */
  lemma {:induction false} DistinctMembers<T(!new)>(s: seq<T>)
    ensures forall x :: x in Distinct(s) <==> x in s
  {
    if s != [] {
      var s' := s[..|s| - 1];
      DistinctMembers(s');
      assert s == s' + [s[|s| - 1]];
    }
  }

  /** A sequence without repeats is its own `Distinct`. */
  lemma {:induction false} DistinctOfNoDuplicates<T>(s: seq<T>)
    requires NoDuplicates(s)
    ensures Distinct(s) == s
  {
    if s != [] {
      var s' := s[..|s| - 1];
      DistinctOfNoDuplicates(s');
      assert s[|s| - 1] !in s';
    }
  }

  /** No element appears twice in `Distinct(s)`. */
  lemma {:induction false} DistinctNoDuplicates<T>(s: seq<T>)
    ensures NoDuplicates(Distinct(s))
  {
    if s != [] {
      DistinctNoDuplicates(s[..|s| - 1]);
    }
  }

  /** The first element of `s` is the first element of `Distinct(s)`. */
  lemma {:induction false} DistinctHead<T>(s: seq<T>)
    requires |s| > 0
    ensures |Distinct(s)| > 0 && Distinct(s)[0] == s[0]
  {
    if |s| > 1 {
      var s' := s[..|s| - 1];
      DistinctHead(s');
      assert s'[0] == s[0];
    }
  }

  lemma FirstIndexOfPrefix<T>(s: seq<T>, x: T, y: T)
    requires y in s
    ensures FirstIndex(s + [x], y) == FirstIndex(s, y)
  {
    var k := FirstIndex(s, y);
    var k' := FirstIndex(s + [x], y);
    assert (s + [x])[k] == y;
    assert k' <= k;
    assert s[k'] == (s + [x])[k'];
  }

  /** `d` lists elements of `s` in the order of their first appearance in `s`. */
  ghost predicate InFirstSeenOrder<T>(d: seq<T>, s: seq<T>)
  {
    forall i, j :: 0 <= i < j < |d| ==> d[i] in s && d[j] in s && FirstIndex(s, d[i]) < FirstIndex(s, d[j])
  }

  /** Appending an element not seen before keeps the first-seen order. */
  lemma FirstSeenOrderExtend<T(!new)>(d: seq<T>, s: seq<T>, x: T)
    requires InFirstSeenOrder(d, s)
    requires forall y :: y in d ==> y in s
    requires x !in s
    ensures InFirstSeenOrder(d + [x], s + [x])
  {
    var d2, s2 := d + [x], s + [x];
    forall y | y in s ensures FirstIndex(s2, y) == FirstIndex(s, y) {
      FirstIndexOfPrefix(s, x, y);
    }
    assert FirstIndex(s2, x) == |s| by {
      forall j | 0 <= j < |s| ensures s2[j] != x {
        assert s2[j] == s[j];
      }
    }
    forall i, j | 0 <= i < j < |d2| ensures d2[i] in s2 && d2[j] in s2 && FirstIndex(s2, d2[i]) < FirstIndex(s2, d2[j]) {
      assert d2[i] == d[i] && d[i] in d;
      if j < |d| {
        assert d2[j] == d[j];
      } else {
        assert d2[j] == x;
      }
    }
  }

  /** `Distinct(s)` lists its elements in the order of their first appearance in `s`. */
  lemma {:induction false} DistinctFirstSeenOrder<T(!new)>(s: seq<T>)
    ensures InFirstSeenOrder(Distinct(s), s)
  {
    if s != [] {
      var s', x := s[..|s| - 1], s[|s| - 1];
      DistinctFirstSeenOrder(s');
      assert s == s' + [x];
      DistinctFirstSeenOrderStep(s', x);
    }
  }

  lemma DistinctFirstSeenOrderStep<T(!new)>(s: seq<T>, x: T)
    requires InFirstSeenOrder(Distinct(s), s)
    ensures InFirstSeenOrder(Distinct(s + [x]), s + [x])
  {
    assert (s + [x])[..|s|] == s;
    DistinctMembers(s);
    if x in Distinct(s) {
      forall y | y in s ensures FirstIndex(s + [x], y) == FirstIndex(s, y) {
        FirstIndexOfPrefix(s, x, y);
      }
    } else {
      FirstSeenOrderExtend(Distinct(s), s, x);
    }
  }
}
