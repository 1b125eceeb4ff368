/**
 * JavaScript's `Array.prototype.filter` and `Array.prototype.find` over Dafny
 * sequences, with the facts the rest of the model relies on.
 */
module Sequences {
  import opened Wrappers

  /** The elements of `s` that satisfy `p`, in their original order. */
  function Filter<T>(s: seq<T>, p: T -> bool): (r: seq<T>)
    ensures |r| <= |s|
    ensures forall i | 0 <= i < |r| :: p(r[i])
  {
    if |s| == 0 then []
    else Filter(s[..|s| - 1], p) + (if p(s[|s| - 1]) then [s[|s| - 1]] else [])
  }

  /** The filtered list holds exactly the elements of `s` that pass the test. */
  lemma {:induction false} FilterMembers<T>(s: seq<T>, p: T -> bool)
    ensures forall i | 0 <= i < |Filter(s, p)| :: Filter(s, p)[i] in s
    ensures forall i | 0 <= i < |s| && p(s[i]) :: s[i] in Filter(s, p)
  {
    if |s| > 0 {
      var init, last := s[..|s| - 1], s[|s| - 1];
      FilterMembers(init, p);
      var r := Filter(s, p);
      assert r == Filter(init, p) + (if p(last) then [last] else []);
      forall i | 0 <= i < |r| ensures r[i] in s {
        if i < |Filter(init, p)| {
          assert r[i] == Filter(init, p)[i];
          assert r[i] in init;
        } else {
          assert r[i] == last;
        }
      }
      forall i | 0 <= i < |s| && p(s[i]) ensures s[i] in r {
        if i < |init| {
          assert s[i] == init[i];
          assert s[i] in Filter(init, p);
        }
      }
    }
  }

  /** The kept elements come from increasing positions of `s`: filtering keeps the list's order. */
  lemma {:induction false} FilterKeepsOrder<T>(s: seq<T>, p: T -> bool)
    ensures forall k, l | 0 <= k < l < |Filter(s, p)| ::
      exists i, j :: 0 <= i < j < |s| && Filter(s, p)[k] == s[i] && Filter(s, p)[l] == s[j]
  {
    if |s| > 0 {
      var init, last := s[..|s| - 1], s[|s| - 1];
      FilterKeepsOrder(init, p);
      FilterMembers(init, p);
      var r, r0 := Filter(s, p), Filter(init, p);
      assert r == r0 + (if p(last) then [last] else []);
      forall k, l | 0 <= k < l < |Filter(s, p)|
        ensures exists i, j :: 0 <= i < j < |s| && Filter(s, p)[k] == s[i] && Filter(s, p)[l] == s[j]
      {
        if l < |r0| {
          var i, j :| 0 <= i < j < |init| && r0[k] == init[i] && r0[l] == init[j];
          assert r[k] == s[i] && r[l] == s[j];
        } else {
          assert r[k] == r0[k] && r0[k] in init;
          var i :| 0 <= i < |init| && init[i] == r0[k];
          assert r[k] == s[i] && r[l] == s[|s| - 1];
        }
      }
    } else {
      assert |Filter(s, p)| == 0;
    }
  }

  /** Filtering distributes over concatenation: it keeps relative order. */
  lemma {:induction false} FilterAppend<T>(a: seq<T>, b: seq<T>, p: T -> bool)
    ensures Filter(a + b, p) == Filter(a, p) + Filter(b, p)
    decreases |b|
  {
    if |b| == 0 {
      assert a + b == a;
    } else {
      var b' := b[..|b| - 1];
      assert (a + b)[..|a + b| - 1] == a + b';
      FilterAppend(a, b', p);
    }
  }

  /** A list all of whose elements pass the test is returned as it is. */
  lemma {:induction false} FilterAll<T>(s: seq<T>, p: T -> bool)
    requires forall i | 0 <= i < |s| :: p(s[i])
    ensures Filter(s, p) == s
  {
    if |s| > 0 {
      FilterAll(s[..|s| - 1], p);
    }
  }

  /** A list none of whose elements passes the test filters to nothing. */
  lemma {:induction false} FilterNone<T>(s: seq<T>, p: T -> bool)
    requires forall i | 0 <= i < |s| :: !p(s[i])
    ensures Filter(s, p) == []
  {
    if |s| > 0 {
      FilterNone(s[..|s| - 1], p);
    }
  }

  /** Two tests that agree on every element of `s` filter it alike. */
  lemma {:induction false} FilterSameTest<T>(s: seq<T>, p: T -> bool, q: T -> bool)
    requires forall i | 0 <= i < |s| :: p(s[i]) == q(s[i])
    ensures Filter(s, p) == Filter(s, q)
  {
    if |s| > 0 {
      FilterSameTest(s[..|s| - 1], p, q);
    }
  }

  /**
   * Filtering by `q` after filtering by `p` is filtering by `q` alone when
   * every element that passes `q` also passes `p`.
   */
  lemma {:induction false} FilterAbsorb<T>(s: seq<T>, p: T -> bool, q: T -> bool)
    requires forall i | 0 <= i < |s| :: q(s[i]) ==> p(s[i])
    ensures Filter(Filter(s, p), q) == Filter(s, q)
  {
    if |s| > 0 {
      var init, last := s[..|s| - 1], s[|s| - 1];
      FilterAbsorb(init, p, q);
      FilterAppend(Filter(init, p), if p(last) then [last] else [], q);
      assert Filter([last], q) == Filter([], q) + (if q(last) then [last] else []);
    }
  }

  /** The number of elements filtered out and kept together is the length. */
  lemma {:induction false} FilterSplitsLength<T>(s: seq<T>, p: T -> bool, q: T -> bool)
    requires forall i | 0 <= i < |s| :: q(s[i]) == !p(s[i])
    ensures |Filter(s, p)| + |Filter(s, q)| == |s|
  {
    if |s| > 0 {
      FilterSplitsLength(s[..|s| - 1], p, q);
    }
  }

  /** Taking out the element at `k` removes one copy of it from the multiset. */
  lemma MultisetRemove<T>(b: seq<T>, k: int)
    requires 0 <= k < |b|
    ensures multiset(b[..k] + b[k + 1..]) == multiset(b) - multiset{b[k]}
  {
    assert b == b[..k] + [b[k]] + b[k + 1..];
    assert multiset(b) == multiset(b[..k]) + multiset{b[k]} + multiset(b[k + 1..]);
  }

  /** Taking out the element at `k` keeps one fewer under the filter exactly when it passes. */
  lemma FilterCountRemove<T>(b: seq<T>, k: int, p: T -> bool)
    requires 0 <= k < |b|
    ensures |Filter(b, p)| == |Filter(b[..k] + b[k + 1..], p)| + (if p(b[k]) then 1 else 0)
  {
    var x := b[k];
    assert b == b[..k] + [x] + b[k + 1..];
    FilterAppend(b[..k] + [x], b[k + 1..], p);
    FilterAppend(b[..k], [x], p);
    FilterAppend(b[..k], b[k + 1..], p);
    assert Filter([x], p) == Filter([], p) + (if p(x) then [x] else []);
  }

  /** Lists holding the same elements, in any order, keep equally many under a filter. */
  lemma {:induction false} FilterCountIgnoresOrder<T>(a: seq<T>, b: seq<T>, p: T -> bool)
    requires multiset(a) == multiset(b)
    ensures |Filter(a, p)| == |Filter(b, p)|
    decreases |a|
  {
    if |a| == 0 {
      assert |b| == |multiset(b)| == 0;
    } else {
      var x, a' := a[|a| - 1], a[..|a| - 1];
      assert a == a' + [x];
      assert x in multiset(b);
      var k :| 0 <= k < |b| && b[k] == x;
      MultisetRemove(b, k);
      MultisetRemove(a, |a| - 1);
      assert a[..|a| - 1] + a[|a|..] == a';
      FilterCountIgnoresOrder(a', b[..k] + b[k + 1..], p);
      FilterCountRemove(b, k, p);
    }
  }

  /** Filtering a three-element list, spelled out. */
  lemma FilterOfThree<T>(a: T, b: T, c: T, p: T -> bool)
    ensures Filter([a, b, c], p) == (if p(a) then [a] else []) + (if p(b) then [b] else []) + (if p(c) then [c] else [])
  {
    assert [a, b, c][..2] == [a, b] && [a, b][..1] == [a] && [a][..0] == [];
    assert Filter([a], p) == (if p(a) then [a] else []);
    assert Filter([a, b], p) == Filter([a], p) + (if p(b) then [b] else []);
  }

  /** Filtering out one element between two kept runs leaves the runs joined. */
  lemma FilterDropsOne<T>(a: seq<T>, x: T, b: seq<T>, p: T -> bool)
    requires forall i | 0 <= i < |a| :: p(a[i])
    requires forall i | 0 <= i < |b| :: p(b[i])
    requires !p(x)
    ensures Filter(a + [x] + b, p) == a + b
  {
    FilterAppend(a + [x], b, p);
    FilterAppend(a, [x], p);
    FilterAll(a, p);
    FilterAll(b, p);
    assert Filter([x], p) == [] by {
      assert [x][..0] == [];
    }
    assert Filter(a + [x], p) == a;
  }

  /** Filtering out at least one element makes the list strictly shorter. */
  lemma {:induction false} FilterDropsFailing<T>(s: seq<T>, p: T -> bool, i: int)
    requires 0 <= i < |s| && !p(s[i])
    ensures |Filter(s, p)| < |s|
  {
    if i < |s| - 1 {
      FilterDropsFailing(s[..|s| - 1], p, i);
    }
  }

  /** The first element of `s` that satisfies `p`, if any. */
  function Find<T>(s: seq<T>, p: T -> bool): (r: Option<T>)
    ensures r.Some? <==> exists i :: 0 <= i < |s| && p(s[i])
    ensures r.Some? ==> exists i :: 0 <= i < |s| && s[i] == r.value && p(s[i]) &&
                                    forall j | 0 <= j < i :: !p(s[j])
  {
    if |s| == 0 then None
    else if p(s[0]) then Some(s[0])
    else
      var r := Find(s[1..], p);
      assert forall i | 1 <= i < |s| :: s[i] == s[1..][i - 1];
      r
  }
}
