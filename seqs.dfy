/** Generic facts about sequences: filtering (list comprehensions) and first-seen de-duplication. */
module Seqs {

  /** `[x for x in s if p(x)]`. */
  function Filter<T(!new)>(s: seq<T>, p: T -> bool): (r: seq<T>)
    ensures |r| <= |s|
    ensures forall x :: x in r <==> x in s && p(x)
  {
    if |s| == 0 then [] else (if p(s[0]) then [s[0]] else []) + Filter(s[1..], p)
  }

  lemma {:induction false} FilterConcat<T(!new)>(a: seq<T>, b: seq<T>, p: T -> bool)
    ensures Filter(a + b, p) == Filter(a, p) + Filter(b, p)
  {
    if |a| > 0 {
      assert (a + b)[1..] == a[1..] + b;
      FilterConcat(a[1..], b, p);
    } else {
      assert a + b == b;
    }
  }

  lemma FilterSingleton<T(!new)>(x: T, p: T -> bool)
    ensures Filter([x], p) == if p(x) then [x] else []
  {
    assert [x][1..] == [];
  }

  /** Every pair in order satisfies `rel`. */
  ghost predicate Pairwise<T>(s: seq<T>, rel: (T, T) -> bool) {
    forall i, j :: 0 <= i < j < |s| ==> rel(s[i], s[j])
  }

  lemma {:induction false} FilterPairwise<T(!new)>(s: seq<T>, p: T -> bool, rel: (T, T) -> bool)
    requires Pairwise(s, rel)
    ensures Pairwise(Filter(s, p), rel)
  {
    if |s| > 0 {
      FilterPairwise(s[1..], p, rel);
      var rest := Filter(s[1..], p);
      if p(s[0]) {
        var r := [s[0]] + rest;
        forall i, j | 0 <= i < j < |r| ensures rel(r[i], r[j]) {
          if i == 0 {
            assert r[j] in s[1..];
          }
        }
      }
    }
  }

  /** Two kept elements keep their relative order in the filtered sequence. */
  lemma {:induction false} FilterKeepsOrder<T(!new)>(s: seq<T>, p: T -> bool, i: nat, j: nat)
    requires i < j < |s| && p(s[i]) && p(s[j])
    ensures exists i', j' :: 0 <= i' < j' < |Filter(s, p)| && Filter(s, p)[i'] == s[i] && Filter(s, p)[j'] == s[j]
  {
    var rest := Filter(s[1..], p);
    if i == 0 {
      assert s[j] in s[1..];
      var k :| 0 <= k < |rest| && rest[k] == s[j];
      assert Filter(s, p) == [s[0]] + rest;
      assert Filter(s, p)[0] == s[i] && Filter(s, p)[k + 1] == s[j];
    } else {
      FilterKeepsOrder(s[1..], p, i - 1, j - 1);
      var i', j' :| 0 <= i' < j' < |rest| && rest[i'] == s[i] && rest[j'] == s[j];
      var off := if p(s[0]) then 1 else 0;
      assert Filter(s, p) == (if p(s[0]) then [s[0]] else []) + rest;
      assert Filter(s, p)[i' + off] == s[i] && Filter(s, p)[j' + off] == s[j];
    }
  }

  /** Filtering by `q` after `p`, where `q` implies `p`, is filtering by `q` alone. */
  lemma {:induction false} FilterFilter<T(!new)>(s: seq<T>, p: T -> bool, q: T -> bool)
    requires forall x :: q(x) ==> p(x)
    ensures Filter(Filter(s, p), q) == Filter(s, q)
  {
    if |s| > 0 {
      FilterFilter(s[1..], p, q);
      FilterConcat(if p(s[0]) then [s[0]] else [], Filter(s[1..], p), q);
      if p(s[0]) {
        FilterSingleton(s[0], q);
      }
    }
  }

  // ---------------------------------------------------------------------
  // First-seen de-duplication (the keys of a dict built by insertion)
  // ---------------------------------------------------------------------

  ghost predicate IsEquivalence<T(!new)>(eq: (T, T) -> bool) {
    && (forall a :: eq(a, a))
    && (forall a, b :: eq(a, b) ==> eq(b, a))
    && (forall a, b, c :: eq(a, b) && eq(b, c) ==> eq(a, c))
  }

  predicate HasEq<T>(s: seq<T>, x: T, eq: (T, T) -> bool) {
    exists i :: 0 <= i < |s| && eq(s[i], x)
  }

  /**
   * The distinct elements of `s` up to `eq`, each class represented by its
   * first element, in the order first seen.
   */
  function DedupBy<T>(s: seq<T>, eq: (T, T) -> bool): seq<T>
    decreases |s|
  {
    if |s| == 0 then []
    else
      var d := DedupBy(s[..|s| - 1], eq);
      if HasEq(d, s[|s| - 1], eq) then d else d + [s[|s| - 1]]
  }

  /** No element before position `k` is equivalent to `s[k]`. */
  predicate FirstOfClass<T>(s: seq<T>, k: nat, eq: (T, T) -> bool)
    requires k < |s|
  {
    forall k' :: 0 <= k' < k ==> !eq(s[k'], s[k])
  }

  /** Reference definition: the elements that are first of their class, in order. */
  function FirstOccurrences<T>(s: seq<T>, eq: (T, T) -> bool): seq<T>
    decreases |s|
  {
    if |s| == 0 then []
    else FirstOccurrences(s[..|s| - 1], eq) + (if FirstOfClass(s, |s| - 1, eq) then [s[|s| - 1]] else [])
  }

  lemma {:induction false} DedupCovers<T(!new)>(s: seq<T>, eq: (T, T) -> bool)
    requires IsEquivalence(eq)
    ensures forall x :: x in DedupBy(s, eq) ==> x in s
    ensures forall k :: 0 <= k < |s| ==> HasEq(DedupBy(s, eq), s[k], eq)
    ensures forall i, j :: 0 <= i < j < |DedupBy(s, eq)| ==> !eq(DedupBy(s, eq)[i], DedupBy(s, eq)[j])
    decreases |s|
  {
    if |s| > 0 {
      var pre := s[..|s| - 1];
      var x := s[|s| - 1];
      DedupCovers(pre, eq);
      var d := DedupBy(pre, eq);
      assert forall k :: 0 <= k < |pre| ==> s[k] == pre[k];
      if !HasEq(d, x, eq) {
        var d' := d + [x];
        assert eq(d'[|d|], x);
        forall k | 0 <= k < |s| ensures HasEq(d', s[k], eq) {
          if k < |pre| {
            var i :| 0 <= i < |d| && eq(d[i], pre[k]);
            assert d'[i] == d[i];
          }
        }
        forall i, j | 0 <= i < j < |d'| ensures !eq(d'[i], d'[j]) {
          if j == |d| {
            assert d'[i] == d[i];
          }
        }
      }
    }
  }

  /** De-duplication picks exactly the first element of each class, in order. */
  lemma {:induction false} DedupIsFirstOccurrences<T(!new)>(s: seq<T>, eq: (T, T) -> bool)
    requires IsEquivalence(eq)
    ensures DedupBy(s, eq) == FirstOccurrences(s, eq)
    decreases |s|
  {
    if |s| > 0 {
      var pre := s[..|s| - 1];
      var x := s[|s| - 1];
      DedupIsFirstOccurrences(pre, eq);
      DedupCovers(pre, eq);
      var d := DedupBy(pre, eq);
      assert forall k :: 0 <= k < |pre| ==> s[k] == pre[k];
      if HasEq(d, x, eq) {
        var i :| 0 <= i < |d| && eq(d[i], x);
        assert d[i] in pre;
        var k :| 0 <= k < |pre| && pre[k] == d[i];
        assert !FirstOfClass(s, |s| - 1, eq);
      } else {
        forall k' | 0 <= k' < |s| - 1 ensures !eq(s[k'], x) {
          assert HasEq(d, pre[k'], eq);
          var i :| 0 <= i < |d| && eq(d[i], pre[k']);
        }
      }
    }
  }
}
