/**
 * Stable sorting of query results: one pass per sort key, each pass a stable
 * sort on the key's value with an optional reversal, applied in place.
 */
module Sorting {
  import opened Values
  import opened Seqs

  /** One `list.sort(key=..., reverse=...)` pass. */
  datatype SortKey<!T> = SortKey(get: T -> Value, descending: bool) {

    /** In this pass `a` must come strictly before `b`. */
    predicate Before(a: T, b: T) {
      if descending then Less(get(b), get(a)) else Less(get(a), get(b))
    }

    /** Neither record must come before the other: a stable pass keeps their order. */
    predicate Ties(a: T, b: T) {
      Tied(get(a), get(b))
    }
  }

  lemma BeforeAsymmetric<T>(k: SortKey<T>, a: T, b: T)
    requires k.Before(a, b)
    ensures !k.Before(b, a) && !k.Ties(a, b) && !k.Ties(b, a)
  {
    if k.Before(b, a) {
      LessTransitive(k.get(a), k.get(b), k.get(a));
      LessIrreflexive(k.get(a));
    }
  }

  lemma BeforeNegativelyTransitive<T>(k: SortKey<T>, a: T, b: T, c: T)
    requires k.Before(a, c)
    ensures k.Before(a, b) || k.Before(b, c)
  {
    if k.descending {
      LessNegativelyTransitive(k.get(c), k.get(b), k.get(a));
    } else {
      LessNegativelyTransitive(k.get(a), k.get(b), k.get(c));
    }
  }

  /** No later record must come before an earlier one. */
  predicate Sorted<T>(s: seq<T>, k: SortKey<T>) {
    forall i, j :: 0 <= i < j < |s| ==> !k.Before(s[j], s[i])
  }

  /** Inserting `x` at the end of the sorted `p` and moving it left past every record it must precede. */
  function Insert<T>(p: seq<T>, x: T, k: SortKey<T>): (r: seq<T>)
    ensures |r| == |p| + 1
    decreases |p|
  {
    if |p| == 0 then [x]
    else
      assert p == p[..|p| - 1] + [p[|p| - 1]];
      if k.Before(x, p[|p| - 1]) then Insert(p[..|p| - 1], x, k) + [p[|p| - 1]]
      else p + [x]
  }

  /** Reference definition of one stable pass: insertion sort from the left. */
  function SortPass<T>(s: seq<T>, k: SortKey<T>): (r: seq<T>)
    ensures |r| == |s|
    decreases |s|
  {
    if |s| == 0 then []
    else
      assert s == s[..|s| - 1] + [s[|s| - 1]];
      Insert(SortPass(s[..|s| - 1], k), s[|s| - 1], k)
  }

  lemma {:induction false} InsertPermutes<T>(p: seq<T>, x: T, k: SortKey<T>)
    ensures multiset(Insert(p, x, k)) == multiset(p) + multiset{x}
    decreases |p|
  {
    if |p| > 0 {
      var p' := p[..|p| - 1];
      assert p == p' + [p[|p| - 1]];
      InsertPermutes(p', x, k);
    }
  }

  /** A pass rearranges the records and neither drops nor duplicates any. */
  lemma {:induction false} SortPassPermutes<T>(s: seq<T>, k: SortKey<T>)
    ensures multiset(SortPass(s, k)) == multiset(s)
    decreases |s|
  {
    if |s| > 0 {
      var init := s[..|s| - 1];
      assert s == init + [s[|s| - 1]];
      SortPassPermutes(init, k);
      InsertPermutes(SortPass(init, k), s[|s| - 1], k);
    }
  }

  lemma {:induction false} InsertSorted<T>(p: seq<T>, x: T, k: SortKey<T>)
    requires Sorted(p, k)
    ensures Sorted(Insert(p, x, k), k)
    decreases |p|
  {
    if |p| > 0 {
      var l := p[|p| - 1];
      var p' := p[..|p| - 1];
      if k.Before(x, l) {
        InsertSorted(p', x, k);
        var q := Insert(p', x, k);
        var r := q + [l];
        BeforeAsymmetric(k, x, l);
        InsertPermutes(p', x, k);
        forall i | 0 <= i < |q| ensures !k.Before(l, q[i]) {
          assert q[i] in multiset(q);
          if q[i] != x {
            var m :| 0 <= m < |p'| && p'[m] == q[i];
            assert p[m] == q[i];
          }
        }
        forall i, j | 0 <= i < j < |r| ensures !k.Before(r[j], r[i]) {
          if j == |q| {
            assert r[j] == l && r[i] == q[i];
          } else {
            assert r[j] == q[j] && r[i] == q[i];
          }
        }
      } else {
        var r := p + [x];
        forall i | 0 <= i < |p| ensures !k.Before(x, p[i]) {
          if k.Before(x, p[i]) {
            BeforeNegativelyTransitive(k, x, l, p[i]);
          }
        }
        forall i, j | 0 <= i < j < |r| ensures !k.Before(r[j], r[i]) {
          if j < |p| {
            assert r[j] == p[j] && r[i] == p[i];
          }
        }
      }
    }
  }

  /** A pass orders the records by its key. */
  lemma {:induction false} SortPassSorted<T>(s: seq<T>, k: SortKey<T>)
    ensures Sorted(SortPass(s, k), k)
    decreases |s|
  {
    if |s| > 0 {
      SortPassSorted(s[..|s| - 1], k);
      InsertSorted(SortPass(s[..|s| - 1], k), s[|s| - 1], k);
    }
  }

  /** `P` selects records of which no two must be reordered by `k`. */
  ghost predicate WithinTies<T(!new)>(P: T -> bool, k: SortKey<T>) {
    forall a, b :: P(a) && P(b) ==> k.Ties(a, b)
  }

  lemma {:induction false} InsertStable<T(!new)>(p: seq<T>, x: T, k: SortKey<T>, P: T -> bool)
    requires WithinTies(P, k)
    ensures Filter(Insert(p, x, k), P) == Filter(p, P) + Filter([x], P)
    decreases |p|
  {
    if |p| > 0 {
      var l := p[|p| - 1];
      var p' := p[..|p| - 1];
      assert p == p' + [l];
      if k.Before(x, l) {
        var q := Insert(p', x, k);
        assert Insert(p, x, k) == q + [l];
        InsertStable(p', x, k, P);
        SwapUntied(x, l, k, P);
        FilterConcat(q, [l], P);
        FilterConcat(p', [l], P);
        AppendSwapTail(Filter(p', P), Filter([x], P), Filter([l], P));
      } else {
        assert Insert(p, x, k) == p + [x];
        FilterConcat(p, [x], P);
      }
    } else {
      assert [] + [x] == [x];
    }
  }

  lemma AppendSwapTail<T>(a: seq<T>, x: seq<T>, l: seq<T>)
    requires x + l == l + x
    ensures a + x + l == a + l + x
  {
    assert a + x + l == a + (x + l);
    assert a + l + x == a + (l + x);
  }

  /** Records a pass must reorder are never both selected by a `WithinTies` set. */
  lemma SwapUntied<T(!new)>(x: T, l: T, k: SortKey<T>, P: T -> bool)
    requires WithinTies(P, k) && k.Before(x, l)
    ensures Filter([x], P) + Filter([l], P) == Filter([l], P) + Filter([x], P)
  {
    BeforeAsymmetric(k, x, l);
    FilterSingleton(x, P);
    FilterSingleton(l, P);
  }

  /** Stability: records a pass cannot tell apart keep their relative order. */
  lemma {:induction false} SortPassStable<T(!new)>(s: seq<T>, k: SortKey<T>, P: T -> bool)
    requires WithinTies(P, k)
    ensures Filter(SortPass(s, k), P) == Filter(s, P)
    decreases |s|
  {
    if |s| > 0 {
      var init := s[..|s| - 1];
      assert s == init + [s[|s| - 1]];
      SortPassStable(init, k, P);
      InsertStable(SortPass(init, k), s[|s| - 1], k, P);
      FilterConcat(init, [s[|s| - 1]], P);
    }
  }

  /** All records tied with `c` under `k` form a set `WithinTies` accepts. */
  lemma TieClassWithinTies<T(!new)>(k: SortKey<T>, c: T)
    ensures WithinTies(y => k.Ties(y, c), k)
  {
    forall a, b | k.Ties(a, c) && k.Ties(b, c) ensures k.Ties(a, b) {
      TiedIsEquivalence(k.get(a), k.get(c), k.get(b));
      TiedIsEquivalence(k.get(b), k.get(c), k.get(a));
    }
  }

  /** `_run_sort`: one pass per key, the last key first, so the first key is primary. */
  function SortAll<T>(s: seq<T>, ks: seq<SortKey<T>>): (r: seq<T>)
    ensures |r| == |s|
    decreases |ks|
  {
    if |ks| == 0 then s else SortPass(SortAll(s, ks[1..]), ks[0])
  }

  /** The multi-key result is a permutation of the input. */
  lemma {:induction false} SortAllPermutes<T>(s: seq<T>, ks: seq<SortKey<T>>)
    ensures multiset(SortAll(s, ks)) == multiset(s)
    decreases |ks|
  {
    if |ks| > 0 {
      SortAllPermutes(s, ks[1..]);
      SortPassPermutes(SortAll(s, ks[1..]), ks[0]);
    }
  }

  /** `a` precedes `b` lexicographically: by the first key that separates them. */
  predicate LexBefore<T>(ks: seq<SortKey<T>>, a: T, b: T)
    decreases |ks|
  {
    |ks| > 0 && (ks[0].Before(a, b) || (ks[0].Ties(a, b) && LexBefore(ks[1..], a, b)))
  }

  predicate LexSorted<T>(s: seq<T>, ks: seq<SortKey<T>>) {
    forall i, j :: 0 <= i < j < |s| ==> !LexBefore(ks, s[j], s[i])
  }

  /** The multi-key result is ordered by the first key, ties by the second, and so on. */
  lemma {:induction false} SortAllLexSorted<T(!new)>(s: seq<T>, ks: seq<SortKey<T>>)
    ensures LexSorted(SortAll(s, ks), ks)
    decreases |ks|
  {
    if |ks| > 0 {
      var t := SortAll(s, ks[1..]);
      SortAllLexSorted(s, ks[1..]);
      var r := SortPass(t, ks[0]);
      SortPassSorted(t, ks[0]);
      var rel := (x: T, y: T) => !LexBefore(ks[1..], y, x);
      assert Pairwise(t, rel);
      forall i, j | 0 <= i < j < |r| ensures !LexBefore(ks, r[j], r[i]) {
        if ks[0].Ties(r[j], r[i]) {
          var c := r[i];
          var P := (y: T) => ks[0].Ties(y, c);
          TieClassWithinTies(ks[0], c);
          TiedIsEquivalence(ks[0].get(c), ks[0].get(r[j]), ks[0].get(c));
          SortPassStable(t, ks[0], P);
          FilterKeepsOrder(r, P, i, j);
          var i', j' :| 0 <= i' < j' < |Filter(r, P)| && Filter(r, P)[i'] == r[i] && Filter(r, P)[j'] == r[j];
          FilterPairwise(t, P, rel);
          assert rel(Filter(t, P)[i'], Filter(t, P)[j']);
        }
      }
    }
  }

  /** Ts tied under every key keep their input order across all passes. */
  lemma {:induction false} SortAllStable<T(!new)>(s: seq<T>, ks: seq<SortKey<T>>, P: T -> bool)
    requires forall n :: 0 <= n < |ks| ==> WithinTies(P, ks[n])
    ensures Filter(SortAll(s, ks), P) == Filter(s, P)
    decreases |ks|
  {
    if |ks| > 0 {
      assert WithinTies(P, ks[0]);
      assert forall n :: 0 <= n < |ks[1..]| ==> WithinTies(P, ks[1..][n]) by {
        forall n | 0 <= n < |ks[1..]| ensures WithinTies(P, ks[1..][n]) {
          assert ks[1..][n] == ks[n + 1];
        }
      }
      SortAllStable(s, ks[1..], P);
      SortPassStable(SortAll(s, ks[1..]), ks[0], P);
    }
  }

  /** The insertion moves `x` one step further left past a record it must precede. */
  lemma InsertStep<T>(p: seq<T>, j: nat, x: T, k: SortKey<T>)
    requires 0 < j <= |p| && k.Before(x, p[j - 1])
    ensures Insert(p[..j], x, k) + p[j..] == Insert(p[..j - 1], x, k) + p[j - 1..]
  {
    assert p[..j][..j - 1] == p[..j - 1];
    assert [p[j - 1]] + p[j..] == p[j - 1..];
  }

  /** The insertion stops in front of the first record from the right that `x` need not precede. */
  lemma InsertStop<T>(p: seq<T>, j: nat, x: T, k: SortKey<T>)
    requires j <= |p| && (j == 0 || !k.Before(x, p[j - 1]))
    ensures Insert(p[..j], x, k) == p[..j] + [x]
  {
    if j > 0 {
      assert p[..j][..j - 1] + [p[..j][j - 1]] == p[..j];
    }
  }

  /** Moves `a[i]` left past the records of the sorted prefix `a[..i]` it must precede. */
  method InsertLast<T>(a: array<T>, i: nat, k: SortKey<T>)
    requires i < a.Length
    modifies a
    ensures a[..i + 1] == Insert(old(a[..i]), old(a[i]), k)
    ensures a[i + 1..] == old(a[i + 1..])
  {
    ghost var p := a[..i];
    var x := a[i];
    var j := i;
    assert p[..j] == p && p[j..] == [];
    while j > 0 && k.Before(x, a[j - 1])
      invariant 0 <= j <= i
      invariant forall m :: 0 <= m < j ==> a[m] == p[m]
      invariant forall m :: j < m <= i ==> a[m] == p[m - 1]
      invariant forall m :: i < m < a.Length ==> a[m] == old(a[m])
      invariant Insert(p, x, k) == Insert(p[..j], x, k) + p[j..]
    {
      InsertStep(p, j, x, k);
      a[j] := a[j - 1];
      j := j - 1;
    }
    InsertStop(p, j, x, k);
    a[j] := x;
    ghost var r := p[..j] + [x] + p[j..];
    forall m | 0 <= m <= i ensures a[m] == r[m] {
      if m < j {
        assert r[m] == p[m];
      } else if m > j {
        assert r[m] == p[m - 1];
      }
    }
    assert a[..i + 1] == r;
  }

  /** One pass in place: insertion sort, `obj_list.sort(key=..., reverse=...)`. */
  method SortInPlace<T>(a: array<T>, k: SortKey<T>)
    modifies a
    ensures a[..] == SortPass(old(a[..]), k)
  {
    ghost var s := a[..];
    var i := 0;
    while i < a.Length
      invariant 0 <= i <= a.Length
      invariant forall m :: i <= m < a.Length ==> a[m] == s[m]
      invariant a[..i] == SortPass(s[..i], k)
    {
      ghost var sorted := a[..i];
      assert a[i] == s[i];
      assert s[..i + 1][..i] == s[..i];
      assert SortPass(s[..i + 1], k) == Insert(sorted, s[i], k);
      InsertLast(a, i, k);
      assert forall m :: i + 1 <= m < a.Length ==> a[m] == a[i + 1..][m - i - 1];
      i := i + 1;
    }
    assert a[..] == a[..a.Length];
    assert s == s[..a.Length];
  }

  /** `_run_sort` on the caller's list: the passes in reverse key order. */
  method RunSort<T>(a: array<T>, ks: seq<SortKey<T>>)
    modifies a
    ensures a[..] == SortAll(old(a[..]), ks)
  {
    var n := |ks|;
    assert ks[n..] == [];
    while n > 0
      invariant 0 <= n <= |ks|
      invariant a[..] == SortAll(old(a[..]), ks[n..])
    {
      n := n - 1;
      assert ks[n..][1..] == ks[n + 1..];
      SortInPlace(a, ks[n]);
    }
  }
}
