/** Sequence operations used by the list views: filtering, distinct values and tallies. */
module Seqs {

  /** `xs.filter(p)`. */
  function Filter<T(==)>(xs: seq<T>, p: T -> bool): (r: seq<T>)
    ensures |r| <= |xs|
    ensures forall i :: 0 <= i < |r| ==> r[i] in xs && p(r[i])
    ensures forall i :: 0 <= i < |xs| && p(xs[i]) ==> xs[i] in r
  {
    if xs == [] then []
    else if p(xs[0]) then [xs[0]] + Filter(xs[1..], p)
    else Filter(xs[1..], p)
  }

  /** `a` is obtained from `b` by deleting elements, keeping the order of the rest. */
  predicate IsSubsequence<T(==)>(a: seq<T>, b: seq<T>)
    decreases |b|
  {
    if a == [] then true
    else if b == [] then false
    else if a[0] == b[0] then IsSubsequence(a[1..], b[1..])
    else IsSubsequence(a, b[1..])
  }

  /** Filtering keeps the survivors in their original order. */
  lemma {:induction false} FilterIsSubsequence<T>(xs: seq<T>, p: T -> bool)
    ensures IsSubsequence(Filter(xs, p), xs)
  {
    if xs != [] {
      FilterIsSubsequence(xs[1..], p);
    }
  }

  /** Filtering by a condition that every element meets changes nothing. */
  lemma {:induction false} FilterAll<T>(xs: seq<T>, p: T -> bool)
    requires forall i :: 0 <= i < |xs| ==> p(xs[i])
    ensures Filter(xs, p) == xs
  {
    if xs != [] {
      FilterAll(xs[1..], p);
    }
  }

  /** Filtering with equivalent conditions gives the same list. */
  lemma {:induction false} FilterEquivalent<T>(xs: seq<T>, p: T -> bool, q: T -> bool)
    requires forall i :: 0 <= i < |xs| ==> p(xs[i]) == q(xs[i])
    ensures Filter(xs, p) == Filter(xs, q)
  {
    if xs != [] {
      FilterEquivalent(xs[1..], p, q);
    }
  }

  predicate NoDuplicates<T(==)>(xs: seq<T>) {
    forall i, j :: 0 <= i < j < |xs| ==> xs[i] != xs[j]
  }

  /** `[...new Set(xs)]`: each value once, in order of first occurrence. */
  function Distinct<T(==)>(xs: seq<T>): (r: seq<T>)
    ensures NoDuplicates(r)
    ensures forall i :: 0 <= i < |r| ==> r[i] in xs
    ensures forall i :: 0 <= i < |xs| ==> xs[i] in r
    ensures |r| <= |xs|
    decreases |xs|
  {
    if xs == [] then []
    else
      var d := Distinct(xs[..|xs| - 1]);
      var x := xs[|xs| - 1];
      assert forall i :: 0 <= i < |xs| - 1 ==> xs[i] == xs[..|xs| - 1][i];
      if x in d then d else d + [x]
  }

  /** The distinct values are drawn from `xs` in its own order. */
  lemma {:induction false} DistinctIsSubsequence<T>(xs: seq<T>)
    ensures IsSubsequence(Distinct(xs), xs)
    decreases |xs|
  {
    if xs != [] {
      var init := xs[..|xs| - 1];
      DistinctIsSubsequence(init);
      SubsequenceAppend(Distinct(init), init, xs[|xs| - 1]);
      assert xs == init + [xs[|xs| - 1]];
    }
  }

  /** `r` lists values of `xs` in the order they first occur there: whatever comes
      earlier in `r` occurs in `xs` before any occurrence of what comes later. */
  predicate InFirstOccurrenceOrder<T(==)>(r: seq<T>, xs: seq<T>) {
    forall i, j, k :: 0 <= i < j < |r| && 0 <= k < |xs| && xs[k] == r[j] ==> r[i] in xs[..k]
  }

  /** The distinct values come in first-occurrence order. */
  lemma {:induction false} DistinctInFirstOccurrenceOrder<T>(xs: seq<T>)
    ensures InFirstOccurrenceOrder(Distinct(xs), xs)
    decreases |xs|
  {
    if xs != [] {
      var n := |xs|;
      var init, x := xs[..n - 1], xs[n - 1];
      var d := Distinct(init);
      DistinctInFirstOccurrenceOrder(init);
      var r := Distinct(xs);
      assert r == if x in d then d else d + [x];
      forall i, j, k | 0 <= i < j < |r| && 0 <= k < n && xs[k] == r[j]
        ensures r[i] in xs[..k]
      {
        assert r[i] == d[i];
        if k < n - 1 {
          assert xs[k] == init[k];
          if j < |d| {
            assert d[i] in init[..k];
            assert init[..k] == xs[..k];
          }
        } else {
          assert d[i] in init;
          assert init == xs[..k];
        }
      }
    }
  }

  lemma {:induction false} SubsequenceAppend<T>(a: seq<T>, b: seq<T>, x: T)
    requires IsSubsequence(a, b)
    ensures IsSubsequence(a, b + [x])
    ensures IsSubsequence(a + [x], b + [x])
    decreases |b|
  {
    if a == [] {
      assert IsSubsequence([x], [x]) by {
        assert [x][1..] == [];
      }
      SubsequenceOfSingle(x, b);
      assert a + [x] == [x];
    } else if b == [] {
    } else if a[0] == b[0] {
      SubsequenceAppend(a[1..], b[1..], x);
      assert (b + [x])[1..] == b[1..] + [x];
      assert (a + [x])[1..] == a[1..] + [x];
    } else {
      SubsequenceAppend(a, b[1..], x);
      assert (b + [x])[1..] == b[1..] + [x];
    }
  }

  lemma {:induction false} SubsequenceOfSingle<T>(x: T, b: seq<T>)
    ensures IsSubsequence([x], b + [x])
    decreases |b|
  {
    if b != [] {
      if b[0] != x {
        SubsequenceOfSingle(x, b[1..]);
        assert (b + [x])[1..] == b[1..] + [x];
      } else {
        assert IsSubsequence([x][1..], (b + [x])[1..]);
      }
    }
  }

  /** How many times `x` occurs in `xs`. */
  function Occurrences<T(==)>(xs: seq<T>, x: T): (r: nat)
    ensures r <= |xs|
    ensures r > 0 <==> x in xs
    decreases |xs|
  {
    if xs == [] then 0
    else Occurrences(xs[..|xs| - 1], x) + (if xs[|xs| - 1] == x then 1 else 0)
  }

  lemma NoDuplicatesSnoc<T>(xs: seq<T>, x: T)
    requires NoDuplicates(xs) && x !in xs
    ensures NoDuplicates(xs + [x])
  {
  }

  lemma AppendAssoc<T>(a: seq<T>, b: seq<T>, c: seq<T>)
    ensures (a + b) + c == a + (b + c)
  {
  }

  lemma OccurrencesSnoc<T>(xs: seq<T>, x: T, y: T)
    ensures Occurrences(xs + [x], y) == Occurrences(xs, y) + (if x == y then 1 else 0)
  {
    assert (xs + [x])[..|xs|] == xs;
  }

  /** Sum of the occurrence counts of the values `ks` in `xs`. */
  function SumOccurrences<T(==)>(ks: seq<T>, xs: seq<T>): nat
    decreases |ks|
  {
    if ks == [] then 0 else Occurrences(xs, ks[0]) + SumOccurrences(ks[1..], xs)
  }

  lemma {:induction false} SumOccurrencesAppend<T>(ks: seq<T>, xs: seq<T>, y: T)
    requires NoDuplicates(ks)
    ensures SumOccurrences(ks, xs + [y]) == SumOccurrences(ks, xs) + (if y in ks then 1 else 0)
    decreases |ks|
  {
    if ks != [] {
      assert (xs + [y])[..|xs + [y]| - 1] == xs;
      SumOccurrencesAppend(ks[1..], xs, y);
      assert y in ks <==> y == ks[0] || y in ks[1..];
      assert ks[0] !in ks[1..] by {
        forall j | 0 <= j < |ks[1..]|
          ensures ks[1..][j] != ks[0]
        {
          assert ks[1..][j] == ks[j + 1];
        }
      }
    }
  }

  lemma {:induction false} SumOccurrencesSnoc<T>(ks: seq<T>, x: T, xs: seq<T>)
    ensures SumOccurrences(ks + [x], xs) == SumOccurrences(ks, xs) + Occurrences(xs, x)
    decreases |ks|
  {
    if ks != [] {
      assert (ks + [x])[1..] == ks[1..] + [x];
      SumOccurrencesSnoc(ks[1..], x, xs);
    }
  }

  /** Counting every distinct value accounts for every element exactly once. */
  lemma {:induction false} DistinctCountsSum<T>(xs: seq<T>)
    ensures SumOccurrences(Distinct(xs), xs) == |xs|
    decreases |xs|
  {
    if xs != [] {
      var init, x := xs[..|xs| - 1], xs[|xs| - 1];
      assert xs == init + [x];
      DistinctCountsSum(init);
      var d := Distinct(init);
      SumOccurrencesAppend(d, init, x);
      if x !in d {
        SumOccurrencesSnoc(d, x, xs);
        assert Occurrences(xs, x) == Occurrences(init, x) + 1;
        assert Occurrences(init, x) == 0;
      }
    }
  }

  /** A counter object filled by `counts[k] = (counts[k] || 0) + 1` over `ks`, read back
      with `Object.keys`: one entry per distinct key, in first-occurrence order. */
  function TallyOf<T(==)>(ks: seq<T>): (r: seq<(T, nat)>)
    ensures |r| == |Distinct(ks)|
    ensures forall i :: 0 <= i < |r| ==> r[i].0 == Distinct(ks)[i] && r[i].1 == Occurrences(ks, r[i].0)
  {
    var d := Distinct(ks);
    seq(|d|, i requires 0 <= i < |d| => (d[i], Occurrences(ks, d[i])))
  }

  function SumCounts<T>(entries: seq<(T, nat)>): nat
    decreases |entries|
  {
    if entries == [] then 0 else entries[0].1 + SumCounts(entries[1..])
  }

  lemma {:induction false} SumCountsIsSumOccurrences<T>(entries: seq<(T, nat)>, ks: seq<T>, xs: seq<T>)
    requires |entries| == |ks|
    requires forall i :: 0 <= i < |ks| ==> entries[i].1 == Occurrences(xs, ks[i])
    ensures SumCounts(entries) == SumOccurrences(ks, xs)
    decreases |ks|
  {
    if ks != [] {
      SumCountsIsSumOccurrences(entries[1..], ks[1..], xs);
    }
  }

  /** The counts of a tally add up to the number of values counted, each count is at
      least one, and no key is listed twice. */
  lemma TallySum<T>(ks: seq<T>)
    ensures SumCounts(TallyOf(ks)) == |ks|
    ensures forall i :: 0 <= i < |TallyOf(ks)| ==> TallyOf(ks)[i].1 >= 1
    ensures forall k :: k in ks <==> exists i :: 0 <= i < |TallyOf(ks)| && TallyOf(ks)[i].0 == k
  {
    var t, d := TallyOf(ks), Distinct(ks);
    SumCountsIsSumOccurrences(t, d, ks);
    DistinctCountsSum(ks);
    forall k | k in ks
      ensures exists i :: 0 <= i < |t| && t[i].0 == k
    {
      var i :| 0 <= i < |d| && d[i] == k;
      assert t[i].0 == k;
    }
  }
}
