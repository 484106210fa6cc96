/** Order-preserving filtering (`Array.prototype.filter`) and the
    subsequence relation it establishes. */
module Filtering {

  /** `a` can be obtained from `b` by deleting elements, keeping order. */
  ghost predicate IsSubsequence<T>(a: seq<T>, b: seq<T>)
    decreases |b|
  {
    if |a| == 0 then true
    else if |b| == 0 then false
    else (a[0] == b[0] && IsSubsequence(a[1..], b[1..])) || IsSubsequence(a, b[1..])
  }

  /** `xs.filter(keep)`: the elements of `xs` that satisfy `keep`, in their
      original order; sound (everything kept satisfies `keep`) and complete
      (everything in `xs` that satisfies `keep` is kept). */
  function Filter<T>(xs: seq<T>, keep: T -> bool): (r: seq<T>)
    ensures |r| <= |xs|
    ensures IsSubsequence(r, xs)
    ensures forall i | 0 <= i < |r| :: r[i] in xs && keep(r[i])
    ensures forall i | 0 <= i < |xs| :: keep(xs[i]) ==> xs[i] in r
  {
    if |xs| == 0 then []
    else if keep(xs[0]) then
      var rest := Filter(xs[1..], keep);
      assert ([xs[0]] + rest)[1..] == rest;
      [xs[0]] + rest
    else
      Filter(xs[1..], keep)
  }

  /** Filtering keeps each element exactly as often as it occurs, when it is
      kept at all: the result is determined up to order by `xs` and `keep`. */
  lemma {:induction false} FilterCounts<T>(xs: seq<T>, keep: T -> bool, x: T)
    ensures multiset(Filter(xs, keep))[x] == if keep(x) then multiset(xs)[x] else 0
  {
    if |xs| > 0 {
      FilterCounts(xs[1..], keep, x);
      assert xs == [xs[0]] + xs[1..];
    }
  }

  /** A predicate that holds of every element keeps the whole sequence. */
  lemma {:induction false} FilterKeepsAll<T>(xs: seq<T>, keep: T -> bool)
    requires forall i | 0 <= i < |xs| :: keep(xs[i])
    ensures Filter(xs, keep) == xs
  {
    if |xs| > 0 {
      FilterKeepsAll(xs[1..], keep);
      assert xs == [xs[0]] + xs[1..];
    }
  }

  lemma {:induction false} SubsequenceReflexive<T>(xs: seq<T>)
    ensures IsSubsequence(xs, xs)
  {
    if |xs| > 0 {
      SubsequenceReflexive(xs[1..]);
    }
  }

  /** Filters that agree on the elements of `xs` filter it alike. */
  lemma {:induction false} FilterCongruent<T>(xs: seq<T>, p: T -> bool, q: T -> bool)
    requires forall i | 0 <= i < |xs| :: p(xs[i]) == q(xs[i])
    ensures Filter(xs, p) == Filter(xs, q)
  {
    if |xs| > 0 {
      FilterCongruent(xs[1..], p, q);
    }
  }

  /** Filtering commutes with concatenation. */
  lemma {:induction false} FilterAppend<T>(xs: seq<T>, ys: seq<T>, keep: T -> bool)
    ensures Filter(xs + ys, keep) == Filter(xs, keep) + Filter(ys, keep)
  {
    if |xs| == 0 {
      assert xs + ys == ys;
    } else {
      var zs := xs + ys;
      assert zs[0] == xs[0];
      assert zs[1..] == xs[1..] + ys;
      FilterAppend(xs[1..], ys, keep);
      if keep(xs[0]) {
        calc {
          Filter(zs, keep);
          [xs[0]] + Filter(xs[1..] + ys, keep);
          [xs[0]] + (Filter(xs[1..], keep) + Filter(ys, keep));
          ([xs[0]] + Filter(xs[1..], keep)) + Filter(ys, keep);
        }
      }
    }
  }
}

/** Multi-select lists (`includes` ? `filter(!==)` : `[...list, x]`). */
module Selection {
  import Filtering

  predicate NoDuplicates<T(==)>(xs: seq<T>) {
    forall i, j | 0 <= i < j < |xs| :: xs[i] != xs[j]
  }

  /** The test `id !== x` that `filter` applies. */
  function Differs<T(==)>(x: T): T -> bool {
    y => y != x
  }

  /** Every occurrence of `x` removed, everything else in order: the result
      is the subsequence of `xs` holding every other element exactly as
      often as `xs` does, and no `x`. */
  function Remove<T(==,!new)>(xs: seq<T>, x: T): (r: seq<T>)
    ensures x !in r
    ensures forall y | y != x :: y in r <==> y in xs
    ensures Filtering.IsSubsequence(r, xs)
    ensures forall y | y != x :: multiset(r)[y] == multiset(xs)[y]
  {
    RemoveCounts(xs, x);
    Filtering.Filter(xs, Differs(x))
  }

  lemma RemoveCounts<T(!new)>(xs: seq<T>, x: T)
    ensures forall y | y != x :: multiset(Filtering.Filter(xs, Differs(x)))[y] == multiset(xs)[y]
  {
    forall y | y != x
      ensures multiset(Filtering.Filter(xs, Differs(x)))[y] == multiset(xs)[y]
    {
      Filtering.FilterCounts(xs, Differs(x), y);
    }
  }

  /** Toggle membership of `x`: a present `x` leaves the list, an absent one
      joins it at the end. */
  function Toggle<T(==,!new)>(xs: seq<T>, x: T): (r: seq<T>)
    ensures x in r <==> x !in xs
    ensures forall y | y != x :: y in r <==> y in xs
    ensures x !in xs ==> r == xs + [x]
    ensures x in xs ==> r == Remove(xs, x)
    ensures NoDuplicates(xs) ==> NoDuplicates(r)
  {
    if x in xs then
      var r := Remove(xs, x);
      SubsequenceKeepsNoDuplicates(r, xs);
      r
    else xs + [x]
  }

  lemma {:induction false} SubsequenceKeepsNoDuplicates<T(!new)>(a: seq<T>, b: seq<T>)
    requires Filtering.IsSubsequence(a, b)
    ensures NoDuplicates(b) ==> NoDuplicates(a)
    decreases |b|
  {
    if |a| > 0 && NoDuplicates(b) {
      assert |b| > 0;
      assert NoDuplicates(b[1..]);
      if a[0] == b[0] && Filtering.IsSubsequence(a[1..], b[1..]) {
        SubsequenceKeepsNoDuplicates(a[1..], b[1..]);
        SubsequenceMembers(a[1..], b[1..]);
        forall j | 0 < j < |a|
          ensures a[0] != a[j]
        {
          assert a[j] == a[1..][j - 1];
          assert a[j] in b[1..];
          var k :| 0 <= k < |b[1..]| && b[1..][k] == a[j];
          assert b[k + 1] == a[j];
        }
      } else {
        SubsequenceKeepsNoDuplicates(a, b[1..]);
      }
    }
  }

  lemma {:induction false} SubsequenceMembers<T>(a: seq<T>, b: seq<T>)
    requires Filtering.IsSubsequence(a, b)
    ensures forall x | x in a :: x in b
    decreases |b|
  {
    if |a| > 0 {
      if a[0] == b[0] && Filtering.IsSubsequence(a[1..], b[1..]) {
        SubsequenceMembers(a[1..], b[1..]);
        assert a == [a[0]] + a[1..];
      } else {
        SubsequenceMembers(a, b[1..]);
      }
    }
  }

  /** Toggling an absent element twice gives back the very same list. */
  lemma ToggleTwiceAbsent<T(!new)>(xs: seq<T>, x: T)
    requires x !in xs
    ensures Toggle(Toggle(xs, x), x) == xs
  {
    FilterNothing(xs + [x], x);
  }

  lemma {:induction false} FilterNothing<T(!new)>(xs: seq<T>, x: T)
    requires |xs| > 0 && x !in xs[..|xs| - 1] && xs[|xs| - 1] == x
    ensures Remove(xs, x) == xs[..|xs| - 1]
  {
    Filtering.FilterAppend(xs[..|xs| - 1], [x], Differs(x));
    Filtering.FilterKeepsAll(xs[..|xs| - 1], Differs(x));
    assert xs == xs[..|xs| - 1] + [x];
  }

  /** Toggling a present element twice restores the membership, with `x`
      moved to the end; on a duplicate-free list the length is restored too. */
  lemma TogglePresentTwice<T(!new)>(xs: seq<T>, x: T)
    requires x in xs
    ensures Toggle(Toggle(xs, x), x) == Remove(xs, x) + [x]
    ensures forall y :: y in Toggle(Toggle(xs, x), x) <==> y in xs
  {
  }

  /** The double toggle need not give back the same list: [1, 2] becomes [2, 1]. */
  lemma TogglePresentTwiceReorders()
    ensures Toggle(Toggle([1, 2], 1), 1) == [2, 1]
  {
    assert 1 in [1, 2];
    var once := Toggle([1, 2], 1);
    assert once == Filtering.Filter([1, 2], Differs(1));
    assert Filtering.Filter([2], Differs(1)) == [2];
    assert [1, 2][1..] == [2];
    assert once == [2];
  }
}

/** A stable insertion sort with respect to an ordering passed in as a
    function, standing for `Array.prototype.sort` with a comparator. */
module Sorting {

  ghost predicate TotalPreorder<T(!new)>(leq: (T, T) -> bool) {
    && (forall x, y :: leq(x, y) || leq(y, x))
    && (forall x, y, z :: leq(x, y) && leq(y, z) ==> leq(x, z))
  }

  ghost predicate SortedBy<T>(leq: (T, T) -> bool, xs: seq<T>) {
    forall i, j | 0 <= i < j < |xs| :: leq(xs[i], xs[j])
  }

  /** Put `x` in front of the first element it is at most; elements equal
      to `x` that follow keep following it, which keeps the sort stable. */
  function Insert<T>(x: T, ys: seq<T>, leq: (T, T) -> bool): (r: seq<T>)
    ensures multiset(r) == multiset(ys) + multiset{x}
  {
    if |ys| == 0 || leq(x, ys[0]) then [x] + ys
    else
      assert ys == [ys[0]] + ys[1..];
      [ys[0]] + Insert(x, ys[1..], leq)
  }

  function Sort<T>(xs: seq<T>, leq: (T, T) -> bool): (r: seq<T>)
    ensures multiset(r) == multiset(xs)
  {
    if |xs| == 0 then []
    else
      assert xs == [xs[0]] + xs[1..];
      Insert(xs[0], Sort(xs[1..], leq), leq)
  }

  lemma {:induction false} InsertSorted<T(!new)>(x: T, ys: seq<T>, leq: (T, T) -> bool)
    requires TotalPreorder(leq)
    requires SortedBy(leq, ys)
    ensures SortedBy(leq, Insert(x, ys, leq))
  {
    if |ys| > 0 && !leq(x, ys[0]) {
      var tail := ys[1..];
      InsertSorted(x, tail, leq);
      var ins := Insert(x, tail, leq);
      forall k | 0 <= k < |ins|
        ensures leq(ys[0], ins[k])
      {
        assert ins[k] in multiset(ins);
        if ins[k] != x {
          assert ins[k] in multiset(tail);
          var m :| 0 <= m < |tail| && tail[m] == ins[k];
          assert tail[m] == ys[m + 1];
        }
      }
    }
  }

  /** The sorted result is ordered whenever `leq` is a total preorder. */
  lemma {:induction false} SortSorted<T(!new)>(xs: seq<T>, leq: (T, T) -> bool)
    requires TotalPreorder(leq)
    ensures SortedBy(leq, Sort(xs, leq))
  {
    if |xs| > 0 {
      SortSorted(xs[1..], leq);
      InsertSorted(xs[0], Sort(xs[1..], leq), leq);
    }
  }
}
