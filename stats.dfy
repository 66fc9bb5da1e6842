/**
 * The reductions the logger takes from Python and numpy over real numbers:
 * `sorted`, `sum`, the arithmetic mean, `sorted(q)[len(q)//2]` and `np.median`.
 * Rounding is not modelled: every value is a mathematical real.
 */
module Stats {

  predicate IsSorted(s: seq<real>)
  {
    forall i, j :: 0 <= i < j < |s| ==> s[i] <= s[j]
  }

  /** Every element of `s` lies in `[lo, hi]`. */
  predicate Bounded(s: seq<real>, lo: real, hi: real)
  {
    forall i :: 0 <= i < |s| ==> lo <= s[i] <= hi
  }

  predicate AllPositive(s: seq<real>)
  {
    forall i :: 0 <= i < |s| ==> s[i] > 0.0
  }

  /** Inserts `x` into `s` before the first element not smaller than it. */
  function Insert(x: real, s: seq<real>): (r: seq<real>)
    ensures |r| == |s| + 1
    ensures multiset(r) == multiset(s) + multiset{x}
  {
    if s == [] || x <= s[0] then [x] + s
    else
      assert s == [s[0]] + s[1..];
      [s[0]] + Insert(x, s[1..])
  }

  /** An ascending sequence stays ascending when a lower bound of it is put in front. */
  lemma SortedCons(h: real, t: seq<real>)
    requires IsSorted(t)
    requires forall i :: 0 <= i < |t| ==> h <= t[i]
    ensures IsSorted([h] + t)
  {
  }

  /** Inserting into an ascending sequence keeps it ascending. */
  lemma {:induction false} InsertKeepsSorted(x: real, s: seq<real>)
    requires IsSorted(s)
    ensures IsSorted(Insert(x, s))
  {
    if s == [] || x <= s[0] {
      SortedCons(x, s);
    } else {
      var tail := s[1..];
      var t := Insert(x, tail);
      InsertKeepsSorted(x, tail);
      forall j | 0 <= j < |t| ensures s[0] <= t[j] {
        assert t[j] in multiset(t);
        if t[j] != x {
          assert t[j] in multiset(tail);
          var k :| 0 <= k < |tail| && tail[k] == t[j];
          assert s[k + 1] == t[j];
        }
      }
      SortedCons(s[0], t);
    }
  }

  /** Python's `sorted` on a list of numbers, as insertion sort (see `SortIsSortedPermutation`). */
  function Sort(s: seq<real>): (r: seq<real>)
    ensures |r| == |s|
  {
    if s == [] then [] else Insert(s[0], Sort(s[1..]))
  }

  /** `Sort(s)` holds the same values as `s`, with the same multiplicities. */
  lemma {:induction false} SortPermutes(s: seq<real>)
    ensures multiset(Sort(s)) == multiset(s)
  {
    if s != [] {
      SortPermutes(s[1..]);
      assert s == [s[0]] + s[1..];
    }
  }

  /** `Sort(s)` is ascending. */
  lemma {:induction false} SortAscends(s: seq<real>)
    ensures IsSorted(Sort(s))
  {
    if s != [] {
      SortAscends(s[1..]);
      InsertKeepsSorted(s[0], Sort(s[1..]));
    }
  }

  /** `Sort(s)` is the ascending permutation of `s`. */
  lemma SortIsSortedPermutation(s: seq<real>)
    ensures multiset(Sort(s)) == multiset(s)
    ensures IsSorted(Sort(s))
  {
    SortPermutes(s);
    SortAscends(s);
  }

  /** The first element of an ascending sequence is at most each of its values. */
  lemma HeadIsLeast(a: seq<real>, x: real)
    requires IsSorted(a) && x in multiset(a)
    ensures a[0] <= x
  {
    var j :| 0 <= j < |a| && a[j] == x;
  }

  /** Removing the head removes one copy of it from the multiset, and keeps the order. */
  lemma Tail(a: seq<real>)
    requires a != []
    ensures multiset(a[1..]) == multiset(a) - multiset{a[0]}
    ensures IsSorted(a) ==> IsSorted(a[1..])
  {
    assert a == [a[0]] + a[1..];
  }

  /** Two sequences with equal heads and equal tails are equal. */
  lemma HeadTail(a: seq<real>, b: seq<real>)
    requires a != [] && b != [] && a[0] == b[0] && a[1..] == b[1..]
    ensures a == b
  {
    assert a == [a[0]] + a[1..];
    assert b == [b[0]] + b[1..];
  }

  /** Two ascending sequences holding the same multiset are equal: whatever algorithm Python's
      `sorted` runs, its result is the one `Sort` computes. */
  lemma {:induction false} SortedPermutationUnique(a: seq<real>, b: seq<real>)
    requires IsSorted(a) && IsSorted(b)
    requires multiset(a) == multiset(b)
    ensures a == b
  {
    assert |a| == |b| by {
      assert |multiset(a)| == |a| && |multiset(b)| == |b|;
    }
    if a != [] {
      assert a[0] in multiset(a) && b[0] in multiset(b);
      HeadIsLeast(a, b[0]);
      HeadIsLeast(b, a[0]);
      Tail(a);
      Tail(b);
      SortedPermutationUnique(a[1..], b[1..]);
      HeadTail(a, b);
    }
  }

  /** Every element of the sorted sequence is an element of the input. */
  lemma SortElement(s: seq<real>, i: int)
    requires 0 <= i < |s|
    ensures Sort(s)[i] in s
  {
    SortIsSortedPermutation(s);
    assert Sort(s)[i] in multiset(Sort(s));
  }

  lemma SortBounded(s: seq<real>, lo: real, hi: real)
    requires Bounded(s, lo, hi)
    ensures Bounded(Sort(s), lo, hi)
  {
    forall i | 0 <= i < |s| ensures lo <= Sort(s)[i] <= hi {
      SortElement(s, i);
    }
  }

  /**
   * The `k` largest values of `s` in ascending order, which is what
   * `np.sort(s[np.argpartition(s, -k)[-k:]])` yields.
   */
  function Largest(s: seq<real>, k: nat): seq<real>
    requires k <= |s|
  {
    Sort(s)[|s| - k..]
  }

  /**
   * `Largest(s, k)` is ascending, is drawn from `s` (with multiplicity), and every value of `s`
   * it leaves out is no larger than its smallest element.
   */
  lemma LargestAreLargest(s: seq<real>, k: nat)
    requires 0 < k <= |s|
    ensures IsSorted(Largest(s, k))
    ensures multiset(Largest(s, k)) <= multiset(s)
    ensures forall x :: x in multiset(s) - multiset(Largest(s, k)) ==> x <= Largest(s, k)[0]
  {
    var t := Sort(s);
    var m := |s| - k;
    SortIsSortedPermutation(s);
    SuffixOfSorted(t, m);
    LowerPartBelow(t, m);
    SplitMultiset(t, m);
  }

  /** A suffix of an ascending sequence is ascending. */
  lemma SuffixOfSorted(t: seq<real>, m: nat)
    requires IsSorted(t) && m <= |t|
    ensures IsSorted(t[m..])
  {
  }

  /** Cutting `t` at `m` splits its multiset into the two parts. */
  lemma SplitMultiset(t: seq<real>, m: nat)
    requires m <= |t|
    ensures multiset(t[m..]) <= multiset(t)
    ensures multiset(t) - multiset(t[m..]) == multiset(t[..m])
  {
    assert t == t[..m] + t[m..];
  }

  /** In an ascending sequence, everything before position `m` is at most `t[m]`. */
  lemma LowerPartBelow(t: seq<real>, m: nat)
    requires IsSorted(t) && m < |t|
    ensures forall x :: x in multiset(t[..m]) ==> x <= t[m]
  {
    forall x | x in multiset(t[..m]) ensures x <= t[m] {
      var i :| 0 <= i < m && t[..m][i] == x;
    }
  }

  /** `sorted(q)[len(q)//2]`: for an even count this is the UPPER of the two middle elements. */
  function UpperMiddle(q: seq<real>): real
    requires |q| > 0
  {
    Sort(q)[|q| / 2]
  }

  /** `np.median`: the middle element for an odd count, the mean of the two middle ones otherwise. */
  function NumpyMedian(s: seq<real>): real
    requires |s| > 0
  {
    var t := Sort(s);
    var n := |s|;
    if n % 2 == 1 then t[n / 2] else (t[n / 2 - 1] + t[n / 2]) / 2.0
  }

  /** Python's `sum`, adding left to right from 0. */
  function Sum(s: seq<real>): real
  {
    if s == [] then 0.0 else Sum(s[..|s| - 1]) + s[|s| - 1]
  }

  /** `sum(q)/len(q)`. */
  function Mean(s: seq<real>): real
    requires |s| > 0
  {
    Sum(s) / (|s| as real)
  }

  lemma {:induction false} SumBounds(s: seq<real>, lo: real, hi: real)
    requires Bounded(s, lo, hi)
    ensures (|s| as real) * lo <= Sum(s) <= (|s| as real) * hi
  {
    if s != [] {
      var init := s[..|s| - 1];
      assert Bounded(init, lo, hi);
      SumBounds(init, lo, hi);
      assert (|s| as real) * lo == (|init| as real) * lo + lo;
      assert (|s| as real) * hi == (|init| as real) * hi + hi;
    }
  }

  /** The mean of values in `[lo, hi]` lies in `[lo, hi]`. */
  lemma {:induction false} MeanBounded(s: seq<real>, lo: real, hi: real)
    requires |s| > 0 && Bounded(s, lo, hi)
    ensures lo <= Mean(s) <= hi
  {
    SumBounds(s, lo, hi);
    var n := |s| as real;
    assert Mean(s) * n == Sum(s);
  }

  /** The upper-middle element of values in `[lo, hi]` is one of them, so it lies in `[lo, hi]`. */
  lemma UpperMiddleBounded(q: seq<real>, lo: real, hi: real)
    requires |q| > 0 && Bounded(q, lo, hi)
    ensures UpperMiddle(q) in q
    ensures lo <= UpperMiddle(q) <= hi
  {
    SortElement(q, |q| / 2);
    SortBounded(q, lo, hi);
  }

  /** The numpy median of strictly positive values is strictly positive. */
  lemma MedianPositive(s: seq<real>)
    requires |s| > 0 && AllPositive(s)
    ensures NumpyMedian(s) > 0.0
  {
    var n := |s|;
    var t := Sort(s);
    SortElement(s, n / 2);
    assert t[n / 2] > 0.0 by {
      var i :| 0 <= i < n && s[i] == t[n / 2];
    }
    if n % 2 == 0 {
      SortElement(s, n / 2 - 1);
      assert t[n / 2 - 1] > 0.0 by {
        var i :| 0 <= i < n && s[i] == t[n / 2 - 1];
      }
    }
  }

  /** Sorting an ascending sequence leaves it unchanged. */
  lemma SortOfSorted(s: seq<real>)
    requires IsSorted(s)
    ensures Sort(s) == s
  {
    SortIsSortedPermutation(s);
    SortedPermutationUnique(Sort(s), s);
  }

  /** On an already ascending buffer both medians read the middle positions directly. */
  lemma MiddlesOfSorted(q: seq<real>)
    requires |q| > 0 && IsSorted(q)
    ensures UpperMiddle(q) == q[|q| / 2]
    ensures NumpyMedian(q) == if |q| % 2 == 1 then q[|q| / 2] else (q[|q| / 2 - 1] + q[|q| / 2]) / 2.0
  {
    SortOfSorted(q);
  }

  /** `sorted([10, 12, 14, 16])[4 // 2]` is 14 (the upper middle), whereas `np.median` gives 13. */
  lemma EvenCountUpperMiddle()
    ensures UpperMiddle([10.0, 12.0, 14.0, 16.0]) == 14.0
    ensures NumpyMedian([10.0, 12.0, 14.0, 16.0]) == 13.0
  {
    MiddlesOfSorted([10.0, 12.0, 14.0, 16.0]);
  }
}
