/**
 * The quicksort example of examples/code/examples/example_quicksort.py: a version that loses
 * duplicates of the pivot, the corrected three-way version, and an in-place version with a
 * Hoare-style partition. Elements are integers.
 */
module QuicksortExample {
  import opened Wrappers
  import opened Collect

  predicate SortedSeq(s: seq<int>) {
    forall i, j :: 0 <= i < j < |s| ==> s[i] <= s[j]
  }

  function Below(p: int): int -> bool { x => x < p }
  function Same(p: int): int -> bool { x => x == p }
  function Above(p: int): int -> bool { x => x > p }

  /** `quicksort_buggy`: elements equal to the pivot, other than the pivot itself, are lost. */
  function QuicksortBuggy(s: seq<int>): seq<int>
    decreases |s|
  {
    if |s| <= 1 then s
    else
      var p := s[0];
      QuicksortBuggy(Filter(s[1..], Below(p))) + [p] + QuicksortBuggy(Filter(s[1..], Above(p)))
  }

  /** `quicksort`: less than, equal to, and greater than the first element. */
  function Quicksort(s: seq<int>): seq<int>
    decreases |s|
  {
    if |s| <= 1 then s
    else
      var p := s[0];
      Quicksort(Filter(s[1..], Below(p))) + Filter(s, Same(p)) + Quicksort(Filter(s[1..], Above(p)))
  }

  /** An empty or one-element list is returned as it is. */
  lemma QuicksortShort(s: seq<int>)
    requires |s| <= 1
    ensures Quicksort(s) == s && QuicksortBuggy(s) == s
  {
  }

  /** The three filters split a sequence: together they hold each element as often as it does. */
  lemma {:induction false} FilterSplit(s: seq<int>, p: int)
    ensures multiset(Filter(s, Below(p))) + multiset(Filter(s, Same(p))) + multiset(Filter(s, Above(p)))
            == multiset(s)
    decreases |s|
  {
    if s != [] {
      FilterSplit(s[1..], p);
      assert s == [s[0]] + s[1..];
    }
  }

  lemma {:induction false} MultisetBound(s: seq<int>, t: seq<int>, keep: int -> bool)
    requires multiset(s) == multiset(t) && forall k :: 0 <= k < |t| ==> keep(t[k])
    ensures forall k :: 0 <= k < |s| ==> keep(s[k])
  {
    forall k | 0 <= k < |s|
      ensures keep(s[k])
    {
      assert s[k] in multiset(t);
      var i :| 0 <= i < |t| && t[i] == s[k];
    }
  }

  /** `a + m + b` is sorted when `a` and `b` are, and every element of `a` ≤ every element of `m` ≤ every element of `b`. */
  lemma SortedJoin(a: seq<int>, m: seq<int>, b: seq<int>, p: int)
    requires SortedSeq(a) && SortedSeq(b)
    requires forall k :: 0 <= k < |a| ==> a[k] <= p
    requires forall k :: 0 <= k < |m| ==> m[k] == p
    requires forall k :: 0 <= k < |b| ==> b[k] >= p
    ensures SortedSeq(a + m + b)
  {
  }

  /** `quicksort` keeps every element as often as it occurs: its result is a permutation of its input. */
  lemma {:induction false} QuicksortPermutes(s: seq<int>)
    ensures multiset(Quicksort(s)) == multiset(s)
    decreases |s|
  {
    if |s| > 1 {
      var p := s[0];
      var less := Filter(s[1..], Below(p));
      var greater := Filter(s[1..], Above(p));
      QuicksortPermutes(less);
      QuicksortPermutes(greater);
      FilterSplit(s[1..], p);
      assert s == [p] + s[1..];
      assert Filter(s, Same(p)) == [p] + Filter(s[1..], Same(p));
      assert Quicksort(s) == Quicksort(less) + Filter(s, Same(p)) + Quicksort(greater);
    }
  }

  /** `quicksort` returns a sorted sequence. */
  lemma {:induction false} QuicksortSorts(s: seq<int>)
    ensures SortedSeq(Quicksort(s))
    decreases |s|
  {
    if |s| > 1 {
      var p := s[0];
      var less := Filter(s[1..], Below(p));
      var greater := Filter(s[1..], Above(p));
      QuicksortSorts(less);
      QuicksortSorts(greater);
      QuicksortPermutes(less);
      QuicksortPermutes(greater);
      MultisetBound(Quicksort(less), less, Below(p));
      MultisetBound(Quicksort(greater), greater, Above(p));
      SortedJoin(Quicksort(less), Filter(s, Same(p)), Quicksort(greater), p);
    }
  }

  predicate StrictlyIncreasing(s: seq<int>) {
    forall i, j :: 0 <= i < j < |s| ==> s[i] < s[j]
  }

  /** `a + [p] + b` is strictly increasing when `a` and `b` are, and `a < p < b` elementwise. */
  lemma StrictJoin(a: seq<int>, p: int, b: seq<int>)
    requires StrictlyIncreasing(a) && StrictlyIncreasing(b)
    requires forall k :: 0 <= k < |a| ==> a[k] < p
    requires forall k :: 0 <= k < |b| ==> b[k] > p
    ensures StrictlyIncreasing(a + [p] + b)
  {
  }

  /** `quicksort_buggy` keeps every value of its input: a value occurs in the result iff it occurs in the input. */
  lemma {:induction false} QuicksortBuggyValues(s: seq<int>)
    ensures forall x :: x in QuicksortBuggy(s) <==> x in s
    decreases |s|
  {
    if |s| > 1 {
      var p := s[0];
      var less := Filter(s[1..], Below(p));
      var greater := Filter(s[1..], Above(p));
      QuicksortBuggyValues(less);
      QuicksortBuggyValues(greater);
      var r := QuicksortBuggy(s);
      assert r == QuicksortBuggy(less) + [p] + QuicksortBuggy(greater);
      assert s == [p] + s[1..];
      forall x
        ensures x in r <==> x in s
      {
        FilterMember(s[1..], Below(p), x);
        FilterMember(s[1..], Above(p), x);
        assert x in r <==> x in less || x == p || x in greater;
      }
    }
  }

  /**
   * `quicksort_buggy` returns a strictly increasing sequence, so each value once: sorted, but
   * shorter than its input whenever a value repeats.
   */
  lemma {:induction false} QuicksortBuggyStrict(s: seq<int>)
    ensures StrictlyIncreasing(QuicksortBuggy(s)) && SortedSeq(QuicksortBuggy(s))
    decreases |s|
  {
    if |s| > 1 {
      var p := s[0];
      var less := Filter(s[1..], Below(p));
      var greater := Filter(s[1..], Above(p));
      QuicksortBuggyStrict(less);
      QuicksortBuggyStrict(greater);
      QuicksortBuggyValues(less);
      QuicksortBuggyValues(greater);
      var l := QuicksortBuggy(less);
      var g := QuicksortBuggy(greater);
      forall k | 0 <= k < |l|
        ensures l[k] < p
      {
        assert l[k] in l;
      }
      forall k | 0 <= k < |g|
        ensures g[k] > p
      {
        assert g[k] in g;
      }
      StrictJoin(l, p, g);
    }
  }

  /** `quicksort_buggy` never adds an element: its result is a sub-multiset of its input. */
  lemma {:induction false} QuicksortBuggySubMultiset(s: seq<int>)
    ensures multiset(QuicksortBuggy(s)) <= multiset(s)
    decreases |s|
  {
    if |s| > 1 {
      var p := s[0];
      var less := Filter(s[1..], Below(p));
      var greater := Filter(s[1..], Above(p));
      var same := Filter(s[1..], Same(p));
      QuicksortBuggySubMultiset(less);
      QuicksortBuggySubMultiset(greater);
      FilterSplit(s[1..], p);
      assert s == [p] + s[1..];
      assert QuicksortBuggy(s) == QuicksortBuggy(less) + [p] + QuicksortBuggy(greater);
      var r, l, g := multiset(QuicksortBuggy(s)), multiset(QuicksortBuggy(less)), multiset(QuicksortBuggy(greater));
      assert r == l + multiset{p} + g;
      assert multiset(s) == multiset(less) + multiset(same) + multiset(greater) + multiset{p};
      forall x
        ensures r[x] <= multiset(s)[x]
      {
        assert l[x] <= multiset(less)[x] && g[x] <= multiset(greater)[x];
      }
    }
  }

  /** The first element of a sorted sequence is its least. */
  lemma SortedFirst(a: seq<int>, x: int)
    requires SortedSeq(a) && x in a
    ensures a[0] <= x
  {
  }

  lemma SortedTail(a: seq<int>)
    requires SortedSeq(a) && a != []
    ensures SortedSeq(a[1..])
  {
  }

  /** A sorted arrangement of a multiset is unique. */
  lemma {:induction false} SortedUnique(a: seq<int>, b: seq<int>)
    requires SortedSeq(a) && SortedSeq(b) && multiset(a) == multiset(b)
    ensures a == b
    decreases |a|
  {
    assert |a| == |multiset(a)| == |multiset(b)| == |b|;
    if a != [] {
      assert a[0] in multiset(b) && b[0] in multiset(a);
      SortedFirst(a, b[0]);
      SortedFirst(b, a[0]);
      SameTails(a, b);
      SortedTail(a);
      SortedTail(b);
      SortedUnique(a[1..], b[1..]);
      assert a == [a[0]] + a[1..] && b == [b[0]] + b[1..];
    }
  }

  /** A strictly increasing sequence is determined by the values it holds. */
  lemma {:induction false} StrictlyIncreasingUnique(a: seq<int>, b: seq<int>)
    requires StrictlyIncreasing(a) && StrictlyIncreasing(b) && forall x :: x in a <==> x in b
    ensures a == b
    decreases |a| + |b|
  {
    assert a == [] <==> b == [] by {
      if a != [] { assert a[0] in a; }
      if b != [] { assert b[0] in b; }
    }
    if a != [] {
      assert b[0] in b && a[0] in a;
      var i :| 0 <= i < |a| && a[i] == b[0];
      var j :| 0 <= j < |b| && b[j] == a[0];
      assert a[0] == b[0];
      forall x
        ensures x in a[1..] <==> x in b[1..]
      {
        if x in a[1..] {
          var k :| 1 <= k < |a| && a[k] == x;
          assert a[k] in a;
          var m :| 0 <= m < |b| && b[m] == x;
          assert m != 0;
          assert b[m] == b[1..][m - 1];
        }
        if x in b[1..] {
          var k :| 1 <= k < |b| && b[k] == x;
          assert b[k] in b;
          var m :| 0 <= m < |a| && a[m] == x;
          assert m != 0;
          assert a[m] == a[1..][m - 1];
        }
      }
      StrictlyIncreasingUnique(a[1..], b[1..]);
    }
  }

  // The demonstration input of `demonstrate_bug`: the buggy version returns six elements where
  // seven are expected, the duplicate `1` lost, and the fixed version returns all seven in order.

  /** The demonstration input sorted by hand is sorted ... */
  lemma DemonstrationSorted()
    ensures SortedSeq([1, 1, 2, 3, 6, 8, 10])
  {
  }

  /** ... and is a permutation of the input. */
  lemma DemonstrationPermutation()
    ensures multiset([3, 6, 8, 10, 1, 2, 1]) == multiset([1, 1, 2, 3, 6, 8, 10])
  {
  }

  /** `quicksort` returns the one sorted arrangement of its input. */
  lemma QuicksortIsTheSortedPermutation(s: seq<int>, t: seq<int>)
    requires SortedSeq(t) && multiset(t) == multiset(s)
    ensures Quicksort(s) == t
  {
    QuicksortSorts(s);
    QuicksortPermutes(s);
    SortedUnique(Quicksort(s), t);
  }

  /** The demonstration input: the fixed version returns all seven elements in order. */
  lemma DemonstrateFix(s: seq<int>)
    requires s == [3, 6, 8, 10, 1, 2, 1]
    ensures Quicksort(s) == [1, 1, 2, 3, 6, 8, 10]
  {
    DemonstrationSorted();
    DemonstrationPermutation();
    QuicksortIsTheSortedPermutation(s, [1, 1, 2, 3, 6, 8, 10]);
  }

  lemma DemonstrateBug(s: seq<int>)
    requires s == [3, 6, 8, 10, 1, 2, 1]
    ensures QuicksortBuggy(s) == [1, 2, 3, 6, 8, 10] && |QuicksortBuggy(s)| == |s| - 1
  {
    QuicksortBuggyStrict(s);
    QuicksortBuggyValues(s);
    StrictlyIncreasingUnique(QuicksortBuggy(s), [1, 2, 3, 6, 8, 10]);
  }

  // ---------------------------------------------------------------------
  // In place

  /**
   * `t` is `s` with the elements of `[low, high)` rearranged among themselves and everything
   * outside that range as it was.
   */
  predicate Rearranged(t: seq<int>, s: seq<int>, low: int, high: int) {
    |t| == |s| && 0 <= low <= high <= |s|
    && multiset(t[low..high]) == multiset(s[low..high])
    && t[..low] == s[..low] && t[high..] == s[high..]
  }

  /** Swapping two elements of the range keeps it a rearrangement. */
  lemma SwapRearranged(s: seq<int>, t: seq<int>, i: int, j: int, low: int, high: int)
    requires Rearranged(t, s, low, high) && low <= i < high && low <= j < high
    ensures Rearranged(t[i := t[j]][j := t[i]], s, low, high)
  {
    var u := t[i := t[j]][j := t[i]];
    var r := t[low..high];
    assert u[low..high] == r[i - low := r[j - low]][j - low := r[i - low]];
    assert u[..low] == t[..low] && u[high..] == t[high..];
  }

  /** A rearrangement of a sub-range is a rearrangement of any range around it. */
  lemma RearrangedWiden(t: seq<int>, s: seq<int>, lo: int, hi: int, low: int, high: int)
    requires Rearranged(t, s, lo, hi) && 0 <= low <= lo && hi <= high <= |s|
    ensures Rearranged(t, s, low, high)
  {
    assert t[low..high] == t[low..lo] + t[lo..hi] + t[hi..high];
    assert s[low..high] == s[low..lo] + s[lo..hi] + s[hi..high];
    assert t[low..lo] == t[..lo][low..] && s[low..lo] == s[..lo][low..];
    assert t[hi..high] == t[hi..][..high - hi] && s[hi..high] == s[hi..][..high - hi];
    assert t[..low] == t[..lo][..low] && s[..low] == s[..lo][..low];
    assert t[high..] == t[hi..][high - hi..] && s[high..] == s[hi..][high - hi..];
  }

  /** A range of at most one element is sorted, and leaving it alone rearranges it. */
  lemma ShortRange(s: seq<int>, low: int, high: int)
    requires 0 <= low <= high <= |s| && high - low <= 1
    ensures Rearranged(s, s, low, high) && SortedSeq(s[low..high])
  {
  }

  method Swap(a: array<int>, i: int, j: int)
    requires 0 <= i < a.Length && 0 <= j < a.Length
    modifies a
    ensures a[..] == old(a[..])[i := old(a[j])][j := old(a[i])]
  {
    a[i], a[j] := a[j], a[i];
  }

  /**
   * The state of the partition loop over `s`: the pivot at `low`, nothing greater than it in
   * `(low, i)` and nothing smaller in `(j, high)`.
   */
  predicate Parted(s: seq<int>, low: int, i: int, j: int, high: int, pivot: int)
    requires 0 <= low < |s| && high <= |s|
  {
    s[low] == pivot
    && (forall k :: low < k < i && k < |s| ==> s[k] <= pivot)
    && (forall k :: j < k < high && 0 <= k ==> s[k] >= pivot)
  }

  /** Swapping an element not below the pivot at `i` with one not above it at `j` extends both sides. */
  lemma SwapParted(t: seq<int>, low: int, i: int, j: int, high: int, pivot: int)
    requires 0 <= low < i <= j < high <= |t| && Parted(t, low, i, j, high, pivot)
    requires t[i] >= pivot && t[j] <= pivot
    ensures Parted(t[i := t[j]][j := t[i]], low, i + 1, j - 1, high, pivot)
  {
  }

  /** Moving the pivot to `j`, the last element not above it, puts it between the two sides. */
  lemma PlacePivot(t: seq<int>, low: int, i: int, j: int, high: int, pivot: int)
    requires 0 <= low <= j < i <= high <= |t| && Parted(t, low, i, j, high, pivot)
    ensures var u := t[low := t[j]][j := t[low]];
            u[j] == pivot && (forall k :: low <= k < j ==> u[k] <= pivot) && (forall k :: j < k < high ==> u[k] >= pivot)
  {
  }

  /**
   * `_partition(arr, low, high)`: the element first at `low` ends at the returned index, with no
   * greater element before it and no smaller element after it in `[low, high)`; the range is
   * rearranged and nothing outside it changes.
   */
  method Partition(a: array<int>, low: int, high: int) returns (p: int)
    requires 0 <= low < high <= a.Length
    modifies a
    ensures Rearranged(a[..], old(a[..]), low, high)
    ensures low <= p < high && a[p] == old(a[low])
    ensures forall k :: low <= k < p ==> a[k] <= a[p]
    ensures forall k :: p < k < high ==> a[k] >= a[p]
  {
    ghost var s := a[..];
    var pivot := a[low];
    var i := low + 1;
    var j := high - 1;
    while true
      invariant low + 1 <= i <= j + 2 && low <= j < high && i <= high
      invariant Rearranged(a[..], s, low, high) && Parted(a[..], low, i, j, high, pivot)
      decreases j + 2 - i
    {
      i := SkipSmaller(a, low, i, j, high, pivot);
      j := SkipGreater(a, low, i, j, high, pivot);
      if i <= j {
        Exchange(a, s, low, i, j, high, pivot);
        i := i + 1;
        j := j - 1;
      } else {
        break;
      }
    }
    ghost var t := a[..];
    Swap(a, low, j);
    SwapRearranged(s, t, low, j, low, high);
    PlacePivot(t, low, i, j, high, pivot);
    p := j;
  }

  /** `arr[i], arr[j] = arr[j], arr[i]` inside the partition loop. */
  method Exchange(a: array<int>, ghost s: seq<int>, low: int, i: int, j: int, high: int, pivot: int)
    requires 0 <= low < i <= j < high <= a.Length
    requires Rearranged(a[..], s, low, high) && Parted(a[..], low, i, j, high, pivot)
    requires a[i] >= pivot && a[j] <= pivot
    modifies a
    ensures Rearranged(a[..], s, low, high) && Parted(a[..], low, i + 1, j - 1, high, pivot)
  {
    ghost var t := a[..];
    Swap(a, i, j);
    SwapRearranged(s, t, i, j, low, high);
    SwapParted(t, low, i, j, high, pivot);
  }

  /** `while i <= j and arr[i] < pivot: i += 1` */
  method SkipSmaller(a: array<int>, low: int, i0: int, j: int, high: int, pivot: int) returns (i: int)
    requires 0 <= low < high <= a.Length && low + 1 <= i0 <= j + 2 && low <= j < high && i0 <= high
    requires Parted(a[..], low, i0, j, high, pivot)
    ensures i0 <= i <= j + 2 && i <= high
    ensures Parted(a[..], low, i, j, high, pivot)
    ensures i <= j ==> a[i] >= pivot
  {
    i := i0;
    while i <= j && a[i] < pivot
      invariant i0 <= i <= j + 2 && i <= high
      invariant Parted(a[..], low, i, j, high, pivot)
      decreases j + 1 - i
    {
      i := i + 1;
    }
  }

  /** `while i <= j and arr[j] > pivot: j -= 1` */
  method SkipGreater(a: array<int>, low: int, i: int, j0: int, high: int, pivot: int) returns (j: int)
    requires 0 <= low < high <= a.Length && low + 1 <= i <= j0 + 2 && low <= j0 < high && i <= high
    requires Parted(a[..], low, i, j0, high, pivot)
    ensures low <= j <= j0 && i <= j + 2
    ensures Parted(a[..], low, i, j, high, pivot)
    ensures i <= j ==> a[j] <= pivot
  {
    j := j0;
    while i <= j && a[j] > pivot
      invariant low <= j <= j0 && i <= j + 2
      invariant Parted(a[..], low, i, j, high, pivot)
      decreases j + 1 - i
    {
      j := j - 1;
    }
  }

  /** The end of the range: `high`, or the length when it is absent. */
  function End(length: int, high: Option<int>): int {
    if high.Some? then high.value else length
  }

  /**
   * `quicksort_inplace(arr, low, high)`: a range of two or more elements is sorted in place,
   * rearranging only its own elements; a shorter or empty range is left alone. A range of two or
   * more that runs past the end raises `IndexError` before anything is moved: the first scans of
   * `_partition` read `arr[high - 1]`, or reach `arr[len(arr)]` first.
   */
  method QuicksortInplace(a: array<int>, low: int, high: Option<int>) returns (r: Result<(), Exception>)
    requires low < End(a.Length, high) - 1 ==> 0 <= low
    modifies a
    ensures r.Err? <==> low < End(a.Length, high) - 1 && End(a.Length, high) > a.Length
    ensures r.Err? ==> r.error == IndexError && a[..] == old(a[..])
    ensures r.Ok? && low < End(a.Length, high) - 1 ==>
              Rearranged(a[..], old(a[..]), low, End(a.Length, high)) && SortedSeq(a[low..End(a.Length, high)])
    ensures low >= End(a.Length, high) - 1 ==> a[..] == old(a[..])
  {
    var h := if high.None? then a.Length else high.value;
    r := Ok(());
    if low < h - 1 {
      if h > a.Length {
        return Err(IndexError);
      }
      SortRange(a, low, h);
    }
  }

  /** `quicksort_inplace` with `high` given, as it calls itself on both sides of the pivot. */
  method SortRange(a: array<int>, low: int, high: int)
    requires 0 <= low <= high <= a.Length
    modifies a
    ensures Rearranged(a[..], old(a[..]), low, high) && SortedSeq(a[low..high])
    decreases high - low
  {
    if low < high - 1 {
      ghost var s0 := a[..];
      var p := Partition(a, low, high);
      ghost var s1 := a[..];
      SortRange(a, low, p);
      ghost var s2 := a[..];
      SortRange(a, p + 1, high);
      Combine(s0, s1, s2, a[..], low, p, high);
    } else {
      ShortRange(a[..], low, high);
    }
  }

  /** Partitioning, then sorting both sides, sorts the range. */
  lemma Combine(s0: seq<int>, s1: seq<int>, s2: seq<int>, s3: seq<int>, low: int, p: int, high: int)
    requires Rearranged(s1, s0, low, high) && low <= p < high
    requires forall k :: low <= k < p ==> s1[k] <= s1[p]
    requires forall k :: p < k < high ==> s1[k] >= s1[p]
    requires Rearranged(s2, s1, low, p) && SortedSeq(s2[low..p])
    requires Rearranged(s3, s2, p + 1, high) && SortedSeq(s3[p + 1..high])
    ensures Rearranged(s3, s0, low, high) && SortedSeq(s3[low..high])
  {
    RearrangedWiden(s2, s1, low, p, low, high);
    RearrangedWiden(s3, s2, p + 1, high, low, high);
    CombineSorted(s1, s2, s3, low, p, high);
  }

  lemma CombineSorted(s1: seq<int>, s2: seq<int>, s3: seq<int>, low: int, p: int, high: int)
    requires 0 <= low <= p < high <= |s1|
    requires forall k :: low <= k < p ==> s1[k] <= s1[p]
    requires forall k :: p < k < high ==> s1[k] >= s1[p]
    requires Rearranged(s2, s1, low, p) && SortedSeq(s2[low..p])
    requires Rearranged(s3, s2, p + 1, high) && SortedSeq(s3[p + 1..high])
    ensures SortedSeq(s3[low..high])
  {
    var pv := s1[p];
    assert s2[p] == pv by { assert s2[p..][0] == s1[p..][0]; }
    assert s3[p] == pv by { assert s3[..p + 1][p] == s2[..p + 1][p]; }
    var left := s3[low..p];
    var right := s3[p + 1..high];
    assert left == s2[low..p] by { assert s3[..p + 1][low..p] == s2[..p + 1][low..p]; }
    assert s2[p + 1..high] == s1[p + 1..high] by { assert s2[p..][1..high - p] == s1[p..][1..high - p]; }
    MultisetBound(left, s1[low..p], x => x <= pv);
    MultisetBound(right, s1[p + 1..high], x => x >= pv);
    assert s3[low..high] == left + [pv] + right;
    SortedJoin(left, [pv], right, pv);
  }
}
