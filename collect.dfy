/**
 * The "append while under the cap" loops of the search tools: walk a sequence in order,
 * keep the elements a test accepts, and stop once `max_results` are kept.
 */
module Collect {
  import opened Wrappers

  /** Every element of `xs` that `keep` accepts, in order. */
  function Filter<T>(xs: seq<T>, keep: T -> bool): (r: seq<T>)
    ensures |r| <= |xs|
    ensures forall k :: 0 <= k < |r| ==> keep(r[k]) && r[k] in xs
  {
    if xs == [] then []
    else if keep(xs[0]) then [xs[0]] + Filter(xs[1..], keep)
    else Filter(xs[1..], keep)
  }

  /** The loop `for x in xs: if len(results) >= cap: break; if keep(x): results.append(x)`. */
  function CappedFilter<T>(xs: seq<T>, keep: T -> bool, cap: int): seq<T> {
    if xs == [] || cap <= 0 then []
    else if keep(xs[0]) then [xs[0]] + CappedFilter(xs[1..], keep, cap - 1)
    else CappedFilter(xs[1..], keep, cap)
  }

  /**
   * One turn of the capped loop below the cap: the first element is appended when it is
   * accepted, and what the loop will have collected stays the same.
   */
  lemma CappedFilterStep<T>(done: seq<T>, xs: seq<T>, keep: T -> bool, cap: int, accepted: bool, next: seq<T>)
    requires xs != [] && |done| < cap && accepted == keep(xs[0])
    requires next == if accepted then done + [xs[0]] else done
    ensures next + CappedFilter(xs[1..], keep, cap - |next|) == done + CappedFilter(xs, keep, cap - |done|)
  {
    if accepted {
      assert CappedFilter(xs, keep, cap - |done|) == [xs[0]] + CappedFilter(xs[1..], keep, cap - |done| - 1);
      assert next + CappedFilter(xs[1..], keep, cap - |next|)
             == done + ([xs[0]] + CappedFilter(xs[1..], keep, cap - |done| - 1));
    }
  }

  /** The capped loop keeps exactly the first `cap` accepted elements (all of them when fewer). */
  lemma {:induction false} CappedFilterIsPrefix<T>(xs: seq<T>, keep: T -> bool, cap: int)
    ensures CappedFilter(xs, keep, cap) == Filter(xs, keep)[..Min(Max(cap, 0), |Filter(xs, keep)|)]
    decreases |xs|
  {
    if xs != [] && cap > 0 {
      CappedFilterIsPrefix(xs[1..], keep, if keep(xs[0]) then cap - 1 else cap);
    }
  }

  /** `a` occurs in `b` in the same order, possibly with gaps. */
  predicate IsSubsequence<T(==)>(a: seq<T>, b: seq<T>)
    decreases |b|
  {
    a == [] || (b != [] && ((a[0] == b[0] && IsSubsequence(a[1..], b[1..])) || IsSubsequence(a, b[1..])))
  }

  lemma {:induction false} FilterIsSubsequence<T>(xs: seq<T>, keep: T -> bool)
    ensures IsSubsequence(Filter(xs, keep), xs)
    decreases |xs|
  {
    if xs != [] {
      FilterIsSubsequence(xs[1..], keep);
      if keep(xs[0]) {
        assert Filter(xs, keep)[1..] == Filter(xs[1..], keep);
      }
    }
  }

  lemma {:induction false} SubsequenceOfPrefix<T>(a: seq<T>, n: nat)
    requires n <= |a|
    ensures IsSubsequence(a[..n], a)
    decreases |a|
  {
    if n > 0 {
      assert a[..n][1..] == a[1..][..n - 1];
      SubsequenceOfPrefix(a[1..], n - 1);
    }
  }

  lemma {:induction false} SubsequenceTrans<T>(a: seq<T>, b: seq<T>, c: seq<T>)
    requires IsSubsequence(a, b) && IsSubsequence(b, c)
    ensures IsSubsequence(a, c)
    decreases |c|
  {
    if a != [] {
      if IsSubsequence(b, c[1..]) {
        SubsequenceTrans(a, b, c[1..]);
      } else if a[0] == b[0] && IsSubsequence(a[1..], b[1..]) {
        SubsequenceTrans(a[1..], b[1..], c[1..]);
      } else {
        SubsequenceTrans(a, b[1..], c[1..]);
      }
    }
  }

  /** What the capped loop keeps is accepted, in the original order, and at most `cap` long. */
  lemma CappedFilterSound<T>(xs: seq<T>, keep: T -> bool, cap: int)
    ensures var r := CappedFilter(xs, keep, cap);
            |r| <= Max(cap, 0)
            && (forall k :: 0 <= k < |r| ==> keep(r[k]) && r[k] in xs)
            && IsSubsequence(r, xs)
  {
    var f := Filter(xs, keep);
    CappedFilterIsPrefix(xs, keep, cap);
    var n := Min(Max(cap, 0), |f|);
    FilterIsSubsequence(xs, keep);
    SubsequenceOfPrefix(f, n);
    SubsequenceTrans(f[..n], f, xs);
  }

  /** No element twice, as for the keys of a dict or the members of a listed set. */
  predicate Distinct<T(==)>(xs: seq<T>) {
    forall i, j :: 0 <= i < j < |xs| ==> xs[i] != xs[j]
  }

  /** `xs` lists the members of `s`, each once: `list(s)` in some iteration order. */
  ghost predicate Enumerates<T(!new)>(xs: seq<T>, s: set<T>) {
    Distinct(xs) && forall x :: x in xs <==> x in s
  }

  /** An element is kept exactly when it occurs in the input and the test accepts it. */
  lemma {:induction false} FilterMember<T>(xs: seq<T>, keep: T -> bool, x: T)
    ensures x in Filter(xs, keep) <==> x in xs && keep(x)
    decreases |xs|
  {
    if xs != [] {
      FilterMember(xs[1..], keep, x);
      if x in xs && x != xs[0] {
        assert x in xs[1..];
      }
    }
  }

  lemma {:induction false} DistinctCount<T>(xs: seq<T>, x: T)
    requires Distinct(xs)
    ensures multiset(xs)[x] == if x in xs then 1 else 0
    decreases |xs|
  {
    if xs != [] {
      assert xs == [xs[0]] + xs[1..];
      DistinctCount(xs[1..], x);
      if x == xs[0] {
        assert x !in xs[1..];
      }
    }
  }

  /** Two listings of the same set hold the same elements the same number of times. */
  lemma EnumerationsAgree<T(!new)>(a: seq<T>, b: seq<T>, s: set<T>)
    requires Enumerates(a, s) && Enumerates(b, s)
    ensures multiset(a) == multiset(b)
  {
    forall x
      ensures multiset(a)[x] == multiset(b)[x]
    {
      DistinctCount(a, x);
      DistinctCount(b, x);
    }
  }

  /** A subsequence is no longer than its source, and one of the same length is the source itself. */
  lemma {:induction false} SubsequenceLength<T>(a: seq<T>, b: seq<T>)
    requires IsSubsequence(a, b)
    ensures |a| <= |b|
    ensures |a| == |b| ==> a == b
    decreases |b|
  {
    if a != [] {
      if a[0] == b[0] && IsSubsequence(a[1..], b[1..]) {
        SubsequenceLength(a[1..], b[1..]);
        if |a| == |b| {
          assert a == [a[0]] + a[1..];
          assert b == [b[0]] + b[1..];
        }
      } else {
        SubsequenceLength(a, b[1..]);
      }
    }
  }

  /** Two arrangements of one multiset with the same first element agree on the rest. */
  lemma SameTails<T>(a: seq<T>, b: seq<T>)
    requires a != [] && b != [] && a[0] == b[0] && multiset(a) == multiset(b)
    ensures multiset(a[1..]) == multiset(b[1..])
  {
    assert a == [a[0]] + a[1..] && b == [b[0]] + b[1..];
    assert multiset(a) == multiset{a[0]} + multiset(a[1..]);
    assert multiset(b) == multiset{b[0]} + multiset(b[1..]);
    assert multiset(a[1..]) == multiset(a) - multiset{a[0]};
  }
}
