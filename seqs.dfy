/** Sequence operations that the screens perform with `Array.prototype.filter` and `slice`. */
module Seqs {

  /** `r` keeps some elements of `s`, in the order they have in `s`. */
  predicate IsSubsequence<T(==)>(r: seq<T>, s: seq<T>)
    decreases |s|
  {
    r == [] ||
    (s != [] && ((r[0] == s[0] && IsSubsequence(r[1..], s[1..])) || IsSubsequence(r, s[1..])))
  }

  lemma {:induction false} SubsequenceReflexive<T>(s: seq<T>)
    ensures IsSubsequence(s, s)
    decreases |s|
  {
    if s != [] {
      SubsequenceReflexive(s[1..]);
    }
  }

  lemma {:induction false} SubsequenceLength<T>(r: seq<T>, s: seq<T>)
    requires IsSubsequence(r, s)
    ensures |r| <= |s|
    decreases |s|
  {
    if r != [] {
      if r[0] == s[0] && IsSubsequence(r[1..], s[1..]) {
        SubsequenceLength(r[1..], s[1..]);
      } else {
        SubsequenceLength(r, s[1..]);
      }
    }
  }

  /** Keeping a subsequence of a subsequence keeps a subsequence: chained filters preserve order. */
  lemma {:induction false} SubsequenceTransitive<T>(a: seq<T>, b: seq<T>, c: seq<T>)
    requires IsSubsequence(a, b) && IsSubsequence(b, c)
    ensures IsSubsequence(a, c)
    decreases |c|
  {
    if a == [] {
    } else if b[0] == c[0] && IsSubsequence(b[1..], c[1..]) {
      if a[0] == b[0] && IsSubsequence(a[1..], b[1..]) {
        SubsequenceTransitive(a[1..], b[1..], c[1..]);
      } else {
        SubsequenceTransitive(a, b[1..], c[1..]);
      }
    } else {
      SubsequenceTransitive(a, b, c[1..]);
    }
  }

  /** `s.filter(keep)`: the elements of `s` that satisfy `keep`, in their original order. */
  function Filter<T>(s: seq<T>, keep: T -> bool): (r: seq<T>)
    ensures |r| <= |s|
    ensures forall i :: 0 <= i < |r| ==> keep(r[i])
    ensures forall i :: 0 <= i < |r| ==> r[i] in s
    ensures forall i :: 0 <= i < |s| && keep(s[i]) ==> s[i] in r
    ensures IsSubsequence(r, s)
  {
    if s == [] then []
    else if keep(s[0]) then [s[0]] + Filter(s[1..], keep)
    else Filter(s[1..], keep)
  }

  lemma {:induction false} FilterAppend<T>(a: seq<T>, b: seq<T>, keep: T -> bool)
    ensures Filter(a + b, keep) == Filter(a, keep) + Filter(b, keep)
  {
    if a != [] {
      assert (a + b)[0] == a[0] && (a + b)[1..] == a[1..] + b;
      FilterAppend(a[1..], b, keep);
      if keep(a[0]) {
        calc {
          Filter(a + b, keep);
          [a[0]] + Filter(a[1..] + b, keep);
          [a[0]] + (Filter(a[1..], keep) + Filter(b, keep));
          ([a[0]] + Filter(a[1..], keep)) + Filter(b, keep);
        }
      }
    } else {
      assert a + b == b;
    }
  }

  /** A filter that every element passes changes nothing. */
  lemma {:induction false} FilterKeepsAll<T>(s: seq<T>, keep: T -> bool)
    requires forall i :: 0 <= i < |s| ==> keep(s[i])
    ensures Filter(s, keep) == s
  {
    if s != [] {
      FilterKeepsAll(s[1..], keep);
    }
  }

  /** Filters by predicates that agree on every element of `s` give the same result. */
  lemma {:induction false} FilterCongruent<T>(s: seq<T>, p: T -> bool, q: T -> bool)
    requires forall i :: 0 <= i < |s| ==> p(s[i]) == q(s[i])
    ensures Filter(s, p) == Filter(s, q)
  {
    if s != [] {
      FilterCongruent(s[1..], p, q);
    }
  }

  /** Two filters in a row are one filter by the conjunction. */
  lemma {:induction false} FilterFilter<T>(s: seq<T>, p: T -> bool, q: T -> bool)
    ensures Filter(Filter(s, p), q) == Filter(s, x => p(x) && q(x))
  {
    if s != [] {
      FilterFilter(s[1..], p, q);
    }
  }

  /** `[x, ...log].slice(0, cap)`: prepend `x` and keep at most `cap` entries (the oldest are evicted). */
  function PrependCapped<T>(x: T, log: seq<T>, cap: nat): (r: seq<T>)
    requires cap > 0
    ensures |r| == if |log| + 1 <= cap then |log| + 1 else cap
    ensures r[0] == x
    ensures forall i :: 1 <= i < |r| ==> r[i] == log[i - 1]
  {
    ([x] + log)[..if |log| + 1 <= cap then |log| + 1 else cap]
  }

  /** The log after prepending each of `xs`, first element first. */
  function PrependAll<T>(log: seq<T>, xs: seq<T>, cap: nat): (r: seq<T>)
    requires cap > 0
    decreases |xs|
  {
    if xs == [] then log else PrependAll(PrependCapped(xs[0], log, cap), xs[1..], cap)
  }

  function Reverse<T>(s: seq<T>): (r: seq<T>)
    ensures |r| == |s|
    ensures forall i :: 0 <= i < |s| ==> r[i] == s[|s| - 1 - i]
  {
    if s == [] then [] else Reverse(s[1..]) + [s[0]]
  }

  function Min(a: int, b: int): int { if a <= b then a else b }

  /**
   * A capped log fed `xs` holds the newest entries first and evicts in insertion order only:
   * it is the first `cap` entries of the reversed arrivals followed by the older log.
   */
  lemma {:induction false} PrependAllKeepsNewest<T>(log: seq<T>, xs: seq<T>, cap: nat)
    requires 0 < cap && |log| <= cap
    ensures PrependAll(log, xs, cap) == (Reverse(xs) + log)[..Min(cap, |xs| + |log|)]
    decreases |xs|
  {
    if xs == [] {
      assert Reverse(xs) + log == log;
    } else {
      var p := PrependCapped(xs[0], log, cap);
      PrependAllKeepsNewest(p, xs[1..], cap);
      var lhs := (Reverse(xs[1..]) + p)[..Min(cap, |xs| - 1 + |p|)];
      var rhs := (Reverse(xs) + log)[..Min(cap, |xs| + |log|)];
      assert Reverse(xs) == Reverse(xs[1..]) + [xs[0]];
      assert |lhs| == |rhs|;
      forall i | 0 <= i < |lhs| ensures lhs[i] == rhs[i] {
        var n := |xs| - 1;
        if i < n {
        } else if i == n {
        } else {
          assert p[i - n] == log[i - n - 1];
        }
      }
    }
  }

  /** `s.filter((_, j) => j !== i)`: drop the element at index `i`; any other index changes nothing. */
  function RemoveAt<T>(s: seq<T>, i: int): (r: seq<T>)
    ensures 0 <= i < |s| ==> |r| == |s| - 1
    ensures 0 <= i < |s| ==> forall j :: 0 <= j < i ==> r[j] == s[j]
    ensures 0 <= i < |s| ==> forall j :: i <= j < |r| ==> r[j] == s[j + 1]
    ensures !(0 <= i < |s|) ==> r == s
  {
    if 0 <= i < |s| then s[..i] + s[i + 1..] else s
  }

  lemma {:induction false} RemoveAtMultiset<T>(s: seq<T>, i: int)
    requires 0 <= i < |s|
    ensures multiset(RemoveAt(s, i)) + multiset{s[i]} == multiset(s)
    ensures IsSubsequence(RemoveAt(s, i), s)
  {
    assert s == s[..i] + [s[i]] + s[i + 1..];
    RemoveAtSubsequence(s, i);
  }

  lemma {:induction false} RemoveAtSubsequence<T>(s: seq<T>, i: int)
    requires 0 <= i < |s|
    ensures IsSubsequence(RemoveAt(s, i), s)
    decreases i
  {
    var r := RemoveAt(s, i);
    if i == 0 {
      assert r == s[1..];
      SubsequenceReflexive(s[1..]);
      if r != [] {
        assert IsSubsequence(r, s[1..]);
      }
    } else {
      RemoveAtSubsequence(s[1..], i - 1);
      assert RemoveAt(s[1..], i - 1) == r[1..];
      assert r[0] == s[0];
    }
  }
}
