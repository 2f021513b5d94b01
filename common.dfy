/** Sequence helpers shared by the list views and the inventory routes: the
    JavaScript `Array.prototype.filter`, the `reduce` sums and the notion of a
    subsequence (what a filter keeps, in the order it keeps it). */
module Common {

  /** A value that may be `null`/`undefined` in the source. */
  datatype Option<+T> = None | Some(value: T) {
    function GetOr(default: T): T {
      match this
      case Some(v) => v
      case None => default
    }
  }

  /** `a` can be obtained from `b` by deleting elements: every element of `a`
      occurs in `b`, and in the same relative order. */
  predicate IsSubsequence<T(==)>(a: seq<T>, b: seq<T>)
    decreases |b|
  {
    if a == [] then true
    else if b == [] then false
    else if a[0] == b[0] then IsSubsequence(a[1..], b[1..])
    else IsSubsequence(a, b[1..])
  }

  /** Every sequence is a subsequence of itself. */
  lemma {:induction false} SubsequenceReflexive<T>(s: seq<T>)
    ensures IsSubsequence(s, s)
  {
    if s != [] {
      SubsequenceReflexive(s[1..]);
    }
  }

  /** `s.filter(p)`: the elements of `s` that satisfy `p`, in their original order. */
  function Filter<T(==)>(p: T -> bool, s: seq<T>): (r: seq<T>)
    ensures |r| <= |s|
    ensures forall i :: 0 <= i < |r| ==> r[i] in s && p(r[i])
    ensures forall i :: 0 <= i < |s| && p(s[i]) ==> s[i] in r
  {
    if s == [] then []
    else (if p(s[0]) then [s[0]] else []) + Filter(p, s[1..])
  }

  /** The filter keeps the order of the elements it keeps and adds nothing. */
  lemma {:induction false} FilterIsSubsequence<T>(p: T -> bool, s: seq<T>)
    ensures IsSubsequence(Filter(p, s), s)
  {
    if s != [] {
      var rest := Filter(p, s[1..]);
      FilterIsSubsequence(p, s[1..]);
      if p(s[0]) {
        assert Filter(p, s) == [s[0]] + rest;
        assert ([s[0]] + rest)[1..] == rest;
      } else {
        assert Filter(p, s) == rest;
        if rest != [] {
          assert p(rest[0]);
        }
      }
    }
  }

  /** A filter whose predicate holds of every element keeps the whole sequence. */
  lemma {:induction false} FilterKeepsAll<T>(p: T -> bool, s: seq<T>)
    requires forall i :: 0 <= i < |s| ==> p(s[i])
    ensures Filter(p, s) == s
  {
    if s != [] {
      FilterKeepsAll(p, s[1..]);
    }
  }

  /** Filters by two predicates that agree on every element are equal. */
  lemma {:induction false} FilterSameOn<T>(p: T -> bool, q: T -> bool, s: seq<T>)
    requires forall i :: 0 <= i < |s| ==> p(s[i]) == q(s[i])
    ensures Filter(p, s) == Filter(q, s)
  {
    if s != [] {
      FilterSameOn(p, q, s[1..]);
    }
  }

  /** A filter over a concatenation is the concatenation of the filters. */
  lemma {:induction false} FilterAppend<T>(p: T -> bool, a: seq<T>, b: seq<T>)
    ensures Filter(p, a + b) == Filter(p, a) + Filter(p, b)
  {
    if a == [] {
      assert a + b == b;
    } else {
      assert (a + b)[1..] == a[1..] + b;
      FilterAppend(p, a[1..], b);
    }
  }

  /** One element's share of a filter: the element itself when it passes. */
  function Keep<T>(p: T -> bool, x: T): (r: seq<T>)
    ensures p(x) <==> r == [x]
    ensures !p(x) <==> r == []
  {
    if p(x) then [x] else []
  }

  /** A filter from position `k` on: the element at `k`, then the rest. */
  lemma FilterStep<T>(p: T -> bool, s: seq<T>, k: nat)
    requires k < |s|
    ensures Filter(p, s[k..]) == Keep(p, s[k]) + Filter(p, s[k + 1..])
  {
    assert s[k..][1..] == s[k + 1..];
  }

  /** A filter over six elements, written out element by element. */
  lemma {:induction false} FilterSix<T>(p: T -> bool, s: seq<T>)
    requires |s| == 6
    ensures Filter(p, s) ==
      Keep(p, s[0]) + (Keep(p, s[1]) + (Keep(p, s[2]) + (Keep(p, s[3]) + (Keep(p, s[4]) + (Keep(p, s[5]) + [])))))
  {
    assert s[6..] == [];
    FilterStep(p, s, 5);
    FilterStep(p, s, 4);
    FilterStep(p, s, 3);
    FilterStep(p, s, 2);
    FilterStep(p, s, 1);
    FilterStep(p, s, 0);
    assert s[0..] == s;
  }

  /** `s.reduce((acc, x) => acc + f(x), 0)` over reals: a left fold. */
  function Sum<T>(f: T -> real, s: seq<T>): real
  {
    if s == [] then 0.0 else Sum(f, s[..|s| - 1]) + f(s[|s| - 1])
  }

  /** The same left fold over integers. */
  function IntSum<T>(f: T -> int, s: seq<T>): int
  {
    if s == [] then 0 else IntSum(f, s[..|s| - 1]) + f(s[|s| - 1])
  }

  /** A sum over a concatenation is the sum of the two parts. */
  lemma {:induction false} SumAppend<T>(f: T -> real, a: seq<T>, b: seq<T>)
    ensures Sum(f, a + b) == Sum(f, a) + Sum(f, b)
  {
    if b == [] {
      assert a + b == a;
    } else {
      var b' := b[..|b| - 1];
      assert (a + b)[..|a + b| - 1] == a + b';
      assert (a + b)[|a + b| - 1] == b[|b| - 1];
      SumAppend(f, a, b');
    }
  }

  /** When every term lies in `[lo, hi]`, the sum lies between `|s| * lo` and `|s| * hi`. */
  lemma {:induction false} SumBounds<T>(f: T -> real, s: seq<T>, lo: real, hi: real)
    requires forall i :: 0 <= i < |s| ==> lo <= f(s[i]) <= hi
    ensures |s| as real * lo <= Sum(f, s) <= |s| as real * hi
  {
    if s != [] {
      var s' := s[..|s| - 1];
      assert forall i :: 0 <= i < |s'| ==> s'[i] == s[i];
      SumBounds(f, s', lo, hi);
      assert |s| as real * lo == |s'| as real * lo + lo;
      assert |s| as real * hi == |s'| as real * hi + hi;
    }
  }

  /** A sum of non-negative terms is non-negative. */
  lemma {:induction false} SumNonNegative<T>(f: T -> real, s: seq<T>)
    requires forall i :: 0 <= i < |s| ==> 0.0 <= f(s[i])
    ensures 0.0 <= Sum(f, s)
  {
    if s != [] {
      var s' := s[..|s| - 1];
      assert forall i :: 0 <= i < |s'| ==> s'[i] == s[i];
      SumNonNegative(f, s');
    }
  }

  /** An integer sum of non-negative terms is non-negative. */
  lemma {:induction false} IntSumNonNegative<T>(f: T -> int, s: seq<T>)
    requires forall i :: 0 <= i < |s| ==> 0 <= f(s[i])
    ensures 0 <= IntSum(f, s)
  {
    if s != [] {
      var s' := s[..|s| - 1];
      assert forall i :: 0 <= i < |s'| ==> s'[i] == s[i];
      IntSumNonNegative(f, s');
    }
  }
}
