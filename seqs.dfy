/** Sequence operations behind `Array.prototype.filter` and `Array.from(new Set(xs))`. */
module Seqs {

  /** `r` is `s` with some elements dropped and the rest kept in order: `idx`
      lists, strictly increasing, the position in `s` of each element of `r`. */
  ghost predicate SubsequenceBy<T>(r: seq<T>, s: seq<T>, idx: seq<int>)
  {
    && |idx| == |r|
    && (forall k :: 0 <= k < |idx| ==> 0 <= idx[k] < |s| && r[k] == s[idx[k]])
    && (forall k, l :: 0 <= k < l < |idx| ==> idx[k] < idx[l])
  }

  /** `r` is an order-preserving subsequence of `s`. */
  ghost predicate IsSubsequence<T>(r: seq<T>, s: seq<T>)
  {
    exists idx :: SubsequenceBy(r, s, idx)
  }

  /** `s.filter(p)`. */
  function Filter<T>(s: seq<T>, p: T -> bool): (r: seq<T>)
    ensures |r| <= |s|
    ensures forall i :: 0 <= i < |r| ==> r[i] in s && p(r[i])
    ensures forall i :: 0 <= i < |s| && p(s[i]) ==> s[i] in r
  {
    if s == [] then []
    else if p(s[0]) then [s[0]] + Filter(s[1..], p)
    else Filter(s[1..], p)
  }

  /** Positions shifted by one, for the step from `s[1..]` to `s`. */
  function Shift(idx: seq<int>): (r: seq<int>)
    ensures |r| == |idx| && forall k :: 0 <= k < |idx| ==> r[k] == idx[k] + 1
  {
    seq(|idx|, k requires 0 <= k < |idx| => idx[k] + 1)
  }

  /** The result of `Filter` keeps the surviving elements in their original order. */
  lemma {:induction false} FilterIsSubsequence<T>(s: seq<T>, p: T -> bool)
    ensures IsSubsequence(Filter(s, p), s)
  {
    var idx := FilterPositions(s, p);
  }

  /** Positions into `s[1..]` are positions into `s`, one further on. */
  lemma ShiftPositions<T>(r: seq<T>, s: seq<T>, idx: seq<int>)
    requires |s| > 0 && SubsequenceBy(r, s[1..], idx)
    ensures SubsequenceBy(r, s, Shift(idx))
    ensures forall k :: 0 <= k < |idx| ==> Shift(idx)[k] >= 1
  {
    var sh := Shift(idx);
    forall k | 0 <= k < |sh| ensures 0 <= sh[k] < |s| && r[k] == s[sh[k]] {
      assert s[1..][idx[k]] == s[idx[k] + 1];
    }
  }

  /** Keeping the head of `s` puts position 0 in front of the other positions. */
  lemma ConsPositions<T>(r: seq<T>, s: seq<T>, idx: seq<int>)
    requires |s| > 0 && SubsequenceBy(r, s, idx)
    requires forall k :: 0 <= k < |idx| ==> idx[k] >= 1
    ensures SubsequenceBy([s[0]] + r, s, [0] + idx)
  {
    var r', idx' := [s[0]] + r, [0] + idx;
    forall k | 0 < k < |idx'| ensures 0 <= idx'[k] < |s| && r'[k] == s[idx'[k]] {
      assert idx'[k] == idx[k - 1] && r'[k] == r[k - 1];
    }
    forall k, l | 0 <= k < l < |idx'| ensures idx'[k] < idx'[l] {
      assert idx'[l] == idx[l - 1];
      if k > 0 { assert idx'[k] == idx[k - 1]; }
    }
  }

  /** The positions in `s` of the elements `Filter` keeps. */
  lemma {:induction false} FilterPositions<T>(s: seq<T>, p: T -> bool) returns (idx: seq<int>)
    ensures SubsequenceBy(Filter(s, p), s, idx)
  {
    if s == [] {
      idx := [];
    } else {
      var rest := FilterPositions(s[1..], p);
      ShiftPositions(Filter(s[1..], p), s, rest);
      if p(s[0]) {
        ConsPositions(Filter(s[1..], p), s, Shift(rest));
        idx := [0] + Shift(rest);
      } else {
        idx := Shift(rest);
      }
    }
  }

  /** Filtering by `p` and then by `q` keeps, in one pass, what satisfies both. */
  lemma {:induction false} FilterFilter<T>(s: seq<T>, p: T -> bool, q: T -> bool, both: T -> bool)
    requires forall i :: 0 <= i < |s| ==> both(s[i]) == (p(s[i]) && q(s[i]))
    ensures Filter(Filter(s, p), q) == Filter(s, both)
  {
    if s != [] {
      FilterFilter(s[1..], p, q, both);
    }
  }

  /** Filters that agree on every element of `s` give the same result. */
  lemma {:induction false} FilterAgree<T>(s: seq<T>, p: T -> bool, q: T -> bool)
    requires forall i :: 0 <= i < |s| ==> p(s[i]) == q(s[i])
    ensures Filter(s, p) == Filter(s, q)
  {
    if s != [] {
      FilterAgree(s[1..], p, q);
    }
  }

  /** A filter that keeps every element of `s` returns `s` itself. */
  lemma {:induction false} FilterKeepsAll<T>(s: seq<T>, p: T -> bool)
    requires forall i :: 0 <= i < |s| ==> p(s[i])
    ensures Filter(s, p) == s
  {
    if s != [] {
      FilterKeepsAll(s[1..], p);
    }
  }

  /** The order of two filters does not matter. */
  lemma FilterCommute<T>(s: seq<T>, p: T -> bool, q: T -> bool)
    ensures Filter(Filter(s, p), q) == Filter(Filter(s, q), p)
  {
    var both := x => p(x) && q(x);
    FilterFilter(s, p, q, both);
    FilterFilter(s, q, p, both);
  }

  /** No element occurs twice. */
  predicate NoDuplicates<T(==)>(s: seq<T>)
  {
    forall i, j :: 0 <= i < j < |s| ==> s[i] != s[j]
  }

  /** The position of the first occurrence of `x` in `s`. */
  function FirstIndex<T(==)>(s: seq<T>, x: T): (k: nat)
    requires x in s
    ensures k < |s| && s[k] == x
    ensures forall j :: 0 <= j < k ==> s[j] != x
  {
    if s[0] == x then 0 else 1 + FirstIndex(s[1..], x)
  }

  /** `Array.from(new Set(s))`: a `Set` remembers insertion order, so each
      element appears once, where it first occurred in `s`. */
  function Distinct<T(==)>(s: seq<T>): (r: seq<T>)
    ensures NoDuplicates(r)
    ensures forall i :: 0 <= i < |r| ==> r[i] in s
    ensures forall i :: 0 <= i < |s| ==> s[i] in r
  {
    if s == [] then []
    else
      var d := Distinct(s[..|s| - 1]);
      if s[|s| - 1] in d then d else d + [s[|s| - 1]]
  }

  /** A first occurrence inside a prefix is the first occurrence in the whole sequence. */
  lemma FirstIndexPrefix<T>(s: seq<T>, n: nat, x: T)
    requires n <= |s| && x in s[..n]
    ensures FirstIndex(s[..n], x) == FirstIndex(s, x)
  {
    var k := FirstIndex(s[..n], x);
    assert s[k] == x;
    var m := FirstIndex(s, x);
    assert m <= k;
    assert s[..n][m] == x;
  }

  /** `Distinct` lists the elements in the order of their first occurrences. */
  lemma {:induction false} DistinctFirstOccurrenceOrder<T>(s: seq<T>)
    ensures forall i, j :: 0 <= i < j < |Distinct(s)| ==>
      FirstIndex(s, Distinct(s)[i]) < FirstIndex(s, Distinct(s)[j])
  {
    if s != [] {
      var n := |s| - 1;
      var pre := s[..n];
      var d := Distinct(pre);
      DistinctFirstOccurrenceOrder(pre);
      forall x | x in d ensures FirstIndex(s, x) == FirstIndex(pre, x) && FirstIndex(s, x) < n {
        FirstIndexPrefix(s, n, x);
      }
      if s[n] !in d {
        assert s[n] !in pre;
        assert FirstIndex(s, s[n]) == n;
      }
    }
  }
}
