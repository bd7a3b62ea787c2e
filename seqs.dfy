/**
 * The array operations the pages use on their lists: `Array.filter`, and
 * `[...new Set(xs)]` (distinct values in first-occurrence order).
 */
module Seqs {

  /** r can be obtained from s by deleting elements, keeping the order of the rest. */
  predicate SubseqOf<T(==)>(r: seq<T>, s: seq<T>)
    decreases |s|
  {
    || r == []
    || (s != [] && ((r[0] == s[0] && SubseqOf(r[1..], s[1..])) || SubseqOf(r, s[1..])))
  }

  /** Every sequence is a subsequence of itself. */
  lemma {:induction false} SubseqOfSelf<T>(s: seq<T>)
    ensures SubseqOf(s, s)
  {
    if s != [] {
      SubseqOfSelf(s[1..]);
    }
  }

  /**
   * `s.filter(f)`: the elements of s that satisfy f, each as many times as it
   * occurs in s and in the order of s.
   */
  function Filter<T(==,!new)>(f: T -> bool, s: seq<T>): (r: seq<T>)
    ensures |r| <= |s|
    ensures forall x :: x in r <==> x in s && f(x)
    ensures SubseqOf(r, s)
  {
    if s == [] then
      []
    else
      assert s == [s[0]] + s[1..];
      if f(s[0]) then [s[0]] + Filter(f, s[1..]) else Filter(f, s[1..])
  }

  /** Filtering keeps each passing value as many times as it occurs, and drops every other value. */
  lemma {:induction false} FilterCounts<T(!new)>(f: T -> bool, s: seq<T>)
    ensures forall x :: multiset(Filter(f, s))[x] == if f(x) then multiset(s)[x] else 0
  {
    if s != [] {
      FilterCounts(f, s[1..]);
      assert s == [s[0]] + s[1..];
    }
  }

  /** Filtering keeps the whole sequence when every element passes. */
  lemma {:induction false} FilterKeepsAll<T(!new)>(f: T -> bool, s: seq<T>)
    requires forall x :: x in s ==> f(x)
    ensures Filter(f, s) == s
  {
    if s != [] {
      FilterKeepsAll(f, s[1..]);
    }
  }

  /** Filtering distributes over an appended element. */
  lemma {:induction false} FilterAppend<T(!new)>(f: T -> bool, s: seq<T>, x: T)
    ensures Filter(f, s + [x]) == Filter(f, s) + (if f(x) then [x] else [])
  {
    if s == [] {
      assert s + [x] == [x];
    } else {
      var t := s + [x];
      var head := if f(s[0]) then [s[0]] else [];
      var tail := if f(x) then [x] else [];
      assert t[0] == s[0] && t[1..] == s[1..] + [x];
      calc {
        Filter(f, t);
        head + Filter(f, s[1..] + [x]);
        { FilterAppend(f, s[1..], x); }
        head + (Filter(f, s[1..]) + tail);
        (head + Filter(f, s[1..])) + tail;
        Filter(f, s) + tail;
      }
    }
  }

  /** The index of the first occurrence of x in s. */
  function FirstIndex<T(==)>(s: seq<T>, x: T): (i: nat)
    requires x in s
    ensures i < |s| && s[i] == x && x !in s[..i]
  {
    if s[0] == x then 0 else 1 + FirstIndex(s[1..], x)
  }

  /** Appending an element does not move the first occurrence of an earlier value. */
  lemma {:induction false} FirstIndexInPrefix<T>(s: seq<T>, x: T)
    requires s != [] && x in s[..|s| - 1]
    ensures FirstIndex(s, x) == FirstIndex(s[..|s| - 1], x)
  {
    if s[0] != x {
      assert s[1..][..|s| - 2] == s[..|s| - 1][1..];
      FirstIndexInPrefix(s[1..], x);
    }
  }

  /**
   * `[...new Set(s)]`: each value of s once, in the order in which it first
   * occurs in s.
   */
  function Distinct<T(==,!new)>(s: seq<T>): (r: seq<T>)
    ensures forall x :: x in r <==> x in s
    ensures forall i, j :: 0 <= i < j < |r| ==> r[i] != r[j]
    ensures forall i, j :: 0 <= i < j < |r| ==> FirstIndex(s, r[i]) < FirstIndex(s, r[j])
    decreases |s|
  {
    if s == [] then
      []
    else
      var p := s[..|s| - 1];
      var x := s[|s| - 1];
      assert s == p + [x];
      var d := Distinct(p);
      forall y | y in p
        ensures FirstIndex(s, y) == FirstIndex(p, y)
      {
        FirstIndexInPrefix(s, y);
      }
      if x in d then d else d + [x]
  }
}
