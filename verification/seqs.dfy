/** Order-preserving filtering, the model of JavaScript's `Array.prototype.filter`. */
module Seqs {

  /** `r` can be obtained from `s` by deleting elements, keeping the order of the rest. */
  ghost predicate IsSubsequence<T>(r: seq<T>, s: seq<T>)
    decreases |s|
  {
    r == [] ||
    (s != [] &&
     if r[0] == s[0] then IsSubsequence(r[1..], s[1..]) else IsSubsequence(r, s[1..]))
  }

  /**
   * The elements of `s` that satisfy `p`, in their original order: every element that
   * satisfies `p` is kept as often as it occurs, every other one is dropped.
   */
  function Filter<T(!new)>(s: seq<T>, p: T -> bool): (r: seq<T>)
    ensures |r| <= |s|
    ensures forall i :: 0 <= i < |r| ==> p(r[i])
    ensures forall x {:trigger multiset(r)[x]} :: multiset(r)[x] == if p(x) then multiset(s)[x] else 0
    ensures IsSubsequence(r, s)
    ensures (forall i :: 0 <= i < |s| ==> p(s[i])) ==> r == s
  {
    if s == [] then []
    else
      var rest := Filter(s[1..], p);
      assert s == [s[0]] + s[1..];
      assert multiset(s) == multiset{s[0]} + multiset(s[1..]);
      if p(s[0]) then
        assert multiset([s[0]] + rest) == multiset{s[0]} + multiset(rest);
        [s[0]] + rest
      else rest
  }

  /** No value occurs twice. */
  predicate NoDuplicates<T(==)>(s: seq<T>)
  {
    forall i, j :: 0 <= i < j < |s| ==> s[i] != s[j]
  }

  lemma {:induction false} SubsequenceMembers<T>(r: seq<T>, s: seq<T>)
    requires IsSubsequence(r, s)
    ensures forall x :: x in r ==> x in s
    decreases |s|
  {
    if r != [] {
      if r[0] == s[0] {
        SubsequenceMembers(r[1..], s[1..]);
        assert forall x :: x in r ==> x == r[0] || x in r[1..];
      } else {
        SubsequenceMembers(r, s[1..]);
      }
    }
  }

  /** A subsequence of a sequence without duplicates has no duplicates either. */
  lemma {:induction false} SubsequenceNoDuplicates<T>(r: seq<T>, s: seq<T>)
    requires IsSubsequence(r, s) && NoDuplicates(s)
    ensures NoDuplicates(r)
    decreases |s|
  {
    if r != [] {
      assert NoDuplicates(s[1..]);
      if r[0] == s[0] {
        SubsequenceNoDuplicates(r[1..], s[1..]);
        SubsequenceMembers(r[1..], s[1..]);
        assert r[0] !in s[1..];
        assert r[0] !in r[1..];
        forall i, j | 0 <= i < j < |r| ensures r[i] != r[j] {
          if i > 0 { assert r[i] == r[1..][i - 1] && r[j] == r[1..][j - 1]; }
          else { assert r[j] == r[1..][j - 1]; }
        }
      } else {
        SubsequenceNoDuplicates(r, s[1..]);
      }
    }
  }

  /** The kept elements are elements of `s`, and every element of `s` that satisfies `p` is kept. */
  lemma FilterMembers<T(!new)>(s: seq<T>, p: T -> bool)
    ensures forall i :: 0 <= i < |Filter(s, p)| ==> Filter(s, p)[i] in s
    ensures forall i :: 0 <= i < |s| && p(s[i]) ==> s[i] in Filter(s, p)
  {
    var r := Filter(s, p);
    forall i | 0 <= i < |r| ensures r[i] in s {
      assert multiset(r)[r[i]] > 0;
    }
    forall i | 0 <= i < |s| && p(s[i]) ensures s[i] in r {
      assert multiset(s)[s[i]] > 0;
      assert multiset(r)[s[i]] == multiset(s)[s[i]];
    }
  }

  lemma AppendAssociative<T>(a: seq<T>, b: seq<T>, c: seq<T>)
    ensures a + (b + c) == (a + b) + c
  {
  }

  /** Filtering a sequence with a given first element. */
  lemma FilterCons<T(!new)>(x: T, s: seq<T>, p: T -> bool)
    ensures Filter([x] + s, p) == if p(x) then [x] + Filter(s, p) else Filter(s, p)
  {
    var xs := [x] + s;
    assert xs[0] == x && xs[1..] == s;
  }

  /** Filtering a concatenation filters each part. */
  lemma {:induction false} FilterAppend<T(!new)>(s: seq<T>, t: seq<T>, p: T -> bool)
    ensures Filter(s + t, p) == Filter(s, p) + Filter(t, p)
    decreases |s|
  {
    if s == [] {
      assert s + t == t;
    } else {
      var x, tail := s[0], s[1..];
      assert s == [x] + tail;
      assert s + t == [x] + (tail + t);
      FilterCons(x, tail + t, p);
      FilterCons(x, tail, p);
      FilterAppend(tail, t, p);
      if p(x) {
        AppendAssociative([x], Filter(tail, p), Filter(t, p));
      }
    }
  }
}
