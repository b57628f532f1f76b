/** `Array.prototype.filter` and what it promises: an order-preserving selection; and two slicing facts. */
module Sequences {

  /** A prefix of a suffix is a slice of the whole. */
  lemma PrefixOfSuffix<T>(s: seq<T>, i: nat, n: nat)
    requires i + n <= |s|
    ensures s[i..][..n] == s[i..i + n]
  {
  }

  /** A suffix of a suffix is a suffix of the whole. */
  lemma SuffixOfSuffix<T>(a: seq<T>, b: seq<T>, c: seq<T>)
    requires |b| <= |a| && b == a[|a| - |b|..]
    requires |c| <= |b| && c == b[|b| - |c|..]
    ensures c == a[|a| - |c|..]
  {
    assert a[|a| - |b|..][|b| - |c|..] == a[|a| - |c|..];
  }

  /** `a` is `b` with some elements deleted, the rest kept in order. */
  predicate IsSubsequence<T(==)>(a: seq<T>, b: seq<T>)
    decreases |b|
  {
    if a == [] then true
    else if b == [] then false
    else if a[0] == b[0] then IsSubsequence(a[1..], b[1..])
    else IsSubsequence(a, b[1..])
  }

  /** `s.filter(keep)`. */
  function Filter<T>(keep: T -> bool, s: seq<T>): (r: seq<T>)
    ensures |r| <= |s|
    ensures forall i :: 0 <= i < |r| ==> keep(r[i]) && r[i] in s
  {
    if s == [] then []
    else if keep(s[0]) then [s[0]] + Filter(keep, s[1..])
    else Filter(keep, s[1..])
  }

  /** Filtering keeps elements in their original order. */
  lemma {:induction false} FilterIsSubsequence<T>(keep: T -> bool, s: seq<T>)
    ensures IsSubsequence(Filter(keep, s), s)
  {
    if s != [] {
      FilterIsSubsequence(keep, s[1..]);
      var r := Filter(keep, s);
      if keep(s[0]) {
        assert r[0] == s[0] && r[1..] == Filter(keep, s[1..]);
      } else if r != [] && r[0] == s[0] {
        // the head was dropped, but an equal value was kept later on
        SubsequenceOfTail(r, s);
      }
    }
  }

  /** A subsequence of the tail that happens to start with the head is a subsequence of the whole. */
  lemma {:induction false} SubsequenceOfTail<T>(a: seq<T>, b: seq<T>)
    requires b != [] && IsSubsequence(a, b[1..])
    ensures IsSubsequence(a, b)
    decreases |b|, 0
  {
    if a != [] && a[0] == b[0] {
      SubsequenceDropHead(a, b[1..]);
    }
  }

  /** Dropping the first element of a subsequence keeps it a subsequence. */
  lemma {:induction false} SubsequenceDropHead<T>(a: seq<T>, b: seq<T>)
    requires a != [] && IsSubsequence(a, b)
    ensures IsSubsequence(a[1..], b)
    decreases |b|, 1
  {
    assert b != [];
    if a[0] == b[0] {
      assert IsSubsequence(a[1..], b[1..]);
      if a[1..] != [] {
        SubsequenceOfTail(a[1..], b);
      }
    } else {
      SubsequenceDropHead(a, b[1..]);
      if a[1..] != [] {
        SubsequenceOfTail(a[1..], b);
      }
    }
  }

  /** Filtering keeps every occurrence of a kept value and no occurrence of a dropped one. */
  lemma {:induction false} FilterCounts<T>(keep: T -> bool, s: seq<T>, x: T)
    ensures multiset(Filter(keep, s))[x] == if keep(x) then multiset(s)[x] else 0
  {
    if s != [] {
      FilterCounts(keep, s[1..], x);
      assert s == [s[0]] + s[1..];
      assert multiset(s) == multiset([s[0]]) + multiset(s[1..]);
      if keep(s[0]) {
        assert multiset(Filter(keep, s)) == multiset([s[0]]) + multiset(Filter(keep, s[1..]));
      }
    }
  }
}
