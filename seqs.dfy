/** The two array operations the filtering and lookup code is built from:
    `Array.prototype.filter` and `Array.prototype.find`, with the properties
    every caller relies on proved once. */
module Seqs {
  import opened Options

  /** The elements of `s` that satisfy `keep`, in their original order. */
  function Filter<T>(keep: T -> bool, s: seq<T>): (r: seq<T>)
    ensures |r| <= |s|
    ensures forall x :: x in r ==> x in s && keep(x)
    ensures forall x :: x in s && keep(x) ==> x in r
  {
    if s == [] then []
    else if keep(s[0]) then [s[0]] + Filter(keep, s[1..])
    else Filter(keep, s[1..])
  }

  /** `r` can be obtained from `s` by deleting elements, without reordering. */
  ghost predicate IsSubsequence<T>(r: seq<T>, s: seq<T>)
    decreases |s|
  {
    || r == []
    || (&& s != []
        && ((r[0] == s[0] && IsSubsequence(r[1..], s[1..])) || IsSubsequence(r, s[1..])))
  }

  /** A filter result keeps the order of its input. */
  lemma {:induction false} FilterIsSubsequence<T>(keep: T -> bool, s: seq<T>)
    ensures IsSubsequence(Filter(keep, s), s)
  {
    if s != [] {
      FilterIsSubsequence(keep, s[1..]);
      var r := Filter(keep, s);
      if keep(s[0]) {
        assert r[0] == s[0] && r[1..] == Filter(keep, s[1..]);
      } else if r != [] {
        assert r == Filter(keep, s[1..]);
      }
    }
  }

  /** A filter keeps every matching element as often as it occurs and drops
      every other one. */
  lemma {:induction false} FilterMultiplicity<T>(keep: T -> bool, s: seq<T>, x: T)
    ensures multiset(Filter(keep, s))[x] == if keep(x) then multiset(s)[x] else 0
  {
    if s != [] {
      FilterMultiplicity(keep, s[1..], x);
      assert s == [s[0]] + s[1..];
      assert multiset(s) == multiset([s[0]]) + multiset(s[1..]);
      if keep(s[0]) {
        assert multiset(Filter(keep, s)) == multiset([s[0]]) + multiset(Filter(keep, s[1..]));
      }
    }
  }

  /** The filter returns its whole input exactly when every element matches. */
  lemma {:induction false} FilterKeepsAll<T>(keep: T -> bool, s: seq<T>)
    ensures Filter(keep, s) == s <==> forall x :: x in s ==> keep(x)
  {
    if s != [] {
      FilterKeepsAll(keep, s[1..]);
      if !keep(s[0]) {
        assert |Filter(keep, s)| <= |s[1..]| < |s|;
      } else {
        assert s == [s[0]] + s[1..];
      }
    }
  }

  /** The filter returns nothing exactly when no element matches. */
  lemma {:induction false} FilterDropsAll<T>(keep: T -> bool, s: seq<T>)
    ensures Filter(keep, s) == [] <==> forall x :: x in s ==> !keep(x)
  {
    if s != [] {
      FilterDropsAll(keep, s[1..]);
    }
  }

  /** Filtering twice is filtering once by both conditions. */
  lemma {:induction false} FilterTwice<T>(first: T -> bool, second: T -> bool, both: T -> bool, s: seq<T>)
    requires forall x :: both(x) == (first(x) && second(x))
    ensures Filter(second, Filter(first, s)) == Filter(both, s)
  {
    if s != [] {
      FilterTwice(first, second, both, s[1..]);
      if first(s[0]) {
        assert Filter(first, s) == [s[0]] + Filter(first, s[1..]);
        assert Filter(first, s)[1..] == Filter(first, s[1..]);
      }
    }
  }

  /** The first element of `s` that satisfies `found`, if any. */
  function Find<T>(found: T -> bool, s: seq<T>): (r: Option<T>)
    ensures r.Some? ==> r.value in s && found(r.value)
    ensures r.None? <==> forall x :: x in s ==> !found(x)
  {
    if s == [] then None
    else if found(s[0]) then Some(s[0])
    else Find(found, s[1..])
  }

  /** When `s[i]` is the first match, `Find` returns it. */
  lemma {:induction false} FindIsFirst<T>(found: T -> bool, s: seq<T>, i: nat)
    requires i < |s| && found(s[i])
    requires forall j :: 0 <= j < i ==> !found(s[j])
    ensures Find(found, s) == Some(s[i])
  {
    if i > 0 {
      assert !found(s[0]);
      FindIsFirst(found, s[1..], i - 1);
    }
  }
}
