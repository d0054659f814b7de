/** Sequence operations the site uses on its data lists: `Array.prototype.filter` and `new Set(...)`. */
module Lists {

  /** `r` is obtained from `s` by deleting elements, keeping the order of the rest. */
  predicate IsSubsequence<T(==)>(r: seq<T>, s: seq<T>)
    decreases |s|
  {
    if r == [] then true
    else if s == [] then false
    else (r[0] == s[0] && IsSubsequence(r[1..], s[1..])) || IsSubsequence(r, s[1..])
  }

  /** `s.filter(keep)`. */
  function Filter<T(==)>(s: seq<T>, keep: T -> bool): (r: seq<T>)
    ensures IsSubsequence(r, s)
    ensures multiset(r) <= multiset(s)
    ensures forall i :: 0 <= i < |r| ==> keep(r[i])
    ensures forall x :: x in s && keep(x) ==> x in r
    ensures forall x :: x in s ==> multiset(r)[x] == if keep(x) then multiset(s)[x] else 0
    decreases |s|
  {
    if s == [] then []
    else
      var rest := Filter(s[1..], keep);
      assert s == [s[0]] + s[1..];
      if keep(s[0]) then [s[0]] + rest else rest
  }

  /** Filtering by a predicate that holds everywhere keeps everything. */
  lemma {:induction false} FilterKeepsAll<T>(s: seq<T>, keep: T -> bool)
    requires forall x :: keep(x)
    ensures Filter(s, keep) == s
    decreases |s|
  {
    if s != [] {
      FilterKeepsAll(s[1..], keep);
    }
  }

  /** Filtering depends only on the values of the predicate. */
  lemma {:induction false} FilterSamePredicate<T>(s: seq<T>, p: T -> bool, q: T -> bool)
    requires forall x :: p(x) == q(x)
    ensures Filter(s, p) == Filter(s, q)
    decreases |s|
  {
    if s != [] {
      FilterSamePredicate(s[1..], p, q);
    }
  }

  /** Two filters in a row are one filter by the conjunction. */
  lemma {:induction false} FilterFuse<T>(s: seq<T>, p: T -> bool, q: T -> bool, both: T -> bool)
    requires forall x :: both(x) == (p(x) && q(x))
    ensures Filter(Filter(s, p), q) == Filter(s, both)
    decreases |s|
  {
    if s != [] {
      FilterFuse(s[1..], p, q, both);
      var rest := Filter(s[1..], p);
      if p(s[0]) {
        assert Filter(s, p) == [s[0]] + rest;
        assert ([s[0]] + rest)[1..] == rest;
      }
    }
  }

  predicate NoDuplicates<T(==)>(s: seq<T>)
  {
    forall i, j :: 0 <= i < j < |s| ==> s[i] != s[j]
  }

  /** Index of the first occurrence of `x` in `s`; `|s|` when absent. */
  function FirstIndex<T(==)>(s: seq<T>, x: T): (k: nat)
    ensures k <= |s|
    ensures k < |s| <==> x in s
    ensures k < |s| ==> s[k] == x && x !in s[..k]
  {
    if s == [] then 0
    else if s[0] == x then 0
    else
      var k := 1 + FirstIndex(s[1..], x);
      assert s[..k] == [s[0]] + s[1..][..k - 1];
      k
  }

  /**
   * The elements of `s` that are not in `seen`, each once, in the order of
   * their first appearance: what inserting `s` into a JavaScript `Set`
   * already holding `seen` adds, in the Set's iteration order.
   */
  function DistinctFrom<T(==)>(s: seq<T>, seen: set<T>): (r: seq<T>)
    ensures forall x :: x in r ==> x in s && x !in seen
    ensures forall x :: x in s && x !in seen ==> x in r
    ensures NoDuplicates(r)
    ensures IsSubsequence(r, s)
    ensures forall i, j :: 0 <= i < j < |r| ==> FirstIndex(s, r[i]) < FirstIndex(s, r[j])
    decreases |s|
  {
    if s == [] then []
    else if s[0] in seen then
      var r := DistinctFrom(s[1..], seen);
      assert forall i :: 0 <= i < |r| ==> r[i] != s[0];
      r
    else
      var rest := DistinctFrom(s[1..], seen + {s[0]});
      assert forall i :: 0 <= i < |rest| ==> rest[i] != s[0];
      var r := [s[0]] + rest;
      assert forall i :: 1 <= i < |r| ==> r[i] == rest[i - 1];
      r
  }

  /** `[...new Set(s)]`. */
  function Distinct<T(==)>(s: seq<T>): (r: seq<T>)
    ensures forall x :: x in r ==> x in s
    ensures forall x :: x in s ==> x in r
    ensures NoDuplicates(r)
    ensures IsSubsequence(r, s)
    ensures forall i, j :: 0 <= i < j < |r| ==> FirstIndex(s, r[i]) < FirstIndex(s, r[j])
  {
    DistinctFrom(s, {})
  }
}
