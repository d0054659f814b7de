/**
 * The two JavaScript string operations the site's logic is built on:
 * `String.prototype.includes` and `String.prototype.toLowerCase`.
 */
module Text {

  /** `sub` occurs in `s` starting at index `i`. */
  predicate OccursAt(s: string, sub: string, i: int)
  {
    0 <= i && i + |sub| <= |s| && s[i..i + |sub|] == sub
  }

  lemma OccursAtShift(s: string, sub: string, j: int)
    requires |s| > 0 && j >= 0
    ensures OccursAt(s[1..], sub, j) <==> OccursAt(s, sub, j + 1)
  {
    if j + |sub| <= |s| - 1 {
      assert s[1..][j..j + |sub|] == s[j + 1..j + 1 + |sub|];
    }
  }

  /** Searching `s` for a non-prefix occurrence is searching its tail. */
  lemma IncludesStep(s: string, sub: string)
    requires |sub| <= |s| && s[..|sub|] != sub
    ensures (exists i :: OccursAt(s, sub, i)) <==> (exists j :: OccursAt(s[1..], sub, j))
  {
    if i :| OccursAt(s, sub, i) {
      assert i != 0;
      OccursAtShift(s, sub, i - 1);
    }
    if j :| OccursAt(s[1..], sub, j) {
      OccursAtShift(s, sub, j);
    }
  }

  /** `s.includes(sub)`: true exactly when `sub` occurs somewhere in `s`. */
  function Includes(s: string, sub: string): (r: bool)
    ensures r <==> exists i :: OccursAt(s, sub, i)
    decreases |s|
  {
    if |s| < |sub| then false
    else if s[..|sub|] == sub then assert OccursAt(s, sub, 0); true
    else IncludesStep(s, sub); Includes(s[1..], sub)
  }

  /** Whatever contains `a + b` contains `a` and contains `b`. */
  lemma IncludesParts(s: string, a: string, b: string)
    requires Includes(s, a + b)
    ensures Includes(s, a) && Includes(s, b)
  {
    var i :| OccursAt(s, a + b, i);
    assert s[i..i + |a|] == (a + b)[..|a|] == a;
    assert OccursAt(s, a, i);
    assert s[i + |a|..i + |a| + |b|] == (a + b)[|a|..] == b;
    assert OccursAt(s, b, i + |a|);
  }

  /** Whatever occurs in `b` occurs in any string that has `b` in it. */
  lemma IncludesInfix(a: string, b: string, c: string, sub: string)
    requires Includes(b, sub)
    ensures Includes(a + b + c, sub)
  {
    var i :| OccursAt(b, sub, i);
    assert (a + b + c)[|a| + i..|a| + i + |sub|] == b[i..i + |sub|];
    assert OccursAt(a + b + c, sub, |a| + i);
  }

  /** `toLowerCase` on one character; only the ASCII letters are mapped. */
  function LowerChar(c: char): char
  {
    if 'A' <= c <= 'Z' then (c as int + 32) as char else c
  }

  predicate IsUpper(c: char)
  {
    'A' <= c <= 'Z'
  }

  /** `s.toLowerCase()`. */
  function Lower(s: string): (r: string)
    ensures |r| == |s|
    ensures forall i :: 0 <= i < |r| ==> !IsUpper(r[i])
    ensures forall i :: 0 <= i < |s| ==>
      (IsUpper(s[i]) ==> r[i] as int == s[i] as int + 32) && (!IsUpper(s[i]) ==> r[i] == s[i])
  {
    seq(|s|, i requires 0 <= i < |s| => LowerChar(s[i]))
  }

  /** Lower-casing twice is lower-casing once. */
  lemma LowerIdempotent(s: string)
    ensures Lower(Lower(s)) == Lower(s)
  {
  }

  /** Two strings that differ only in the case of letters lower-case to the same string. */
  predicate SameIgnoringCase(a: string, b: string)
  {
    |a| == |b| && forall i :: 0 <= i < |a| ==> LowerChar(a[i]) == LowerChar(b[i])
  }

  lemma SameIgnoringCaseLower(a: string, b: string)
    requires SameIgnoringCase(a, b)
    ensures Lower(a) == Lower(b)
  {
  }
}
