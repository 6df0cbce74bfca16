/**
 * Kotlin's `String.contains(other, ignoreCase = true)`, as the search filter
 * calls it.  The Kotlin library scans the positions of the receiver in order
 * and, at each, compares the characters of `other` with
 * `Char.equals(c, ignoreCase = true)`: two characters are equal when they are
 * identical, or their upper-case forms are, or the lower-case forms of their
 * upper-case forms are.
 *
 * Case mapping is modelled for the ASCII letters and the Latin-1 letters
 * (U+00C0-U+00DE and U+00E0-U+00FE, without the signs U+00D7 and U+00F7);
 * every other character maps to itself.  That includes the two Latin-1
 * letters whose upper case lies outside Latin-1, 'ÿ' (U+00FF, upper case
 * U+0178) and 'µ' (U+00B5, upper case U+039C), which are therefore not
 * folded here although Kotlin folds them.
 */
module IgnoreCase {

  /** A lower-case letter of the modelled range: ASCII or Latin-1. */
  predicate IsLowerLetter(c: char) {
    'a' <= c <= 'z' || ('\U{E0}' <= c <= '\U{FE}' && c != '\U{F7}')
  }

  /** An upper-case letter of the modelled range: ASCII or Latin-1. */
  predicate IsUpperLetter(c: char) {
    'A' <= c <= 'Z' || ('\U{C0}' <= c <= '\U{DE}' && c != '\U{D7}')
  }

  /** `Char.uppercaseChar()`: a lower-case letter becomes upper-case; every other character is kept. */
  function UppercaseChar(c: char): (r: char)
    ensures IsLowerLetter(c) ==> IsUpperLetter(r)
    ensures !IsLowerLetter(c) ==> r == c
  {
    if IsLowerLetter(c) then (c as int - 32) as char else c
  }

  /**
   * `Char.lowercaseChar()`: an upper-case letter becomes the lower-case letter
   * whose upper-case form it is; every other character is kept.
   */
  function LowercaseChar(c: char): (r: char)
    ensures IsUpperLetter(c) ==> IsLowerLetter(r) && UppercaseChar(r) == c
    ensures !IsUpperLetter(c) ==> r == c
  {
    if IsUpperLetter(c) then (c as int + 32) as char else c
  }

  /** The canonical form two characters share exactly when they are equal ignoring case. */
  function FoldKey(c: char): char {
    LowercaseChar(UppercaseChar(c))
  }

  /**
   * `Char.equals(other, ignoreCase = true)`.  It holds exactly when the two
   * folded forms agree, so it is an equivalence.
   */
  predicate CharEqualsIgnoreCase(a: char, b: char)
    ensures CharEqualsIgnoreCase(a, b) <==> FoldKey(a) == FoldKey(b)
  {
    a == b || UppercaseChar(a) == UppercaseChar(b)
    || LowercaseChar(UppercaseChar(a)) == LowercaseChar(UppercaseChar(b))
  }

  /**
   * `regionMatches(0, s, offset, q.length, ignoreCase = true)`: false when the
   * region does not fit; otherwise every character of `q` folds like the
   * character of `s` at the same distance from `offset`.
   */
  predicate RegionMatches(s: string, offset: nat, q: string)
    ensures RegionMatches(s, offset, q) <==>
              offset + |q| <= |s| && forall k :: 0 <= k < |q| ==> FoldKey(s[offset + k]) == FoldKey(q[k])
  {
    offset + |q| <= |s| && forall k :: 0 <= k < |q| ==> CharEqualsIgnoreCase(s[offset + k], q[k])
  }

  /**
   * The scan of `indexOf(q, from, ignoreCase = true)`: the first position
   * `from <= i <= |s|` at which `q` matches, or -1.
   */
  function IndexOfIgnoreCase(s: string, q: string, from: nat): (r: int)
    ensures r == -1 <==> forall i :: from <= i <= |s| ==> !RegionMatches(s, i, q)
    ensures r != -1 ==> from <= r && r + |q| <= |s| && RegionMatches(s, r, q)
    ensures r != -1 ==> forall i :: from <= i < r ==> !RegionMatches(s, i, q)
    decreases |s| + 1 - from
  {
    if from > |s| then -1
    else if RegionMatches(s, from, q) then from
    else IndexOfIgnoreCase(s, q, from + 1)
  }

  /**
   * `s.contains(q, ignoreCase = true)`, which is `indexOf(q, 0, ignoreCase = true) >= 0`:
   * it holds exactly when `q` matches at some position that fits inside `s`,
   * and always for the empty query.
   */
  predicate ContainsIgnoreCase(s: string, q: string)
    ensures ContainsIgnoreCase(s, q) <==> exists i :: 0 <= i && i + |q| <= |s| && RegionMatches(s, i, q)
    ensures q == "" ==> ContainsIgnoreCase(s, q)
  {
    assert q == "" ==> RegionMatches(s, 0, q);
    IndexOfIgnoreCase(s, q, 0) >= 0
  }

  /** Two queries equal character by character ignoring case. */
  predicate SameIgnoringCase(q: string, p: string) {
    |q| == |p| && forall k :: 0 <= k < |q| ==> CharEqualsIgnoreCase(q[k], p[k])
  }

  lemma RegionMatchesRespectsCase(s: string, i: nat, q: string, p: string)
    requires SameIgnoringCase(q, p)
    ensures RegionMatches(s, i, q) <==> RegionMatches(s, i, p)
  {
  }

  /** The result of `contains(q, ignoreCase = true)` does not depend on the case of `q`. */
  lemma ContainsRespectsCase(s: string, q: string, p: string)
    requires SameIgnoringCase(q, p)
    ensures ContainsIgnoreCase(s, q) <==> ContainsIgnoreCase(s, p)
  {
    forall i: nat | i + |q| <= |s| ensures RegionMatches(s, i, q) <==> RegionMatches(s, i, p) {
      RegionMatchesRespectsCase(s, i, q, p);
    }
  }
}
