/**
 * The behaviour of the Kotlin list operations the view model relies on,
 * stated over sequences: `MutableList.remove` removes the first element equal
 * to its argument, found by the first-match search `IndexOf`; `contains` is
 * sequence membership (`in`).  Equality is the structural equality of the
 * element type, as for Kotlin data classes.
 */
module Listas {

  /** No element occurs twice. */
  ghost predicate Distinct<T>(s: seq<T>) {
    forall i, j :: 0 <= i < j < |s| ==> s[i] != s[j]
  }

  /** `r` is obtained from `s` by deleting some of its elements, keeping the order of the others. */
  ghost predicate IsSubsequence<T>(r: seq<T>, s: seq<T>)
    decreases |s|
  {
    if s == [] then r == []
    else (r != [] && r[0] == s[0] && IsSubsequence(r[1..], s[1..])) || IsSubsequence(r, s[1..])
  }

  /** `List.indexOf`: the index of the first element equal to `x`, or -1. */
  function IndexOf<T(==)>(s: seq<T>, x: T): (r: int)
    ensures r == -1 <==> x !in s
    ensures r != -1 ==> 0 <= r < |s| && s[r] == x && x !in s[..r]
  {
    if s == [] then -1
    else if s[0] == x then 0
    else
      var k := IndexOf(s[1..], x);
      if k == -1 then -1
      else
        assert s[..k + 1] == [s[0]] + s[1..][..k];
        k + 1
  }

  /**
   * `MutableList.remove(x)`: deletes the first element equal to `x`; the list
   * is unchanged when no element equals `x`.
   */
  function RemoveFirst<T(==)>(s: seq<T>, x: T): (r: seq<T>)
    ensures x !in s ==> r == s
    ensures x in s ==> |r| == |s| - 1
  {
    var i := IndexOf(s, x);
    if i == -1 then s else s[..i] + s[i + 1..]
  }

  /**
   * Removing a present element deletes exactly one copy of it (its first
   * occurrence), keeps the order of the others, and leaves a duplicate-free
   * list duplicate-free and without that element.
   */
  lemma RemoveFirstPresent<T>(s: seq<T>, x: T)
    requires x in s
    ensures var i := IndexOf(s, x);
            RemoveFirst(s, x) == s[..i] + s[i + 1..] && x !in s[..i]
    ensures multiset(RemoveFirst(s, x)) == multiset(s) - multiset{x}
    ensures IsSubsequence(RemoveFirst(s, x), s)
    ensures Distinct(s) ==> x !in RemoveFirst(s, x) && Distinct(RemoveFirst(s, x))
  {
    var i := IndexOf(s, x);
    var r := RemoveFirst(s, x);
    assert s == s[..i] + [x] + s[i + 1..];
    SubsequenceDropOne(s[..i], x, s[i + 1..]);
    if Distinct(s) {
      SubsequenceKeepsDistinct(r, s);
    }
  }

  /** An element absent from a duplicate-free list can be appended without creating a duplicate. */
  lemma AppendKeepsDistinct<T>(s: seq<T>, x: T)
    requires Distinct(s) && x !in s
    ensures Distinct(s + [x])
  {
  }

  lemma {:induction false} SubsequenceOfSelf<T>(s: seq<T>)
    ensures IsSubsequence(s, s)
    decreases |s|
  {
    if s != [] {
      SubsequenceOfSelf(s[1..]);
    }
  }

  /** Deleting the element between `p` and `q` leaves a subsequence. */
  lemma {:induction false} SubsequenceDropOne<T>(p: seq<T>, x: T, q: seq<T>)
    ensures IsSubsequence(p + q, p + [x] + q)
    decreases |p|
  {
    if p == [] {
      assert p + q == q && (p + [x] + q)[1..] == q;
      SubsequenceOfSelf(q);
    } else {
      assert (p + q)[1..] == p[1..] + q;
      assert (p + [x] + q)[1..] == p[1..] + [x] + q;
      SubsequenceDropOne(p[1..], x, q);
    }
  }

  lemma {:induction false} SubsequenceMember<T>(r: seq<T>, s: seq<T>, x: T)
    requires IsSubsequence(r, s) && x in r
    ensures x in s
    decreases |s|
  {
    if r != [] && r[0] == s[0] && IsSubsequence(r[1..], s[1..]) {
      if x != r[0] {
        SubsequenceMember(r[1..], s[1..], x);
      }
    } else {
      SubsequenceMember(r, s[1..], x);
    }
  }

  /** Every subsequence of a duplicate-free list is duplicate-free. */
  lemma {:induction false} SubsequenceKeepsDistinct<T>(r: seq<T>, s: seq<T>)
    requires IsSubsequence(r, s) && Distinct(s)
    ensures Distinct(r)
    decreases |s|
  {
    if s != [] {
      assert Distinct(s[1..]) by {
        forall i, j | 0 <= i < j < |s[1..]| ensures s[1..][i] != s[1..][j] {
          assert s[1..][i] == s[i + 1] && s[1..][j] == s[j + 1];
        }
      }
      if r != [] && r[0] == s[0] && IsSubsequence(r[1..], s[1..]) {
        SubsequenceKeepsDistinct(r[1..], s[1..]);
        forall i, j | 0 <= i < j < |r| ensures r[i] != r[j] {
          assert r[j] == r[1..][j - 1];
          if i == 0 {
            SubsequenceMember(r[1..], s[1..], r[j]);
            var k :| 0 <= k < |s[1..]| && s[1..][k] == r[j];
            assert s[k + 1] == r[j];
          } else {
            assert r[i] == r[1..][i - 1];
          }
        }
      } else {
        SubsequenceKeepsDistinct(r, s[1..]);
      }
    }
  }
}
