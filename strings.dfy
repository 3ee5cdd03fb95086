/**
 * The few Python string operations the command runner relies on:
 * substring search (`t in s`, `s.index(t)`), slicing with clamping
 * (`s[0:n]`) and single-character replacement (`s.replace(a, b)`).
 */
module Strings {
  import opened Options

  /** `t` occurs in `s` starting at index `i`. */
  predicate OccursAt(s: string, t: string, i: nat) {
    i + |t| <= |s| && s[i..i + |t|] == t
  }

  predicate StartsWith(s: string, p: string) {
    |p| <= |s| && s[..|p|] == p
  }

  /** The first index at which `t` occurs in `s`, if any (Python's `s.find(t)`). */
  function Find(s: string, t: string): (r: Option<nat>)
    ensures r.Some? ==> OccursAt(s, t, r.value)
    ensures r.Some? ==> forall j: nat :: j < r.value ==> !OccursAt(s, t, j)
    ensures r.None? ==> forall j: nat :: !OccursAt(s, t, j)
    decreases |s|
  {
    if StartsWith(s, t) then
      assert OccursAt(s, t, 0);
      Some(0)
    else if |s| == 0 then
      assert forall j: nat :: !OccursAt(s, t, j) by {
        forall j: nat ensures !OccursAt(s, t, j) {
          if j == 0 { assert !StartsWith(s, t); }
        }
      }
      None
    else
      var rest := Find(s[1..], t);
      assert forall j: nat :: 0 < j ==> (OccursAt(s, t, j) <==> OccursAt(s[1..], t, j - 1)) by {
        forall j: nat | 0 < j ensures OccursAt(s, t, j) <==> OccursAt(s[1..], t, j - 1) {
          OccursAtTail(s, t, j);
        }
      }
      assert !OccursAt(s, t, 0);
      match rest
      case None => None
      case Some(i) => Some(i + 1)
  }

  /** An occurrence after the first character is an occurrence in the rest. */
  lemma OccursAtTail(s: string, t: string, j: nat)
    requires 0 < j && 0 < |s|
    ensures OccursAt(s, t, j) <==> OccursAt(s[1..], t, j - 1)
  {
    if j + |t| <= |s| {
      assert s[j..j + |t|] == s[1..][j - 1..j - 1 + |t|];
    }
  }

  /** Python's `t in s`. */
  predicate Contains(s: string, t: string) {
    Find(s, t).Some?
  }

  /** Python's `s.index(t)`, which the source only calls once `t in s` holds. */
  function IndexOf(s: string, t: string): (i: nat)
    requires Contains(s, t)
    ensures OccursAt(s, t, i)
    ensures forall j: nat :: j < i ==> !OccursAt(s, t, j)
  {
    Find(s, t).value
  }

  /** Python's `s[0:n]` for `n >= 0`: the slice end is clamped to the length. */
  function Take(s: string, n: nat): (r: string)
    ensures |r| == if n <= |s| then n else |s|
    ensures StartsWith(s, r)
  {
    if n <= |s| then s[..n] else s
  }

  /** Comparing `s[0:|p|]` with `p`, as the source does, is a prefix test. */
  lemma TakeComparesPrefix(s: string, p: string)
    ensures Take(s, |p|) == p <==> StartsWith(s, p)
  {
  }

  /** Python's `s.replace(a, b)` for one-character `a` and `b`. */
  function ReplaceChar(s: string, a: char, b: char): (r: string)
    ensures |r| == |s|
    ensures forall i :: 0 <= i < |s| ==> r[i] == if s[i] == a then b else s[i]
  {
    if s == [] then [] else [if s[0] == a then b else s[0]] + ReplaceChar(s[1..], a, b)
  }

  /** Replacing a character with itself leaves every string as it was. */
  lemma {:induction false} ReplaceCharWithItself(s: string, a: char)
    ensures ReplaceChar(s, a, a) == s
  {
    if s != [] {
      ReplaceCharWithItself(s[1..], a);
    }
  }

  /**
   * If `t` does not occur in `a`, and the last character of `a` does not
   * appear in `t` at all, then the first occurrence of `t` in `a + t + b`
   * is right after `a`.
   */
  lemma {:induction false} FindAfterPrefix(a: string, t: string, b: string)
    requires |a| > 0 && !Contains(a, t)
    requires forall k :: 0 <= k < |t| ==> t[k] != a[|a| - 1]
    ensures Find(a + t + b, t) == Some(|a|)
  {
    var s := a + t + b;
    assert OccursAt(s, t, |a|) by {
      assert s[|a|..|a| + |t|] == t;
    }
    forall j: nat | j < |a|
      ensures !OccursAt(s, t, j)
    {
      if j + |t| <= |a| {
        assert s[j..j + |t|] == a[j..j + |t|];
        assert !OccursAt(a, t, j);
      } else if j + |t| <= |s| {
        var k := |a| - 1 - j;
        assert s[j..j + |t|][k] == a[|a| - 1] != t[k];
      }
    }
  }
}
