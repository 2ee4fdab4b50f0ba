/**
 * The JavaScript string operations the relay relies on: `startsWith`,
 * the search behind `indexOf`, and `replace` with a string pattern, which
 * replaces only the FIRST occurrence of the pattern, literally.
 */
module Strings {
  import opened Wrappers

  /** `s.startsWith(prefix)`. */
  predicate StartsWith(s: string, prefix: string) {
    |prefix| <= |s| && s[..|prefix|] == prefix
  }

  /** `pat` occurs in `s` starting at index `i`. */
  predicate OccursAt(s: string, pat: string, i: int) {
    0 <= i && i + |pat| <= |s| && s[i..i + |pat|] == pat
  }

  /** `s.includes(pat)`. */
  predicate Contains(s: string, pat: string) {
    exists i :: 0 <= i <= |s| && OccursAt(s, pat, i)
  }

  /** `i` is the leftmost occurrence of `pat` in `s`. */
  predicate IsFirstOccurrence(s: string, pat: string, i: int) {
    OccursAt(s, pat, i) && forall j :: 0 <= j < i ==> !OccursAt(s, pat, j)
  }

  /** `s` contains no character `c`. */
  predicate Lacks(s: string, c: char) {
    forall i :: 0 <= i < |s| ==> s[i] != c
  }

  /**
   * The leftmost occurrence of `pat` in `s` at or after `from`, scanning
   * forward one position at a time (`indexOf(pat, from)`, with `None` for -1).
   */
  function FindFrom(s: string, pat: string, from: nat): (r: Option<nat>)
    ensures r.Some? ==> from <= r.value && OccursAt(s, pat, r.value)
    ensures r.Some? ==> forall j :: from <= j < r.value ==> !OccursAt(s, pat, j)
    ensures r.None? ==> forall j :: from <= j ==> !OccursAt(s, pat, j)
    decreases |s| - from
  {
    if from + |pat| > |s| then None
    else if s[from..from + |pat|] == pat then Some(from)
    else FindFrom(s, pat, from + 1)
  }

  /** `s.indexOf(pat)`. */
  function IndexOf(s: string, pat: string): (r: Option<nat>)
    ensures r.Some? ==> IsFirstOccurrence(s, pat, r.value)
    ensures r.None? <==> !Contains(s, pat)
  {
    FindFrom(s, pat, 0)
  }

  /** `s.replace(pat, rep)` for a string `pat` and a `rep` without `$` patterns. */
  function ReplaceFirst(s: string, pat: string, rep: string): (r: string)
    ensures !Contains(s, pat) ==> r == s
    ensures Contains(s, pat) ==> |r| == |s| - |pat| + |rep|
  {
    match IndexOf(s, pat)
    case None => s
    case Some(i) => s[..i] + rep + s[i + |pat|..]
  }

  /** There is only one leftmost occurrence. */
  lemma FirstOccurrenceUnique(s: string, pat: string, i: int, j: int)
    requires IsFirstOccurrence(s, pat, i) && IsFirstOccurrence(s, pat, j)
    ensures i == j
  {
  }

  /** `IndexOf` finds exactly the leftmost occurrence. */
  lemma IndexOfFirst(s: string, pat: string, i: int)
    requires IsFirstOccurrence(s, pat, i)
    ensures IndexOf(s, pat) == Some(i)
  {
    var r := IndexOf(s, pat);
    assert r.Some?;
    FirstOccurrenceUnique(s, pat, r.value, i);
  }

  /**
   * `ReplaceFirst` cuts out the leftmost occurrence and puts `rep` in its
   * place; everything before and after it is kept.
   */
  lemma ReplaceFirstAt(s: string, pat: string, rep: string, i: int)
    requires IsFirstOccurrence(s, pat, i)
    ensures ReplaceFirst(s, pat, rep) == s[..i] + rep + s[i + |pat|..]
  {
    IndexOfFirst(s, pat, i);
  }

  /** A prefix occurrence is always the leftmost one, so replace swaps the prefix. */
  lemma ReplaceFirstPrefix(s: string, pat: string, rep: string)
    requires StartsWith(s, pat)
    ensures ReplaceFirst(s, pat, rep) == rep + s[|pat|..]
  {
    assert OccursAt(s, pat, 0);
    ReplaceFirstAt(s, pat, rep, 0);
  }

  /**
   * When `a` holds no copy of the first character of a non-empty `pat`,
   * an occurrence of `pat` right after `a` is the leftmost one in `a + b`.
   */
  lemma FirstOccurrenceAfter(a: string, b: string, pat: string)
    requires |pat| > 0 && Lacks(a, pat[0]) && StartsWith(b, pat)
    ensures IsFirstOccurrence(a + b, pat, |a|)
  {
    var s := a + b;
    assert s[|a|..|a| + |pat|] == b[..|pat|];
    forall j | 0 <= j < |a|
      ensures !OccursAt(s, pat, j)
    {
      assert s[j] == a[j] != pat[0];
    }
  }

  /** `StartsWith` on a concatenation whose left part is the prefix. */
  lemma StartsWithConcat(p: string, r: string)
    ensures StartsWith(p + r, p)
    ensures (p + r)[|p|..] == r
  {
    assert (p + r)[..|p|] == p;
  }

  /** Prefixes compose: `s` starts with `p + q` exactly when it starts with `p` and then `q`. */
  lemma StartsWithAppend(s: string, p: string, q: string)
    ensures StartsWith(s, p + q) <==> StartsWith(s, p) && StartsWith(s[|p|..], q)
  {
    if StartsWith(s, p + q) {
      assert s[..|p|] == (p + q)[..|p|] == p;
      assert s[|p|..][..|q|] == s[|p|..|p| + |q|] == (p + q)[|p|..] == q;
    }
    if StartsWith(s, p) && StartsWith(s[|p|..], q) {
      assert s[..|p| + |q|] == s[..|p|] + s[|p|..][..|q|];
    }
  }
}
