/**
 * The few JavaScript string primitives the route handlers rely on:
 * `String.prototype.indexOf`, `includes`, `replace` with a string pattern
 * and the empty string as replacement (which removes the FIRST occurrence
 * only) and `||` on strings, where the empty string is the only falsy string.
 */
module JsStrings {

  datatype Option<+T> = None | Some(value: T)

  /** `pat` occurs in `s` starting at index `i`. */
  predicate OccursAt(s: string, pat: string, i: nat) {
    i + |pat| <= |s| && s[i..i + |pat|] == pat
  }

  /**
   * The first index at or after `k` where `pat` occurs in `s`, as
   * `indexOf(pat, k)` finds it for a non-empty `pat` (the only kind used here;
   * JavaScript would clamp a `k` past the end and find an empty `pat` there).
   */
  function IndexOfFrom(s: string, pat: string, k: nat): (r: Option<nat>)
    decreases |s| - k
    ensures r.Some? ==> k <= r.value && OccursAt(s, pat, r.value)
    ensures r.Some? ==> forall j :: k <= j < r.value ==> !OccursAt(s, pat, j)
    ensures r.None? ==> forall j :: k <= j ==> !OccursAt(s, pat, j)
  {
    if k + |pat| > |s| then None
    else if s[k..k + |pat|] == pat then Some(k)
    else IndexOfFrom(s, pat, k + 1)
  }

  /** `s.indexOf(pat)`, with `None` standing for -1. */
  function IndexOf(s: string, pat: string): (r: Option<nat>)
    ensures r.Some? ==> OccursAt(s, pat, r.value)
    ensures r.Some? ==> forall j :: 0 <= j < r.value ==> !OccursAt(s, pat, j)
    ensures r.None? ==> forall j: nat :: !OccursAt(s, pat, j)
  {
    IndexOfFrom(s, pat, 0)
  }

  /** `s.includes(pat)`: holds exactly when the pattern occurs somewhere. */
  function Includes(s: string, pat: string): (b: bool)
    ensures b <==> exists i: nat :: OccursAt(s, pat, i)
  {
    var r := IndexOf(s, pat);
    assert r.Some? ==> OccursAt(s, pat, r.value);
    r.Some?
  }

  /**
   * `s.replace(pat, '')` for a string `pat`: only the first occurrence is
   * removed (an empty replacement has no `$` patterns to expand). Without an
   * occurrence the string is unchanged; otherwise the result is one pattern
   * shorter, and putting the pattern back at the index `indexOf` reports
   * restores `s`.
   */
  function RemoveFirst(s: string, pat: string): (r: string)
    ensures !Includes(s, pat) ==> r == s
    ensures Includes(s, pat) ==>
              var i := IndexOf(s, pat).value;
              |r| == |s| - |pat| && i <= |r| && r[..i] + pat + r[i..] == s
  {
    match IndexOf(s, pat)
    case None => s
    case Some(i) =>
      var r := s[..i] + s[i + |pat|..];
      assert r[..i] == s[..i] && r[i..] == s[i + |pat|..];
      assert s == s[..i] + s[i..i + |pat|] + s[i + |pat|..];
      r
  }

  /**
   * `a || b` on two strings: `a` exactly when it is non-empty (truthy),
   * otherwise `b`; so the result is empty only when both are.
   */
  function Or(a: string, b: string): (r: string)
    ensures a != "" ==> r == a
    ensures a == "" ==> r == b
    ensures r == "" <==> a == "" && b == ""
  {
    if a != "" then a else b
  }

  /** A string put between two others occurs right after the first. */
  lemma OccursBetween(before: string, pat: string, after: string)
    ensures OccursAt(before + pat + after, pat, |before|)
  {
    assert (before + pat + after)[|before|..|before| + |pat|] == pat;
  }

  /** `indexOf` of a string that starts with the pattern is 0. */
  lemma IndexOfPrefix(pat: string, t: string)
    ensures IndexOf(pat + t, pat) == Some(0)
  {
    assert (pat + t)[0..|pat|] == pat;
    assert OccursAt(pat + t, pat, 0);
  }

  /** A string that starts with the pattern loses exactly that prefix. */
  lemma RemoveFirstPrefix(pat: string, t: string)
    ensures RemoveFirst(pat + t, pat) == t
  {
    IndexOfPrefix(pat, t);
    assert (pat + t)[|pat|..] == t;
  }

  /**
   * No occurrence can start before `i` when the pattern's first character
   * does not appear there.
   */
  lemma NoOccurrenceBefore(s: string, pat: string, i: nat)
    requires pat != "" && i <= |s|
    requires forall j :: 0 <= j < i ==> s[j] != pat[0]
    ensures forall j :: 0 <= j < i ==> !OccursAt(s, pat, j)
  {
    forall j | 0 <= j < i ensures !OccursAt(s, pat, j) {
      if j + |pat| <= |s| {
        assert s[j..j + |pat|][0] == s[j];
      }
    }
  }

  /** Removing the first occurrence, at a known index `i`, joins what stands around it. */
  lemma RemoveFirstAt(s: string, pat: string, i: nat)
    requires OccursAt(s, pat, i)
    requires forall j :: 0 <= j < i ==> !OccursAt(s, pat, j)
    ensures IndexOf(s, pat) == Some(i)
    ensures RemoveFirst(s, pat) == s[..i] + s[i + |pat|..]
  {
  }
}
