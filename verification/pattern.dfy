/**
 * The three regular expressions of the validation rule all have the shape
 * `/pre(.+)suf/`: a literal prefix, a non-empty capture, a literal suffix,
 * found anywhere in the message. This module matches that shape the way a
 * backtracking matcher does: the leftmost position where the whole pattern
 * can match, and there the longest capture (`.+` is greedy).
 */
module Pattern {
  import opened Wrappers

  /** `w` occurs in `s` starting at position `k`. */
  predicate StartsAt(s: string, w: string, k: int)
  {
    0 <= k && k + |w| <= |s| && s[k..k + |w|] == w
  }

  /** `w` is a substring of `s`. */
  predicate Occurs(s: string, w: string)
  {
    exists k :: 0 <= k <= |s| && StartsAt(s, w, k)
  }

  /** `pre(.+)suf` matches `s` with `pre` at `i` and `suf` at `j`; the capture is `s[i + |pre|..j]`. */
  predicate MatchAt(s: string, pre: string, suf: string, i: int, j: int)
  {
    StartsAt(s, pre, i) && i + |pre| < j && StartsAt(s, suf, j)
  }

  /** `pre(.+)suf` matches somewhere in `s` (what `preg_match` reports as 1). */
  predicate Matches(s: string, pre: string, suf: string)
  {
    exists i, j :: 0 <= i < j <= |s| && MatchAt(s, pre, suf, i, j)
  }

  /** The last position in `[lo, hi)` where `w` starts, if any. */
  function LastStart(s: string, w: string, lo: nat, hi: nat): (r: Option<nat>)
    ensures r.Some? ==> lo <= r.value < hi && StartsAt(s, w, r.value)
    ensures r.Some? ==> forall j :: r.value < j < hi ==> !StartsAt(s, w, j)
    ensures r.None? <==> forall j :: lo <= j < hi ==> !StartsAt(s, w, j)
    decreases hi - lo
  {
    if hi <= lo then None
    else if StartsAt(s, w, hi - 1) then Some(hi - 1)
    else LastStart(s, w, lo, hi - 1)
  }

  /**
   * The match a backtracking matcher finds when it starts trying at `from`:
   * the leftmost start, and for it the rightmost suffix.
   */
  function MatchFrom(s: string, pre: string, suf: string, from: nat): (r: Option<(nat, nat)>)
    ensures r.Some? ==> from <= r.value.0 && MatchAt(s, pre, suf, r.value.0, r.value.1)
    ensures r.Some? ==> forall i, j :: from <= i < r.value.0 ==> !MatchAt(s, pre, suf, i, j)
    ensures r.Some? ==> forall j :: r.value.1 < j ==> !MatchAt(s, pre, suf, r.value.0, j)
    ensures r.None? <==> forall i, j :: from <= i ==> !MatchAt(s, pre, suf, i, j)
    decreases |s| - from
  {
    if |s| <= from + |pre| then None
    else
      match LastStart(s, suf, from + |pre| + 1, |s| + 1)
      case Some(j) =>
        if StartsAt(s, pre, from) then
          assert MatchAt(s, pre, suf, from, j);
          Some((from, j))
        else MatchFrom(s, pre, suf, from + 1)
      case None => MatchFrom(s, pre, suf, from + 1)
  }

  /** Whether `preg_match` finds `pre(.+)suf` in `s`, and the text its group captures. */
  function Capture(s: string, pre: string, suf: string): (r: Option<string>)
    ensures r.Some? <==> Matches(s, pre, suf)
    ensures r.Some? ==> |r.value| > 0 && Occurs(s, pre + r.value + suf)
  {
    match MatchFrom(s, pre, suf, 0)
    case None => None
    case Some((i, j)) =>
      var x := s[i + |pre|..j];
      StartsAtConcat(s, pre, suf, i, j);
      Some(x)
  }

  /** A prefix at `i` and a suffix at `j` frame the text between them. */
  lemma StartsAtConcat(s: string, pre: string, suf: string, i: int, j: int)
    requires StartsAt(s, pre, i) && i + |pre| <= j && StartsAt(s, suf, j)
    ensures StartsAt(s, pre + s[i + |pre|..j] + suf, i)
  {
    assert s[i..j + |suf|] == s[i..i + |pre|] + s[i + |pre|..j] + s[j..j + |suf|];
  }
}
