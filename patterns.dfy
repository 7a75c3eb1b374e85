/** The regular expressions the listing parsers search for, each as a matcher at one
    position. `Text.Search(s, k => XAt(s, k))` is then `re.search(pattern, s)`: the match
    that starts leftmost wins. Each matcher takes the greedy extent of every repeated
    part; for these patterns the character after a greedy run can never begin the part
    that follows, so backtracking finds nothing else (NumberBeforeWordExact proves this
    for the price pattern). */
module Patterns {
  import opened Wrappers
  import opened Text

  /** `[\d.]+` at position k. */
  function NumberRunAt(s: string, k: nat): (r: Option<string>)
    ensures r.Some? <==> k < |s| && IsNumChar(s[k])
    ensures r.Some? ==> |r.value| > 0 && OccursAt(s, k, r.value)
    ensures r.Some? ==> forall i :: 0 <= i < |r.value| ==> IsNumChar(r.value[i])
    ensures r.Some? && k + |r.value| < |s| ==> !IsNumChar(s[k + |r.value|])
  {
    if k < |s| && IsNumChar(s[k]) then Some(s[k..SpanEnd(s, k, IsNumChar)]) else None
  }

  /** `([\d.]+)\s*w` at position k, giving group 1. */
  function NumberBeforeWordAt(s: string, w: string, k: nat): (r: Option<string>)
    ensures r.Some? ==> r == NumberRunAt(s, k)
  {
    if k < |s| && IsNumChar(s[k]) then
      var j := SpanEnd(s, k, IsNumChar);
      var e := SpanEnd(s, j, IsSpace);
      if OccursAt(s, e, w) then Some(s[k..j]) else None
    else None
  }

  /** A way for `([\d.]+)\s*w` to match at k: digits and dots in [k, j), whitespace
      in [j, e), then w. This is what the regular expression itself allows. */
  predicate NumberBeforeWordSplit(s: string, w: string, k: nat, j: nat, e: nat) {
    k < j <= e && OccursAt(s, e, w)
    && (forall i :: k <= i < j ==> IsNumChar(s[i]))
    && (forall i :: j <= i < e ==> IsSpace(s[i]))
  }

  /** When w starts with a letter, the matcher succeeds exactly when the pattern can
      match at k, and the pattern's only split is the greedy one, so the group the
      matcher reports is the group re.search reports. */
  lemma NumberBeforeWordExact(s: string, w: string, k: nat, j: nat, e: nat)
    requires |w| > 0 && IsLetter(w[0])
    requires NumberBeforeWordSplit(s, w, k, j, e)
    ensures NumberBeforeWordAt(s, w, k) == Some(s[k..j])
  {
    assert s[e] == w[0];
    assert !IsNumChar(s[j]) by {
      if j < e { assert IsSpace(s[j]); }
    }
    SpanEndAt(s, k, j, IsNumChar);
    SpanEndAt(s, j, e, IsSpace);
  }

  /** A run of p from i that stops at j ends at j. */
  lemma {:induction false} SpanEndAt(s: string, i: nat, j: nat, p: char -> bool)
    requires i <= j <= |s|
    requires forall t :: i <= t < j ==> p(s[t])
    requires j < |s| ==> !p(s[j])
    ensures SpanEnd(s, i, p) == j
    decreases j - i
  {
    if i < j {
      SpanEndAt(s, i + 1, j, p);
    }
  }

  /** Conversely, a match of the matcher is a split of the pattern: the number runs
      to the greedy end of the digits and dots, the whitespace after it is skipped. */
  lemma NumberBeforeWordSound(s: string, w: string, k: nat)
    requires NumberBeforeWordAt(s, w, k).Some?
    ensures var j := k + |NumberBeforeWordAt(s, w, k).value|;
      j <= |s| && NumberBeforeWordSplit(s, w, k, j, SpanEnd(s, j, IsSpace))
  {
  }

  /** `sector\s*(\d+[a-z]*)` at position k, giving group 1. */
  function SectorAt(s: string, k: nat): (r: Option<string>)
    ensures r.Some? ==> OccursAt(s, k, "sector")
    ensures r.Some? ==> |r.value| > 0 && IsDigit(r.value[0])
    ensures r.Some? ==> forall i :: 0 <= i < |r.value| ==> IsDigit(r.value[i]) || IsLowerLetter(r.value[i])
  {
    if OccursAt(s, k, "sector") then
      var e := SpanEnd(s, k + 6, IsSpace);
      if e < |s| && IsDigit(s[e]) then
        var d := SpanEnd(s, e, IsDigit);
        Some(s[e..SpanEnd(s, d, IsLowerLetter)])
      else None
    else None
  }

  /** `phase\s*(\d+)` at position k, giving group 1. */
  function PhaseAt(s: string, k: nat): (r: Option<string>)
    ensures r.Some? ==> OccursAt(s, k, "phase")
    ensures r.Some? ==> |r.value| > 0 && forall i :: 0 <= i < |r.value| ==> IsDigit(r.value[i])
  {
    if OccursAt(s, k, "phase") then
      var e := SpanEnd(s, k + 5, IsSpace);
      if e < |s| && IsDigit(s[e]) then Some(s[e..SpanEnd(s, e, IsDigit)]) else None
    else None
  }

  /** `\d+` at position k. */
  function DigitRunAt(s: string, k: nat): (r: Option<string>)
    ensures r.Some? <==> k < |s| && IsDigit(s[k])
    ensures r.Some? ==> |r.value| > 0 && OccursAt(s, k, r.value)
    ensures r.Some? ==> forall i :: 0 <= i < |r.value| ==> IsDigit(r.value[i])
    ensures r.Some? && k + |r.value| < |s| ==> !IsDigit(s[k + |r.value|])
  {
    if k < |s| && IsDigit(s[k]) then Some(s[k..SpanEnd(s, k, IsDigit)]) else None
  }

  /** `\d+\.?\d*` at position k: digits, then optionally a dot and more digits. */
  function DecimalAt(s: string, k: nat): (r: Option<string>)
    ensures r.Some? <==> k < |s| && IsDigit(s[k])
    ensures r.Some? ==> |r.value| > 0 && OccursAt(s, k, r.value) && IsDigit(r.value[0])
    ensures r.Some? ==> forall i :: 0 <= i < |r.value| ==> IsNumChar(r.value[i])
    ensures r.Some? ==> forall i, j :: 0 <= i < j < |r.value| && r.value[i] == '.' ==> r.value[j] != '.'
    ensures r.Some? && k + |r.value| < |s| ==> !IsDigit(s[k + |r.value|])
  {
    if k < |s| && IsDigit(s[k]) then
      var d := SpanEnd(s, k, IsDigit);
      if d < |s| && s[d] == '.' then Some(s[k..SpanEnd(s, d + 1, IsDigit)])
      else Some(s[k..d])
    else None
  }
}
