/** Character classes, case mapping, stripping and substring tests on text, in the
    sense the listing parsers use them: Python's str.lower(), str.strip(),
    str.replace(), str.title(), the `in` operator on strings, and the regex classes
    \d, \s, [a-z] and [\d.]. Characters outside ASCII are not case-mapped. */
module Text {
  import opened Wrappers

  predicate IsDigit(c: char) { '0' <= c <= '9' }
  predicate IsDot(c: char) { c == '.' }
  /** The regex class [\d.]. */
  predicate IsNumChar(c: char) { IsDigit(c) || IsDot(c) }
  predicate IsLowerLetter(c: char) { 'a' <= c <= 'z' }
  predicate IsUpperLetter(c: char) { 'A' <= c <= 'Z' }
  predicate IsLetter(c: char) { IsLowerLetter(c) || IsUpperLetter(c) }
  /** Python whitespace in the ASCII range: \t \n \v \f \r, the separators \x1c-\x1f
      and the space. */
  predicate IsSpace(c: char) { 9 <= c as int <= 13 || 28 <= c as int <= 32 }

  function LowerChar(c: char): (r: char)
    ensures IsUpperLetter(c) ==> IsLowerLetter(r) && r as int == c as int + 32
    ensures !IsUpperLetter(c) ==> r == c
  {
    if IsUpperLetter(c) then (c as int + 32) as char else c
  }

  function UpperChar(c: char): (r: char)
    ensures IsLowerLetter(c) ==> IsUpperLetter(r) && r as int + 32 == c as int
    ensures !IsLowerLetter(c) ==> r == c
  {
    if IsLowerLetter(c) then (c as int - 32) as char else c
  }

  /** str.lower(), character by character. */
  function Lower(s: string): (r: string)
    ensures |r| == |s|
    ensures forall i :: 0 <= i < |s| ==> r[i] == LowerChar(s[i])
  {
    if s == [] then [] else [LowerChar(s[0])] + Lower(s[1..])
  }

  /** A text without the first character of w does not contain w. */
  lemma FirstCharAbsent(s: string, w: string)
    requires |w| > 0 && w[0] !in s
    ensures !Contains(s, w)
  {
    if Contains(s, w) {
      ContainsChars(s, w, 0);
    }
  }

  /** Lower-casing character by character. */
  lemma LowerEach(s: string, t: string)
    requires |s| == |t|
    requires forall i :: 0 <= i < |s| ==> LowerChar(s[i]) == t[i]
    ensures Lower(s) == t
  {
    var r := Lower(s);
    assert forall i :: 0 <= i < |s| ==> r[i] == t[i];
  }

  /** str.title(): a letter is upper-cased when the character before it is not a
      letter, and lower-cased otherwise. */
  function Title(s: string): (r: string)
  {
    TitleAfter(s, false)
  }

  /** Whether the character before position i of s is a letter, where afterLetter
      says so for the character before s. */
  predicate LetterBefore(s: string, i: nat, afterLetter: bool)
    requires i < |s|
  {
    if i == 0 then afterLetter else IsLetter(s[i - 1])
  }

  /** str.title() on s when the character before s is a letter exactly when
      afterLetter: a letter that starts a word is upper-cased, a letter inside a word
      is lower-cased, and every other character is kept. */
  function TitleAfter(s: string, afterLetter: bool): (r: string)
    ensures |r| == |s|
    ensures Lower(r) == Lower(s)
    ensures forall i :: 0 <= i < |s| && IsLetter(s[i]) && !LetterBefore(s, i, afterLetter) ==> r[i] == UpperChar(s[i])
    ensures forall i :: 0 <= i < |s| && IsLetter(s[i]) && LetterBefore(s, i, afterLetter) ==> r[i] == LowerChar(s[i])
    ensures forall i :: 0 <= i < |s| && !IsLetter(s[i]) ==> r[i] == s[i]
  {
    if s == [] then []
    else
      var c := if !IsLetter(s[0]) then s[0] else if afterLetter then LowerChar(s[0]) else UpperChar(s[0]);
      [c] + TitleAfter(s[1..], IsLetter(s[0]))
  }

  /** w is a prefix of s. */
  predicate StartsWith(s: string, w: string) {
    |w| <= |s| && s[..|w|] == w
  }

  /** Words that differ at a position inside both are not prefixes of each other. */
  lemma NotStartsWith(s: string, w: string, i: nat)
    requires i < |w| && i < |s| && s[i] != w[i]
    ensures !StartsWith(s, w)
  {
    if |w| <= |s| {
      assert s[..|w|][i] == s[i];
    }
  }

  /** Python's `w in s` for strings. */
  predicate Contains(s: string, w: string)
    decreases |s|
  {
    StartsWith(s, w) || (|s| > 0 && Contains(s[1..], w))
  }

  /** w occurs in s starting at position i. */
  predicate OccursAt(s: string, i: nat, w: string) {
    i + |w| <= |s| && s[i..i + |w|] == w
  }

  lemma {:induction false} PrefixContains(s: string, a: string, b: string)
    requires StartsWith(s, a) && Contains(a, b)
    ensures Contains(s, b)
    decreases |a|
  {
    if StartsWith(a, b) {
      assert s[..|b|] == a[..|b|];
    } else {
      assert |a| > 0 && Contains(a[1..], b);
      assert s[1..][..|a| - 1] == a[1..];
      PrefixContains(s[1..], a[1..], b);
    }
  }

  /** Substring containment is transitive: text containing a contains every
      substring of a. */
  lemma {:induction false} ContainsTransitive(s: string, a: string, b: string)
    requires Contains(s, a) && Contains(a, b)
    ensures Contains(s, b)
    decreases |s|
  {
    if StartsWith(s, a) {
      PrefixContains(s, a, b);
    } else {
      ContainsTransitive(s[1..], a, b);
    }
  }

  /** Contains agrees with an occurrence at some position. */
  lemma {:induction false} OccursAtContains(s: string, i: nat, w: string)
    requires OccursAt(s, i, w)
    ensures Contains(s, w)
    decreases i
  {
    if i == 0 {
      assert s[..|w|] == w;
    } else {
      assert s[1..][i - 1..i - 1 + |w|] == s[i..i + |w|];
      OccursAtContains(s[1..], i - 1, w);
    }
  }

  /** Every character of a word that s contains is a character of s. */
  lemma {:induction false} ContainsChars(s: string, w: string, i: nat)
    requires Contains(s, w) && i < |w|
    ensures w[i] in s
    decreases |s|
  {
    if StartsWith(s, w) {
      assert s[i] == w[i];
    } else {
      ContainsChars(s[1..], w, i);
    }
  }

  /** Text that contains w still contains it after more text is appended. */
  lemma {:induction false} ContainsAppend(s: string, t: string, w: string)
    requires Contains(s, w)
    ensures Contains(s + t, w)
    decreases |s|
  {
    if StartsWith(s, w) {
      assert (s + t)[..|w|] == s[..|w|];
    } else {
      assert (s + t)[1..] == s[1..] + t;
      ContainsAppend(s[1..], t, w);
    }
  }

  /** s.replace(c, '') for a single character c. */
  function RemoveChar(s: string, c: char): (r: string)
    ensures |r| <= |s|
    ensures forall i :: 0 <= i < |r| ==> r[i] != c
    ensures forall d :: d != c ==> (d in r <==> d in s)
    ensures c !in s ==> r == s
  {
    if s == [] then [] else (if s[0] == c then [] else [s[0]]) + RemoveChar(s[1..], c)
  }

  /** s.replace(w, ''): occurrences are found left to right and do not overlap. Only
      characters of s remain, and a text that contains w loses at least one copy. */
  function RemoveWord(s: string, w: string): (r: string)
    requires |w| > 0
    ensures |r| <= |s|
    ensures multiset(r) <= multiset(s)
    ensures !Contains(s, w) ==> r == s
    ensures Contains(s, w) ==> |r| <= |s| - |w|
    decreases |s|
  {
    if s == [] then []
    else if StartsWith(s, w) then
      assert s == s[..|w|] + s[|w|..];
      RemoveWord(s[|w|..], w)
    else
      assert s == [s[0]] + s[1..];
      [s[0]] + RemoveWord(s[1..], w)
  }

  /** Removing w from a text that ends in w, and has no other character equal to the
      first of w, leaves the text before it. */
  lemma {:induction false} RemoveTrailingWord(a: string, w: string)
    requires |w| > 0 && w[0] !in a
    ensures RemoveWord(a + w, w) == a
    decreases |a|
  {
    if a == [] {
      assert a + w == w && w[|w|..] == [];
    } else {
      var s := a + w;
      NotStartsWith(s, w, 0);
      assert s[1..] == a[1..] + w;
      RemoveTrailingWord(a[1..], w);
      assert [a[0]] + a[1..] == a;
    }
  }

  /** Number of leading whitespace characters. */
  function LeadingSpace(s: string): (n: nat)
    ensures n <= |s|
    ensures forall i :: 0 <= i < n ==> IsSpace(s[i])
    ensures n < |s| ==> !IsSpace(s[n])
  {
    if s != [] && IsSpace(s[0]) then 1 + LeadingSpace(s[1..]) else 0
  }

  /** Number of trailing whitespace characters. */
  function TrailingSpace(s: string): (n: nat)
    ensures n <= |s|
    ensures forall i :: |s| - n <= i < |s| ==> IsSpace(s[i])
    ensures n < |s| ==> !IsSpace(s[|s| - 1 - n])
    decreases |s|
  {
    if s != [] && IsSpace(s[|s| - 1]) then 1 + TrailingSpace(s[..|s| - 1]) else 0
  }

  /** str.strip(): drops leading and trailing whitespace. */
  function Strip(s: string): (r: string)
    ensures |r| <= |s|
    ensures r != [] ==> !IsSpace(r[0]) && !IsSpace(r[|r| - 1])
    ensures (forall i :: 0 <= i < |s| ==> IsSpace(s[i])) ==> r == []
    ensures s != [] && !IsSpace(s[0]) && !IsSpace(s[|s| - 1]) ==> r == s
  {
    var t := s[LeadingSpace(s)..];
    t[..|t| - TrailingSpace(t)]
  }

  /** End of the longest run of characters satisfying p that starts at i: the greedy
      extent of `p*` at position i. */
  function SpanEnd(s: string, i: nat, p: char -> bool): (j: nat)
    requires i <= |s|
    ensures i <= j <= |s|
    ensures forall k :: i <= k < j ==> p(s[k])
    ensures j < |s| ==> !p(s[j])
    decreases |s| - i
  {
    if i < |s| && p(s[i]) then SpanEnd(s, i + 1, p) else i
  }

  /** The first position in [i, n) at which the matcher m succeeds. */
  function FirstMatch<T>(n: nat, i: nat, m: nat -> Option<T>): (r: Option<nat>)
    requires i <= n
    ensures r.Some? ==> i <= r.value < n && m(r.value).Some?
    ensures r.Some? ==> forall k :: i <= k < r.value ==> m(k).None?
    ensures r.None? ==> forall k :: i <= k < n ==> m(k).None?
    decreases n - i
  {
    if i == n then None else if m(i).Some? then Some(i) else FirstMatch(n, i + 1, m)
  }

  /** re.search(pattern, s).group(g) where m(k) is the greedy match of the pattern
      at position k (and its group g): the match that starts leftmost wins. */
  function Search<T>(s: string, m: nat -> Option<T>): (r: Option<T>)
  {
    match FirstMatch(|s|, 0, m)
    case None => None
    case Some(k) => m(k)
  }

  /** Search finds a match exactly when some position matches, and then it is the
      match at the leftmost matching position. */
  lemma SearchLeftmost<T>(s: string, m: nat -> Option<T>, k: nat)
    requires k < |s| && m(k).Some?
    requires forall j :: 0 <= j < k ==> m(j).None?
    ensures Search(s, m) == m(k)
  {
    var f := FirstMatch(|s|, 0, m);
    assert f.Some?;
    assert f.value == k;
  }

  lemma SearchNone<T>(s: string, m: nat -> Option<T>)
    requires forall j :: 0 <= j < |s| ==> m(j).None?
    ensures Search(s, m) == None
  {
  }

  lemma SearchFound<T>(s: string, m: nat -> Option<T>)
    requires Search(s, m).Some?
    ensures exists k :: 0 <= k < |s| && m(k) == Search(s, m) && forall j :: 0 <= j < k ==> m(j).None?
  {
    var f := FirstMatch(|s|, 0, m);
    assert m(f.value) == Search(s, m);
  }
}
