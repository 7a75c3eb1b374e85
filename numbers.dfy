/** Number conversions the parsers rely on: Python's float() on the digit-and-dot
    tokens the regexes extract (and on a signed decimal), int() on a digit run, and
    int() truncation of a number. Decimal values are modelled as exact reals. */
module Numbers {
  import opened Wrappers
  import opened Text

  function Count(s: string, p: char -> bool): (n: nat)
    ensures n <= |s|
  {
    if s == [] then 0 else (if p(s[0]) then 1 else 0) + Count(s[1..], p)
  }

  lemma {:induction false} CountAppend(a: string, b: string, p: char -> bool)
    ensures Count(a + b, p) == Count(a, p) + Count(b, p)
    decreases |a|
  {
    if a != [] {
      assert (a + b)[0] == a[0];
      assert (a + b)[1..] == a[1..] + b;
      CountAppend(a[1..], b, p);
    } else {
      assert a + b == b;
    }
  }

  /** Count is zero exactly when no character satisfies p. */
  lemma {:induction false} CountZero(s: string, p: char -> bool)
    ensures Count(s, p) == 0 <==> forall i :: 0 <= i < |s| ==> !p(s[i])
    decreases |s|
  {
    if s != [] {
      CountZero(s[1..], p);
      assert forall i :: 1 <= i < |s| ==> s[i] == s[1..][i - 1];
    }
  }

  /** A token in which no two positions hold a '.' has at most one. */
  lemma {:induction false} AtMostOneDot(tok: string)
    requires forall i, j :: 0 <= i < j < |tok| && tok[i] == '.' ==> tok[j] != '.'
    ensures Count(tok, IsDot) <= 1
    decreases |tok|
  {
    if tok != [] {
      var rest := tok[1..];
      assert forall i :: 0 <= i < |rest| ==> rest[i] == tok[i + 1];
      if tok[0] == '.' {
        CountZero(rest, IsDot);
      } else {
        AtMostOneDot(rest);
      }
    }
  }

  /** In a token of digits and dots every character is one or the other. */
  lemma {:induction false} DigitsPlusDots(tok: string)
    requires forall i :: 0 <= i < |tok| ==> IsNumChar(tok[i])
    ensures Count(tok, IsDigit) + Count(tok, IsDot) == |tok|
    decreases |tok|
  {
    if tok != [] {
      DigitsPlusDots(tok[1..]);
    }
  }

  function Pow10(n: nat): (r: nat)
    ensures r >= 1
  {
    if n == 0 then 1 else 10 * Pow10(n - 1)
  }

  /** int() of a run of decimal digits. */
  function DigitsValue(ds: string): (v: nat)
    requires forall i :: 0 <= i < |ds| ==> IsDigit(ds[i])
    ensures v < Pow10(|ds|)
    decreases |ds|
  {
    if ds == [] then 0
    else
      var prefix, last := ds[..|ds| - 1], ds[|ds| - 1];
      assert IsDigit(last);
      var d := last as int - '0' as int;
      var v := DigitsValue(prefix) * 10 + d;
      assert Pow10(|ds|) == 10 * Pow10(|prefix|);
      assert v < Pow10(|ds|) by {
        assert DigitsValue(prefix) <= Pow10(|prefix|) - 1;
        assert DigitsValue(prefix) * 10 <= Pow10(|prefix|) * 10 - 10;
      }
      v
  }

  /** Position of the first '.', or |s| when there is none. */
  function DotIndex(s: string): (i: nat)
    ensures i <= |s|
    ensures forall k :: 0 <= k < i ==> s[k] != '.'
    ensures i < |s| ==> s[i] == '.'
  {
    if s == [] then 0 else if s[0] == '.' then 0 else 1 + DotIndex(s[1..])
  }

  lemma FractionBelowOne(num: real, den: real)
    requires 0.0 <= num < den
    ensures 0.0 <= num / den < 1.0
  {
    assert num / den * den == num;
  }

  /** The value of a decimal "ddd.fff" (either side may be empty). */
  function DecimalValue(intDigits: string, fracDigits: string): (v: real)
    requires forall i :: 0 <= i < |intDigits| ==> IsDigit(intDigits[i])
    requires forall i :: 0 <= i < |fracDigits| ==> IsDigit(fracDigits[i])
    ensures DigitsValue(intDigits) as real <= v < DigitsValue(intDigits) as real + 1.0
  {
    var num, den := DigitsValue(fracDigits) as real, Pow10(|fracDigits|) as real;
    FractionBelowOne(num, den);
    DigitsValue(intDigits) as real + num / den
  }

  /** float(tok) for a token matched by [\d.]+: it succeeds exactly when the token has
      at most one '.' and at least one digit ('5.', '.5' and '5' are numbers; '.' and
      '1.2.3' raise ValueError). A token with any other character is refused too. */
  function ParseNumberToken(tok: string): (r: Option<real>)
    ensures r.Some? <==> (forall i :: 0 <= i < |tok| ==> IsNumChar(tok[i])) && Count(tok, IsDigit) >= 1 && Count(tok, IsDot) <= 1
    ensures r.Some? ==> r.value >= 0.0
  {
    if exists i :: 0 <= i < |tok| && !IsNumChar(tok[i]) then None
    else
      DigitsPlusDots(tok);
      var d := DotIndex(tok);
      if d == |tok| then
        CountZero(tok, IsDot);
        assert forall i :: 0 <= i < |tok| ==> IsDigit(tok[i]);
        (if tok == [] then None else Some(DigitsValue(tok) as real))
      else
        var intPart, fracPart := tok[..d], tok[d + 1..];
        DotSplitCounts(tok, d);
        if Count(fracPart, IsDot) > 0 || (intPart == [] && fracPart == []) then None
        else
          assert forall i :: 0 <= i < |intPart| ==> IsDigit(intPart[i]);
          CountZero(fracPart, IsDot);
          assert forall i :: 0 <= i < |fracPart| ==> IsNumChar(fracPart[i]);
          assert forall i :: 0 <= i < |fracPart| ==> IsDigit(fracPart[i]);
          Some(DecimalValue(intPart, fracPart))
  }

  /** Splitting a digit-and-dot token at its first '.': that dot and the dots of the
      fraction are all its dots, and the rest of its characters are digits. */
  lemma DotSplitCounts(tok: string, d: nat)
    requires forall i :: 0 <= i < |tok| ==> IsNumChar(tok[i])
    requires d == DotIndex(tok) < |tok|
    ensures Count(tok, IsDot) == 1 + Count(tok[d + 1..], IsDot)
    ensures Count(tok, IsDigit) == d + (|tok| - d - 1) - Count(tok[d + 1..], IsDot)
  {
    DotsAfterFirst(tok, d);
    DigitsPlusDots(tok);
  }

  /** The dots of s, when the first is at d: that one and those after it. */
  lemma DotsAfterFirst(s: string, d: nat)
    requires d == DotIndex(s) < |s|
    ensures Count(s, IsDot) == 1 + Count(s[d + 1..], IsDot)
  {
    var intPart, fracPart := s[..d], s[d + 1..];
    var tail := s[d..];
    assert tail[0] == '.' && tail[1..] == fracPart;
    assert s == intPart + tail;
    CountAppend(intPart, tail, IsDot);
    assert forall i :: 0 <= i < |intPart| ==> !IsDot(intPart[i]);
    CountZero(intPart, IsDot);
  }

  /** A non-empty run of digits reads as its integer value. */
  lemma IntegerToken(tok: string)
    requires tok != [] && forall i :: 0 <= i < |tok| ==> IsDigit(tok[i])
    ensures ParseNumberToken(tok) == Some(DigitsValue(tok) as real)
  {
    assert forall i :: 0 <= i < |tok| ==> tok[i] != '.';
    assert DotIndex(tok) == |tok|;
  }

  /** Digits, one '.', digits (not both runs empty) read as the decimal they spell. */
  lemma DecimalToken(tok: string, d: nat)
    requires d < |tok| && tok[d] == '.' && |tok| >= 2
    requires forall i :: 0 <= i < |tok| && i != d ==> IsDigit(tok[i])
    ensures var ds := tok[..d]; forall i :: 0 <= i < |ds| ==> IsDigit(ds[i])
    ensures var fs := tok[d + 1..]; forall i :: 0 <= i < |fs| ==> IsDigit(fs[i])
    ensures ParseNumberToken(tok) == Some(DecimalValue(tok[..d], tok[d + 1..]))
  {
    assert DotIndex(tok) == d;
    var fracPart := tok[d + 1..];
    assert forall i :: 0 <= i < |fracPart| ==> !IsDot(fracPart[i]);
    CountZero(fracPart, IsDot);
  }

  /** float(s) for a string with an optional sign followed by a digit-and-dot token;
      any other text raises ValueError, modelled as None. */
  function ParseSignedDecimal(s: string): (r: Option<real>)
    ensures s == [] || (s[0] != '-' && s[0] != '+') ==> r == ParseNumberToken(s)
    ensures s != [] && s[0] == '+' ==> r == ParseNumberToken(s[1..])
    ensures s != [] && s[0] == '-' ==> (r.Some? <==> ParseNumberToken(s[1..]).Some?)
    ensures s != [] && s[0] == '-' && r.Some? ==> r.value == -ParseNumberToken(s[1..]).value <= 0.0
  {
    if s != [] && (s[0] == '-' || s[0] == '+') then
      match ParseNumberToken(s[1..])
      case None => None
      case Some(v) => Some(if s[0] == '-' then -v else v)
    else ParseNumberToken(s)
  }

  /** int(x) for a float x: truncation toward zero. */
  function Trunc(x: real): (n: int)
    ensures x >= 0.0 ==> n as real <= x < n as real + 1.0
    ensures x < 0.0 ==> n as real - 1.0 < x <= n as real
  {
    if x >= 0.0 then x.Floor else -((-x).Floor)
  }

  /** Rounding to the nearest integer, a tie going to the even neighbour, as
      Python's round() does. */
  function RoundHalfEven(x: real): (n: int)
    ensures x - 0.5 <= n as real <= x + 0.5
    ensures n as real - x == 0.5 || x - n as real == 0.5 ==> n % 2 == 0
  {
    var f := x.Floor;
    var d := x - f as real;
    if d < 0.5 then f else if d > 0.5 then f + 1 else if f % 2 == 0 then f else f + 1
  }

  /** A larger value never rounds lower. */
  lemma RoundHalfEvenMonotone(x: real, y: real)
    requires x <= y
    ensures RoundHalfEven(x) <= RoundHalfEven(y)
  {
    if x.Floor < y.Floor {
      assert RoundHalfEven(x) <= x.Floor + 1 <= y.Floor <= RoundHalfEven(y);
    }
  }

  /** An integer rounds to itself. */
  lemma RoundHalfEvenOfInt(n: int)
    ensures RoundHalfEven(n as real) == n
  {
    assert (n as real).Floor == n;
  }

  /** round(x, 1): x to the nearest tenth, a tie going to the even tenth. */
  function Round1(x: real): (r: real)
    ensures x - 0.05 <= r <= x + 0.05
  {
    RoundHalfEven(x * 10.0) as real / 10.0
  }

  /** round(x, 1) never orders two values the other way round. */
  lemma Round1Monotone(x: real, y: real)
    requires x <= y
    ensures Round1(x) <= Round1(y)
  {
    RoundHalfEvenMonotone(x * 10.0, y * 10.0);
  }

  /** A value that is already a whole number of tenths is kept, so rounding twice is
      rounding once. */
  lemma Round1OfTenths(k: int)
    ensures Round1(k as real / 10.0) == k as real / 10.0
  {
    assert k as real / 10.0 * 10.0 == k as real;
    RoundHalfEvenOfInt(k);
  }

  lemma Round1Idempotent(x: real)
    ensures Round1(Round1(x)) == Round1(x)
  {
    Round1OfTenths(RoundHalfEven(x * 10.0));
  }

  /** round(x, 1) can make two different values equal: 771 / 11, about 70.09, and
      70.1 both round to 70.1, so a sort on the rounded value treats them as a tie. */
  lemma Round1Merges(x: real, y: real)
    requires x == 771.0 / 11.0 && y == 70.1
    ensures x < y && Round1(x) == Round1(y) == 70.1
  {
    assert 700.0 < x * 10.0 < 701.0;
    assert (x * 10.0).Floor == 700;
    RoundHalfEvenOfInt(701);
    assert y * 10.0 == 701.0;
  }

  function Min(a: real, b: real): (m: real)
    ensures m <= a && m <= b
    ensures m == a || m == b
  {
    if a <= b then a else b
  }

  /** How many of the thresholds ts the value x reaches (x >= t): the rung of a
      `>=` ladder such as `if x >= 80 ... elif x >= 65 ...` that x lands on. */
  function Reached(x: real, ts: seq<real>): (n: nat)
    ensures n <= |ts|
    decreases |ts|
  {
    if ts == [] then 0 else (if x >= ts[0] then 1 else 0) + Reached(x, ts[1..])
  }

  /** How many of the thresholds ts the value x exceeds (x > t): the rung of a `>`
      ladder. */
  function Exceeded(x: real, ts: seq<real>): (n: nat)
    ensures n <= |ts|
    decreases |ts|
  {
    if ts == [] then 0 else (if x > ts[0] then 1 else 0) + Exceeded(x, ts[1..])
  }

  /** A larger value reaches at least as many thresholds. */
  lemma {:induction false} ReachedMonotone(x: real, y: real, ts: seq<real>)
    requires x <= y
    ensures Reached(x, ts) <= Reached(y, ts)
    decreases |ts|
  {
    if ts != [] {
      ReachedMonotone(x, y, ts[1..]);
    }
  }

  /** A larger value exceeds at least as many thresholds. */
  lemma {:induction false} ExceededMonotone(x: real, y: real, ts: seq<real>)
    requires x <= y
    ensures Exceeded(x, ts) <= Exceeded(y, ts)
    decreases |ts|
  {
    if ts != [] {
      ExceededMonotone(x, y, ts[1..]);
    }
  }
}
