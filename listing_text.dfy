/** The listing-text parsers that the three backend scripts each carry a copy of:
    the price in crores and the area in square feet, read from free text such as
    "1.5 Crore", "85 Lakh" or "120 sq.m"; and the keyword and address scanners the
    scorers and classifiers share. */
module ListingText {
  import opened Wrappers
  import opened Text
  import opened Numbers
  import opened Patterns

  /** The text the price parsers search: lower-cased, with every ',' removed. */
  function PriceText(text: string): (s: string)
    ensures |s| <= |text|
    ensures forall i :: 0 <= i < |s| ==> s[i] != ','
  {
    RemoveChar(Lower(text), ',')
  }

  /** re.search(r'([\d.]+)\s*w', s).group(1) */
  function NumberBefore(s: string, w: string): Option<string> {
    Search(s, k => NumberBeforeWordAt(s, w, k))
  }

  /** re.search(r'[\d.]+', s).group() */
  function FirstNumber(s: string): Option<string> {
    Search(s, k => NumberRunAt(s, k))
  }

  /** re.search(r'\d+', s).group() */
  function FirstDigits(s: string): Option<string> {
    Search(s, k => DigitRunAt(s, k))
  }

  /** re.findall(r'\d+\.?\d*', s)[0], which is the leftmost match. */
  function FirstDecimal(s: string): Option<string> {
    Search(s, k => DecimalAt(s, k))
  }

  /** The price in crores. A "crore" anywhere decides the unit and then only the
      number written before "crore" counts; otherwise a "lakh" does the same with the
      number divided by 100; otherwise the first number counts, divided by 100 when it
      exceeds 1000. A token float() refuses, or no token at all, gives 0. */
  function PriceFromText(text: string): (r: real)
    ensures r >= 0.0
  {
    var s := PriceText(text);
    if Contains(s, "crore") then
      match NumberBefore(s, "crore")
      case None => 0.0
      case Some(tok) => ParseNumberToken(tok).GetOr(0.0)
    else if Contains(s, "lakh") then
      match NumberBefore(s, "lakh")
      case None => 0.0
      case Some(tok) => ParseNumberToken(tok).GetOr(0.0) / 100.0
    else
      match FirstNumber(s)
      case None => 0.0
      case Some(tok) =>
        match ParseNumberToken(tok)
        case None => 0.0
        case Some(v) => if v > 1000.0 then v / 100.0 else v
  }

  /** The area in square feet: the first number, times 10.764 when the text mentions
      square metres ("sq.m" or "sq m"), else times 9 when it mentions yards. Commas
      are not removed, so "1,200 sq ft" reads as 1. */
  function AreaFromText(text: string): (r: real)
    ensures r >= 0.0
  {
    var s := Lower(text);
    match FirstNumber(s)
    case None => 0.0
    case Some(tok) =>
      match ParseNumberToken(tok)
      case None => 0.0
      case Some(v) => InSquareFeet(s, v)
  }

  /** v read in the unit the text names: square metres (10.764 square feet each)
      take precedence over yards (9 square feet each); otherwise square feet. */
  function InSquareFeet(s: string, v: real): (r: real)
    ensures v >= 0.0 ==> r >= v
    ensures (Contains(s, "sq.m") || Contains(s, "sq m")) ==> r == v * 10.764
    ensures !(Contains(s, "sq.m") || Contains(s, "sq m")) && Contains(s, "yard") ==> r == v * 9.0
    ensures !(Contains(s, "sq.m") || Contains(s, "sq m")) && !Contains(s, "yard") ==> r == v
  {
    if Contains(s, "sq.m") || Contains(s, "sq m") then v * 10.764
    else if Contains(s, "yard") then v * 9.0
    else v
  }

  /** A "crore" with a number before it: the price is the number that the pattern
      `([\d.]+)\s*crore` matches leftmost, or 0 when float() refuses it; "lakh" and
      any other number in the text do not matter. */
  lemma PriceCrore(text: string, k: nat, j: nat, e: nat)
    requires NumberBeforeWordSplit(PriceText(text), "crore", k, j, e)
    requires forall i :: 0 <= i < k ==> NumberBeforeWordAt(PriceText(text), "crore", i).None?
    ensures PriceFromText(text) == ParseNumberToken(PriceText(text)[k..j]).GetOr(0.0)
  {
    var s := PriceText(text);
    OccursAtContains(s, e, "crore");
    NumberBeforeWordExact(s, "crore", k, j, e);
    SearchLeftmost(s, i => NumberBeforeWordAt(s, "crore", i), k);
  }

  /** A "crore" with no number before it gives 0, even when the text also has a
      "lakh" amount or other numbers. */
  lemma PriceCroreWithoutNumber(text: string)
    requires Contains(PriceText(text), "crore")
    requires forall i :: 0 <= i < |PriceText(text)| ==> NumberBeforeWordAt(PriceText(text), "crore", i).None?
    ensures PriceFromText(text) == 0.0
  {
    var s := PriceText(text);
    SearchNone(s, i => NumberBeforeWordAt(s, "crore", i));
  }

  /** Without "crore", a "lakh" amount counts in hundredths of a crore. */
  lemma PriceLakh(text: string, k: nat, j: nat, e: nat)
    requires !Contains(PriceText(text), "crore")
    requires NumberBeforeWordSplit(PriceText(text), "lakh", k, j, e)
    requires forall i :: 0 <= i < k ==> NumberBeforeWordAt(PriceText(text), "lakh", i).None?
    ensures PriceFromText(text) == ParseNumberToken(PriceText(text)[k..j]).GetOr(0.0) / 100.0
  {
    var s := PriceText(text);
    OccursAtContains(s, e, "lakh");
    NumberBeforeWordExact(s, "lakh", k, j, e);
    SearchLeftmost(s, i => NumberBeforeWordAt(s, "lakh", i), k);
  }

  /** With neither unit word, the price is the first maximal run of digits and dots,
      read as lakhs (divided by 100) when it exceeds 1000. */
  lemma PricePlain(text: string, k: nat, j: nat)
    requires !Contains(PriceText(text), "crore") && !Contains(PriceText(text), "lakh")
    requires k < j <= |PriceText(text)|
    requires forall i :: 0 <= i < k ==> !IsNumChar(PriceText(text)[i])
    requires forall i :: k <= i < j ==> IsNumChar(PriceText(text)[i])
    requires j < |PriceText(text)| ==> !IsNumChar(PriceText(text)[j])
    ensures PriceFromText(text) ==
      match ParseNumberToken(PriceText(text)[k..j])
      case None => 0.0
      case Some(v) => if v > 1000.0 then v / 100.0 else v
  {
    var s := PriceText(text);
    SpanEndAt(s, k, j, IsNumChar);
    SearchLeftmost(s, i => NumberRunAt(s, i), k);
  }

  /** A positive price needs a digit somewhere in the text. */
  lemma PricePositiveNeedsDigit(text: string)
    requires PriceFromText(text) > 0.0
    ensures exists i :: 0 <= i < |text| && IsDigit(text[i])
  {
    var s := PriceText(text);
    if Contains(s, "crore") {
      FoundTokenDigit(text, (i: nat) => NumberBeforeWordAt(s, "crore", i));
    } else if Contains(s, "lakh") {
      FoundTokenDigit(text, (i: nat) => NumberBeforeWordAt(s, "lakh", i));
    } else {
      FoundTokenDigit(text, (i: nat) => NumberRunAt(s, i));
    }
  }

  /** A token that a search over PriceText(text) finds and float() accepts has a
      digit, and so does text. */
  lemma FoundTokenDigit(text: string, m: nat -> Option<string>)
    requires Search(PriceText(text), m).Some?
    requires forall k :: m(k).Some? ==> OccursAt(PriceText(text), k, m(k).value)
    requires ParseNumberToken(Search(PriceText(text), m).value).Some?
    ensures exists i :: 0 <= i < |text| && IsDigit(text[i])
  {
    var s := PriceText(text);
    SearchFound(s, m);
    var k :| 0 <= k < |s| && m(k) == Search(s, m);
    ParsedTokenDigit(text, m(k).value, k);
  }

  /** A token of PriceText(text) that float() accepts has a digit, and so does text. */
  lemma ParsedTokenDigit(text: string, tok: string, k: nat)
    requires OccursAt(PriceText(text), k, tok) && ParseNumberToken(tok).Some?
    ensures exists i :: 0 <= i < |text| && IsDigit(text[i])
  {
    CountZero(tok, IsDigit);
    var t :| 0 <= t < |tok| && IsDigit(tok[t]);
    assert PriceText(text)[k + t] == tok[t];
    DigitInPriceText(text, k + t);
  }

  /** Every digit of PriceText(text) is a digit of text. */
  lemma DigitInPriceText(text: string, i: nat)
    requires i < |PriceText(text)| && IsDigit(PriceText(text)[i])
    ensures exists j :: 0 <= j < |text| && IsDigit(text[j])
  {
    var c := PriceText(text)[i];
    assert c in Lower(text);
    var j :| 0 <= j < |text| && Lower(text)[j] == c;
  }

  /** The area is v times the unit factor, v being the first maximal run of digits
      and dots in the lower-cased text; square metres take precedence over yards. */
  lemma AreaFirstNumber(text: string, k: nat, j: nat)
    requires k < j <= |text|
    requires forall i :: 0 <= i < k ==> !IsNumChar(Lower(text)[i])
    requires forall i :: k <= i < j ==> IsNumChar(Lower(text)[i])
    requires j < |text| ==> !IsNumChar(Lower(text)[j])
    ensures var s := Lower(text);
      AreaFromText(text) ==
        match ParseNumberToken(s[k..j])
        case None => 0.0
        case Some(v) => InSquareFeet(s, v)
  {
    var s := Lower(text);
    FirstNumberIsRun(s, k, j);
    assert FirstNumber(s) == Some(s[k..j]);
  }

  /** The first number of s is its first maximal run of digits and dots. */
  lemma FirstNumberIsRun(s: string, k: nat, j: nat)
    requires k < j <= |s|
    requires forall i :: 0 <= i < k ==> !IsNumChar(s[i])
    requires forall i :: k <= i < j ==> IsNumChar(s[i])
    requires j < |s| ==> !IsNumChar(s[j])
    ensures FirstNumber(s) == Some(s[k..j])
  {
    SpanEndAt(s, k, j, IsNumChar);
    SearchLeftmost(s, i => NumberRunAt(s, i), k);
  }

  /** Text without a digit or dot has area 0. */
  lemma AreaWithoutNumber(text: string)
    requires forall i :: 0 <= i < |text| ==> !IsNumChar(text[i])
    ensures AreaFromText(text) == 0.0
  {
    var s := Lower(text);
    assert forall i :: 0 <= i < |s| ==> !IsNumChar(s[i]);
    SearchNone(s, i => NumberRunAt(s, i));
  }

  /** The keyword lists the demand scorers share. */
  const PrimeLocations: seq<string> := ["dlf", "cyber city", "golf course", "mg road", "sushant lok"]
  const ConnectivityKeywords: seq<string> := ["metro", "airport", "highway", "expressway"]
  const InvestmentKeywords: seq<string> := ["investment", "rental", "income"]
  const AmenityKeywords: seq<string> := ["hospital", "school", "mall", "bank", "park"]

  /** Python's `any(w in s for w in ws)`. */
  predicate AnyContained(s: string, ws: seq<string>) {
    exists i :: 0 <= i < |ws| && Contains(s, ws[i])
  }

  /** Python's `sum(1 for w in ws if w in s)`. */
  function CountContained(s: string, ws: seq<string>): (n: nat)
    ensures n <= |ws|
    ensures n == 0 <==> !AnyContained(s, ws)
    ensures n == |ws| <==> forall i :: 0 <= i < |ws| ==> Contains(s, ws[i])
    decreases |ws|
  {
    if ws == [] then 0
    else
      var n := CountContained(s, ws[1..]);
      assert forall i :: 1 <= i < |ws| ==> ws[i] == ws[1..][i - 1];
      (if Contains(s, ws[0]) then 1 else 0) + n
  }

  /** re.search(r'sector\s*(\d+[a-z]*)', s).group(1) */
  function SectorNumber(s: string): (r: Option<string>)
    ensures r.Some? ==> Contains(s, "sector")
    ensures r.Some? ==> |r.value| > 0 && IsDigit(r.value[0])
  {
    var m := (k: nat) => SectorAt(s, k);
    var r := Search(s, m);
    if r.Some? then
      SearchFound(s, m);
      var k :| 0 <= k < |s| && m(k) == r;
      OccursAtContains(s, k, "sector");
      r
    else r
  }

  /** re.search(r'phase\s*(\d+)', s).group(1) */
  function PhaseNumber(s: string): (r: Option<string>)
    ensures r.Some? ==> Contains(s, "phase")
    ensures r.Some? ==> |r.value| > 0 && forall i :: 0 <= i < |r.value| ==> IsDigit(r.value[i])
  {
    var m := (k: nat) => PhaseAt(s, k);
    var r := Search(s, m);
    if r.Some? then
      SearchFound(s, m);
      var k :| 0 <= k < |s| && m(k) == r;
      OccursAtContains(s, k, "phase");
      r
    else r
  }

  /** The city of a lower-cased address as both predictors read it: Gurgaon (also
      written Gurugram) before Faridabad before Delhi, else unknown. */
  function CityOf(s: string): (r: string)
    ensures r == "gurgaon" <==> Contains(s, "gurgaon") || Contains(s, "gurugram")
    ensures r == "faridabad" <==> !Contains(s, "gurgaon") && !Contains(s, "gurugram") && Contains(s, "faridabad")
    ensures r == "delhi" <==> (!Contains(s, "gurgaon") && !Contains(s, "gurugram") && !Contains(s, "faridabad")
      && Contains(s, "delhi"))
    ensures r == "unknown" <==> (!Contains(s, "gurgaon") && !Contains(s, "gurugram") && !Contains(s, "faridabad")
      && !Contains(s, "delhi"))
  {
    if Contains(s, "gurgaon") || Contains(s, "gurugram") then "gurgaon"
    else if Contains(s, "faridabad") then "faridabad"
    else if Contains(s, "delhi") then "delhi"
    else "unknown"
  }

  /** f"sector_{x}" for the first sector number x of a lower-cased address, else
      unknown. */
  function SectorLabel(s: string): (r: string)
    ensures SectorNumber(s).Some? ==> r == "sector_" + SectorNumber(s).value
    ensures SectorNumber(s).None? ==> r == "unknown"
  {
    match SectorNumber(s)
    case Some(x) => "sector_" + x
    case None => "unknown"
  }

  /** A sector label is "unknown" exactly when the address names no sector. */
  lemma SectorLabelKnown(s: string)
    ensures SectorLabel(s) == "unknown" <==> SectorNumber(s).None?
  {
    if SectorNumber(s).Some? {
      NotStartsWith(SectorLabel(s), "unknown", 0);
    }
  }
}
