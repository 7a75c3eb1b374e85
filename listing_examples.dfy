/** Typical listing texts for the listing parsers, each proved from the general
    lemmas about them. */
module ListingExamples {
  import opened Wrappers
  import opened Text
  import opened Numbers
  import opened Patterns
  import opened ListingText

  /** "1.5 Crore" is 1.5 crores. */
  lemma PriceOfCroreText(text: string)
    requires text == "1.5 Crore"
    ensures PriceFromText(text) == 1.5
  {
    CroreTextPrepared(text);
    CroreTextFacts(PriceText(text));
    PriceCrore(text, 0, 3, 4);
  }

  lemma CroreTextPrepared(text: string)
    requires text == "1.5 Crore"
    ensures PriceText(text) == "1.5 crore"
  {
    LowerEach(text, "1.5 crore");
    assert ',' !in Lower(text);
  }

  lemma CroreTextFacts(s: string)
    requires s == "1.5 crore"
    ensures NumberBeforeWordSplit(s, "crore", 0, 3, 4)
    ensures ParseNumberToken(s[0..3]) == Some(1.5)
  {
    assert s[4..9] == "crore";
    assert forall i :: 0 <= i < 3 ==> IsNumChar(s[i]);
    assert IsSpace(s[3]);
    OneAndAHalf(s[0..3]);
  }

  lemma OneAndAHalf(tok: string)
    requires tok == "1.5"
    ensures ParseNumberToken(tok) == Some(1.5)
  {
    DecimalToken(tok, 1);
    assert tok[..1] == "1" && tok[2..] == "5";
    assert DecimalValue("1", "5") == 1.5;
  }

  /** "85 Lakh" is 0.85 crores. */
  lemma PriceOfLakhText(text: string)
    requires text == "85 Lakh"
    ensures PriceFromText(text) == 0.85
  {
    LakhTextPrepared(text);
    LakhTextFacts(PriceText(text));
    PriceLakh(text, 0, 2, 3);
  }

  lemma LakhTextPrepared(text: string)
    requires text == "85 Lakh"
    ensures PriceText(text) == "85 lakh"
  {
    LowerEach(text, "85 lakh");
    assert ',' !in Lower(text);
  }

  lemma LakhTextFacts(s: string)
    requires s == "85 lakh"
    ensures !Contains(s, "crore")
    ensures NumberBeforeWordSplit(s, "lakh", 0, 2, 3)
    ensures ParseNumberToken(s[0..2]) == Some(85.0)
  {
    assert 'c' !in s;
    FirstCharAbsent(s, "crore");
    assert s[3..7] == "lakh";
    assert forall i :: 0 <= i < 2 ==> IsNumChar(s[i]);
    assert IsSpace(s[2]);
    EightyFive(s[0..2]);
  }

  lemma EightyFive(tok: string)
    requires tok == "85"
    ensures ParseNumberToken(tok) == Some(85.0)
  {
    IntegerToken(tok);
    assert DigitsValue(tok) == 85;
  }

  /** "120 sq.m" is 120 square metres, 1291.68 square feet. */
  lemma AreaOfSquareMetreText(text: string)
    requires text == "120 sq.m"
    ensures AreaFromText(text) == 1291.68
  {
    LowerEach(text, text);
    SquareMetreRun(Lower(text));
    SquareMetreTextFacts(Lower(text));
    AreaFirstNumber(text, 0, 3);
  }

  lemma SquareMetreRun(s: string)
    requires s == "120 sq.m"
    ensures |s| == 8 && (forall i :: 0 <= i < 3 ==> IsNumChar(s[i])) && !IsNumChar(s[3])
  {
  }

  lemma SquareMetreTextFacts(s: string)
    requires s == "120 sq.m"
    ensures Contains(s, "sq.m")
    ensures ParseNumberToken(s[0..3]) == Some(120.0)
  {
    OneHundredTwenty(s[0..3]);
    OccursAtContains(s, 4, "sq.m");
  }

  lemma OneHundredTwenty(tok: string)
    requires tok == "120"
    ensures ParseNumberToken(tok) == Some(120.0)
  {
    IntegerToken(tok);
    assert DigitsValue("12") == 12;
    assert DigitsValue("120") == 120;
  }

  /** "1,200 sq ft" is read as 1 square foot: the area parser keeps the comma, and
      the first run of digits and dots ends at it. */
  lemma AreaKeepsComma(text: string)
    requires text == "1,200 sq ft"
    ensures AreaFromText(text) == 1.0
  {
    LowerEach(text, text);
    CommaTextWithoutUnits(Lower(text));
    CommaTextNumber(Lower(text));
  }

  lemma CommaTextNumber(s: string)
    requires s == "1,200 sq ft"
    ensures FirstNumber(s) == Some("1")
    ensures ParseNumberToken("1") == Some(1.0)
  {
    assert !IsNumChar(s[1]);
    SpanEndAt(s, 0, 1, IsNumChar);
    assert s[0..1] == "1";
    SearchLeftmost(s, i => NumberRunAt(s, i), 0);
    IntegerToken("1");
  }

  lemma CommaTextWithoutUnits(s: string)
    requires s == "1,200 sq ft"
    ensures !Contains(s, "sq.m") && !Contains(s, "sq m") && !Contains(s, "yard")
  {
    assert 'm' !in s && 'y' !in s;
    if Contains(s, "sq.m") { ContainsChars(s, "sq.m", 3); }
    if Contains(s, "sq m") { ContainsChars(s, "sq m", 3); }
    FirstCharAbsent(s, "yard");
  }
}
