/** python-analysis/real_estate_analysis.py: descriptive statistics over the rows of
    a listing CSV. Prices and areas are parsed row by row, skipping rows whose text
    does not convert, then sorted to report count, minimum, maximum, mean and
    median; a categorical column is reduced to its ten most frequent values. */
module RealEstateAnalysis {
  import opened Wrappers
  import opened Text
  import opened Numbers
  import opened Patterns
  import opened ListingText
  import opened Records
  import opened Seqs
  import opened Sorting
  import opened Grouping

  function Id(x: real): real { x }

  // ------------------------------------------------------- summaries

  datatype Stats = Stats(count: nat, min: real, max: real, mean: real, median: real)

  datatype PriceAnalysis = PriceError(message: string) | PriceSummary(stats: Stats, sample: seq<real>)

  datatype AreaAnalysis = AreaError(message: string) | AreaSummary(stats: Stats)

  /** The middle element of a sorted list of odd length, the mean of the two middle
      elements of one of even length. */
  function Median(s: seq<real>): (m: real)
    requires |s| > 0 && SortedAsc(s)
    ensures s[0] <= m <= s[|s| - 1]
  {
    var n := |s|;
    if n % 2 == 1 then s[n / 2] else (s[n / 2 - 1] + s[n / 2]) / 2.0
  }

  /** The statistics both analyses report over their sorted values. */
  function Summarize(s: seq<real>): (r: Stats)
    requires |s| > 0 && SortedAsc(s)
  {
    Stats(|s|, MinBy(s, Id), MaxBy(s, Id), SumBy(s, Id) / |s| as real, Median(s))
  }

  /** Over sorted values the minimum is the first and the maximum the last, and
      the mean and the median both lie between them. */
  lemma SummarizeFacts(s: seq<real>)
    requires |s| > 0 && SortedAsc(s)
    ensures var r := Summarize(s);
      && r.count == |s|
      && r.min == s[0] && r.max == s[|s| - 1]
      && r.min <= r.median <= r.max
      && r.min <= r.mean <= r.max
  {
    var lo, hi := MinBy(s, Id), MaxBy(s, Id);
    var i :| 0 <= i < |s| && lo == Id(s[i]);
    var j :| 0 <= j < |s| && hi == Id(s[j]);
    assert Id(s[0]) == s[0] && Id(s[|s| - 1]) == s[|s| - 1];
    MeanWithin(s, Id, s[0], s[|s| - 1]);
  }

  // ------------------------------------------------------- prices

  /** The price read from one row: the field (the text "0" when the row lacks it)
      without "Crore" and "crore", stripped and converted by float(); a value below
      100 in the field "price" is taken as crores and converted to rupees. A text
      float() refuses gives nothing. */
  function PriceValue(row: Row, field: string): Option<real> {
    var t := Strip(RemoveWord(RemoveWord(Get(row, field, "0"), "Crore"), "crore"));
    match ParseSignedDecimal(t)
    case None => None
    case Some(v) => Some(if field == "price" && v < 100.0 then v * 10000000.0 else v)
  }

  function PriceReader(field: string): Row -> Option<real> {
    row => PriceValue(row, field)
  }

  /** The prices the loop collects. */
  function Prices(data: seq<Row>, field: string): seq<real> {
    Collect(data, PriceReader(field))
  }

  /** The report on the collected prices: an error when there are none, otherwise
      the statistics of the sorted prices and their first ten. */
  function PriceReport(xs: seq<real>): (r: PriceAnalysis)
    ensures r.PriceError? <==> xs == []
  {
    if xs == [] then PriceError("No valid prices found")
    else
      var s := SortAsc(xs);
      PriceSummary(Summarize(s), PyPrefix(s, 10))
  }

  /** analyze_price_data's result. */
  function PriceAnalysisOf(data: seq<Row>, field: string): PriceAnalysis {
    PriceReport(Prices(data, field))
  }

  /** analyze_price_data: the conversion loop appends each price and continues past
      rows that raise; the prices are then sorted and summarised. */
  method AnalyzePriceData(data: seq<Row>, field: string) returns (r: PriceAnalysis)
    ensures r == PriceAnalysisOf(data, field)
  {
    var prices := CollectPrices(data, field);
    assert PriceAnalysisOf(data, field) == PriceReport(prices);
    if prices == [] {
      return PriceError("No valid prices found");
    }
    prices := SortAsc(prices);
    var n := |prices|;
    var stats := Stats(n, MinBy(prices, Id), MaxBy(prices, Id), SumBy(prices, Id) / n as real, Median(prices));
    r := PriceSummary(stats, prices[..if n < 10 then n else 10]);
  }

  /** The conversion loop of analyze_price_data: it appends each price and
      continues past rows that raise. */
  method CollectPrices(data: seq<Row>, field: string) returns (prices: seq<real>)
    ensures prices == Prices(data, field)
  {
    prices := [];
    for i := 0 to |data|
      invariant prices == Collect(data[..i], PriceReader(field))
    {
      CollectSnoc(data, i, PriceReader(field));
      var v := PriceValue(data[i], field);
      if v.Some? {
        prices := prices + [v.value];
      }
    }
    assert data[..|data|] == data;
  }

  /** The statistics describe exactly the collected prices: the count is their
      number, the minimum and maximum are among them and bound them all, the
      median and mean lie between the two, and the sample is the ten smallest in
      ascending order. */
  lemma PriceReportFacts(xs: seq<real>)
    requires xs != []
    ensures var r := PriceReport(xs);
      && r.PriceSummary?
      && r.stats.count == |xs|
      && (forall i :: 0 <= i < |xs| ==> r.stats.min <= xs[i] <= r.stats.max)
      && r.stats.min in xs && r.stats.max in xs
      && r.stats.min <= r.stats.median <= r.stats.max
      && r.stats.min <= r.stats.mean <= r.stats.max
      && |r.sample| == (if |xs| < 10 then |xs| else 10)
      && SortedAsc(r.sample)
      && (forall i :: 0 <= i < |r.sample| ==> r.sample[i] in xs)
  {
    StatsOfValues(xs);
    SampleOfValues(xs);
  }

  /** The statistics of the sorted values, stated of the values themselves. */
  lemma StatsOfValues(xs: seq<real>)
    requires xs != []
    ensures var r := Summarize(SortAsc(xs));
      && r.count == |xs|
      && (forall i :: 0 <= i < |xs| ==> r.min <= xs[i] <= r.max)
      && r.min in xs && r.max in xs
      && r.min <= r.median <= r.max
      && r.min <= r.mean <= r.max
  {
    SummarizeFacts(SortAsc(xs));
    SortedValuesBound(xs);
  }

  /** The first ten of the sorted values are in ascending order and among the values. */
  lemma SampleOfValues(xs: seq<real>)
    ensures var r := PyPrefix(SortAsc(xs), 10);
      && |r| == (if |xs| < 10 then |xs| else 10)
      && SortedAsc(r)
      && (forall i :: 0 <= i < |r| ==> r[i] in xs)
  {
    var s := SortAsc(xs);
    var r := PyPrefix(s, 10);
    assert r == s[..|r|];
    forall i | 0 <= i < |r|
      ensures r[i] in xs
    {
      assert r[i] == s[i] && s[i] in multiset(s);
    }
    forall i, j | 0 <= i < j < |r|
      ensures r[i] <= r[j]
    {
      assert r[i] == s[i] && r[j] == s[j];
    }
  }

  /** The first and last of the sorted values bound all of them and are among them. */
  lemma SortedValuesBound(xs: seq<real>)
    requires xs != []
    ensures var s := SortAsc(xs);
      && (forall i :: 0 <= i < |xs| ==> s[0] <= xs[i] <= s[|s| - 1])
      && s[0] in xs && s[|s| - 1] in xs
  {
    var s := SortAsc(xs);
    forall i | 0 <= i < |xs|
      ensures s[0] <= xs[i] <= s[|s| - 1]
    {
      assert xs[i] in multiset(s);
      var j :| 0 <= j < |s| && s[j] == xs[i];
      assert SortedAsc(s);
      if 0 < j { assert s[0] <= s[j]; }
      if j < |s| - 1 { assert s[j] <= s[|s| - 1]; }
    }
    assert s[0] in multiset(s) && s[|s| - 1] in multiset(s);
    assert s[0] in multiset(xs) && s[|s| - 1] in multiset(xs);
  }

  /** Every converted price comes from a row, and no price is found exactly when
      every row fails to convert. */
  lemma PricesFromRows(data: seq<Row>, field: string)
    ensures forall j :: 0 <= j < |Prices(data, field)| ==>
      exists i :: 0 <= i < |data| && PriceValue(data[i], field) == Some(Prices(data, field)[j])
    ensures Prices(data, field) == [] <==> forall i :: 0 <= i < |data| ==> PriceValue(data[i], field).None?
  {
    var f, xs := PriceReader(field), Prices(data, field);
    CollectMembers(data, f);
    assert forall i :: 0 <= i < |data| ==> f(data[i]) == PriceValue(data[i], field);
    forall j | 0 <= j < |xs|
      ensures exists i :: 0 <= i < |data| && PriceValue(data[i], field) == Some(xs[j])
    {
      var i :| 0 <= i < |data| && f(data[i]) == Some(xs[j]);
      assert PriceValue(data[i], field) == Some(xs[j]);
    }
  }

  /** "1.5 Crore" in the field "price" is 1.5 crores, converted to rupees. */
  lemma CrorePriceInRupees(row: Row)
    requires "price" in row && row["price"] == "1.5 Crore"
    ensures PriceValue(row, "price") == Some(15000000.0)
  {
    var text := Get(row, "price", "0");
    CroreTextStripped(text);
    OneAndAHalfParses(Strip(RemoveWord(RemoveWord(text, "Crore"), "crore")));
  }

  lemma CroreTextStripped(text: string)
    requires text == "1.5 Crore"
    ensures Strip(RemoveWord(RemoveWord(text, "Crore"), "crore")) == "1.5"
  {
    CroreWordRemoved(text);
    NoLowerCroreWord("1.5 ");
    TrailingSpaceStripped("1.5 ");
  }

  lemma OneAndAHalfParses(t: string)
    requires t == "1.5"
    ensures ParseSignedDecimal(t) == Some(1.5)
  {
    DecimalToken(t, 1);
    assert t[..1] == "1" && t[2..] == "5";
    assert DecimalValue("1", "5") == 1.5;
  }

  lemma CroreWordRemoved(t: string)
    requires t == "1.5 Crore"
    ensures RemoveWord(t, "Crore") == "1.5 "
  {
    assert t == "1.5 " + "Crore";
    assert 'C' !in "1.5 ";
    RemoveTrailingWord("1.5 ", "Crore");
  }

  lemma NoLowerCroreWord(u: string)
    requires u == "1.5 "
    ensures RemoveWord(u, "crore") == u
  {
    if Contains(u, "crore") {
      ContainsChars(u, "crore", 0);
      assert false;
    }
  }

  lemma TrailingSpaceStripped(u: string)
    requires u == "1.5 "
    ensures Strip(u) == "1.5"
  {
    assert TrailingSpace(u) == 1 && LeadingSpace(u) == 0;
  }

  /** A row without the field reads as the text "0", which is the price 0 and is
      counted. */
  lemma MissingPriceIsZero(row: Row, field: string)
    requires field !in row
    ensures PriceValue(row, field) == Some(0.0)
  {
    var t := "0";
    assert !StartsWith(t, "Crore") && !StartsWith(t, "crore");
    assert RemoveWord(t, "Crore") == t;
    assert RemoveWord(t, "crore") == t;
    assert Strip(t) == t;
    assert DotIndex(t) == 1;
    assert DigitsValue(t) == 0;
  }

  // ------------------------------------------------------- areas

  /** The area read from one row: the field (the text "0" when the row lacks it)
      without commas, and its first `\d+\.?\d*` match converted by float(). A row
      without a match gives nothing. */
  function AreaValue(row: Row, field: string): (r: Option<real>)
    ensures r.Some? ==> r.value >= 0.0
    ensures r.None? <==> FirstDecimal(RemoveChar(Get(row, field, "0"), ',')).None?
  {
    var t := RemoveChar(Get(row, field, "0"), ',');
    match FirstDecimal(t)
    case None => None
    case Some(tok) =>
      DecimalTokenParses(t, tok);
      ParseNumberToken(tok)
  }

  /** A `\d+\.?\d*` match always converts: it has a digit and at most one dot. */
  lemma DecimalTokenParses(t: string, tok: string)
    requires FirstDecimal(t) == Some(tok)
    ensures ParseNumberToken(tok).Some?
  {
    var m := (k: nat) => DecimalAt(t, k);
    SearchFound(t, m);
    var k :| 0 <= k < |t| && m(k) == Some(tok);
    assert IsDigit(tok[0]);
    CountAtLeastOne(tok);
    AtMostOneDot(tok);
  }

  lemma CountAtLeastOne(tok: string)
    requires |tok| > 0 && IsDigit(tok[0])
    ensures Count(tok, IsDigit) >= 1
  {
    assert tok == [tok[0]] + tok[1..];
    CountAppend([tok[0]], tok[1..], IsDigit);
  }

  function AreaReader(field: string): Row -> Option<real> {
    row => AreaValue(row, field)
  }

  function Areas(data: seq<Row>, field: string): seq<real> {
    Collect(data, AreaReader(field))
  }

  /** The report on the collected areas: an error when there are none, otherwise
      the statistics of the sorted areas. */
  function AreaReport(xs: seq<real>): (r: AreaAnalysis)
    ensures r.AreaError? <==> xs == []
  {
    if xs == [] then AreaError("No valid areas found") else AreaSummary(Summarize(SortAsc(xs)))
  }

  /** analyze_area_data's result. */
  function AreaAnalysisOf(data: seq<Row>, field: string): AreaAnalysis {
    AreaReport(Areas(data, field))
  }

  /** analyze_area_data: the loop appends the first number of each row and skips
      rows without one; the areas are then sorted and summarised. */
  method AnalyzeAreaData(data: seq<Row>, field: string) returns (r: AreaAnalysis)
    ensures r == AreaAnalysisOf(data, field)
  {
    var areas: seq<real> := [];
    for i := 0 to |data|
      invariant areas == Collect(data[..i], AreaReader(field))
    {
      CollectSnoc(data, i, AreaReader(field));
      var v := AreaValue(data[i], field);
      if v.Some? {
        areas := areas + [v.value];
      }
    }
    assert data[..|data|] == data;
    assert areas == Areas(data, field);
    if areas == [] {
      return AreaError("No valid areas found");
    }
    areas := SortAsc(areas);
    var n := |areas|;
    r := AreaSummary(Stats(n, MinBy(areas, Id), MaxBy(areas, Id), SumBy(areas, Id) / n as real, Median(areas)));
  }

  /** The area statistics describe exactly the collected areas: the count is
      their number, the minimum and maximum bound them all, and the median and mean
      lie between the two. */
  lemma AreaReportFacts(xs: seq<real>)
    requires xs != []
    ensures var r := AreaReport(xs);
      && r.AreaSummary?
      && r.stats.count == |xs|
      && (forall i :: 0 <= i < |xs| ==> r.stats.min <= xs[i] <= r.stats.max)
      && r.stats.min in xs && r.stats.max in xs
      && r.stats.min <= r.stats.median <= r.stats.max
      && r.stats.min <= r.stats.mean <= r.stats.max
  {
    StatsOfValues(xs);
  }

  /** Every area read comes from a row and is not negative; a row is skipped only
      when its text, without commas, has no number. */
  lemma AreasFromRows(data: seq<Row>, field: string)
    ensures forall j :: 0 <= j < |Areas(data, field)| ==>
      exists i :: 0 <= i < |data| && AreaValue(data[i], field) == Some(Areas(data, field)[j])
    ensures Areas(data, field) == [] <==> forall i :: 0 <= i < |data| ==>
      FirstDecimal(RemoveChar(Get(data[i], field, "0"), ',')).None?
  {
    var f, xs := AreaReader(field), Areas(data, field);
    CollectMembers(data, f);
    assert forall i :: 0 <= i < |data| ==> f(data[i]) == AreaValue(data[i], field);
    forall j | 0 <= j < |xs|
      ensures exists i :: 0 <= i < |data| && AreaValue(data[i], field) == Some(xs[j])
    {
      var i :| 0 <= i < |data| && f(data[i]) == Some(xs[j]);
      assert AreaValue(data[i], field) == Some(xs[j]);
    }
  }

  // ------------------------------------------------------- categories

  datatype CategoryCount = CategoryCount(value: string, count: nat)

  function CountKey(c: CategoryCount): real { c.count as real }

  /** The value one row contributes: the field (the text "Unknown" when the row
      lacks it), stripped, unless the field is empty. A field of only whitespace
      passes the emptiness test and is counted as "". */
  function CategoryValue(row: Row, field: string): (r: Option<string>)
    ensures r.None? <==> field in row && row[field] == ""
    ensures field !in row ==> r == Some("Unknown")
    ensures field in row && row[field] != "" && (forall i :: 0 <= i < |row[field]| ==> IsSpace(row[field][i]))
      ==> r == Some("")
  {
    var v := Get(row, field, "Unknown");
    if v != "" then Some(Strip(v)) else None
  }

  function CategoryReader(field: string): Row -> Option<string> {
    row => CategoryValue(row, field)
  }

  function CategoryValues(data: seq<Row>, field: string): seq<string> {
    Collect(data, CategoryReader(field))
  }

  /** The count of each distinct value, in order of first appearance: the items of
      the counts dict. */
  function CategoryCounts(data: seq<Row>, field: string): seq<CategoryCount> {
    var vs := CategoryValues(data, field);
    AllGroups(Keys(vs, Itself), vs, Itself, (k: string, ms: seq<string>) => CategoryCount(k, |ms|))
  }

  /** analyze_categorical_data's result: the items sorted by count, highest first,
      cut to ten. */
  function TopCategories(data: seq<Row>, field: string): (r: seq<CategoryCount>)
    ensures |r| <= 10
  {
    PyPrefix(SortDesc(CategoryCounts(data, field), CountKey), 10)
  }

  /** The counting loop of analyze_categorical_data and the items of its dict. */
  method CountCategories(data: seq<Row>, field: string) returns (items: seq<CategoryCount>)
    ensures items == CategoryCounts(data, field)
  {
    var counts, keys := CountValues(data, CategoryReader(field));
    ghost var vs := CategoryValues(data, field);
    items := AllGroupsFromFold<string, nat, CategoryCount>(counts, keys, vs, Itself, (ms: seq<string>) => |ms|,
      (k: string, c: nat) => CategoryCount(k, c), (k: string, ms: seq<string>) => CategoryCount(k, |ms|));
  }

  /** analyze_categorical_data: the counts, then the top ten of the sorted items. */
  method AnalyzeCategoricalData(data: seq<Row>, field: string) returns (top: seq<CategoryCount>)
    ensures top == TopCategories(data, field)
  {
    var items := CountCategories(data, field);
    var sorted := SortDesc(items, CountKey);
    top := sorted[..if |sorted| < 10 then |sorted| else 10];
  }

  function CountOf(c: CategoryCount): int { c.count }

  function ValueOf(c: CategoryCount): string { c.value }

  /** One item per distinct value, in order of first appearance, holding the
      number of rows that contribute that value. */
  lemma CategoryCountsAt(data: seq<Row>, field: string)
    ensures var vs, items := CategoryValues(data, field), CategoryCounts(data, field);
      && |items| == |Keys(vs, Itself)|
      && (forall i :: 0 <= i < |items| ==> items[i] == CategoryCount(Keys(vs, Itself)[i], |Members(vs, Itself, Keys(vs, Itself)[i])|))
      && SumInt(items, CountOf) == |vs|
  {
    var vs := CategoryValues(data, field);
    var build := (k: string, ms: seq<string>) => CategoryCount(k, |ms|);
    KeysHaveMembers(vs, Itself);
    AllGroupsAt(Keys(vs, Itself), vs, Itself, build);
    AllGroupsCount(Keys(vs, Itself), vs, Itself, build, CountOf);
    GroupSizesTotal(vs, Itself);
  }

  /** The result has at most ten entries, distinct values, and counts that do not
      increase; together they count at most one per row. */
  lemma TopCategoriesShape(data: seq<Row>, field: string)
    ensures var r := TopCategories(data, field);
      && |r| <= 10
      && SortedDesc(r, CountKey)
      && (forall i, j :: 0 <= i < j < |r| ==> r[i].value != r[j].value)
      && SumInt(r, CountOf) <= |data|
  {
    var items := CategoryCounts(data, field);
    CategoryCountsAt(data, field);
    TopSorted(items, CountKey, ValueOf, CountOf, 10);
  }

  /** Each entry counts the rows whose stripped value it is, and at least one. */
  lemma TopCategoriesCounted(data: seq<Row>, field: string, i: nat)
    requires i < |TopCategories(data, field)|
    ensures var c, vs := TopCategories(data, field)[i], CategoryValues(data, field);
      c.count == |Members(vs, Itself, c.value)| >= 1
  {
    var vs, items := CategoryValues(data, field), CategoryCounts(data, field);
    CategoryCountsAt(data, field);
    KeysHaveMembers(vs, Itself);
    SortDescMembers(items, CountKey);
    var c := TopCategories(data, field)[i];
    assert c == SortDesc(items, CountKey)[i];
    var j :| 0 <= j < |items| && items[j] == c;
  }

  /** Ties keep the order of first appearance: the result is the start of a list
      whose entries of any one count are in the order of the counts dict. */
  lemma TopCategoriesTies(data: seq<Row>, field: string, v: real)
    ensures var items := CategoryCounts(data, field);
      && TopCategories(data, field) == SortDesc(items, CountKey)[..|TopCategories(data, field)|]
      && Filter(SortDesc(items, CountKey), KeyIs(CountKey, v)) == Filter(items, KeyIs(CountKey, v))
  {
    SortDescStable(CategoryCounts(data, field), CountKey, v);
  }
}
