/** backend/housing_demand_predictor.py: the feature extractors the model-based
    predictor applies to each listing (address features, price, area, counts and the
    property age), and the post-processing of predict_demand_hotspots, which ranks a
    given list of model predictions and keeps the best one per city and area. */
module HousingDemandPredictor {
  import opened Wrappers
  import opened Text
  import opened Numbers
  import opened Patterns
  import opened ListingText
  import opened Seqs
  import opened Sorting
  import opened Grouping

  // ------------------------------------------------------- location features

  datatype LocationFeatures = LocationFeatures(area: string, sector: string, phase: string, city: string, isPrime: nat)

  const UnknownFeatures: LocationFeatures := LocationFeatures("unknown", "unknown", "unknown", "unknown", 0)

  /** The prime locations this predictor looks for, in its own order. */
  const PrimeAreas: seq<string> := ["dlf", "sushant lok", "cyber city", "golf course", "mg road"]

  /** "phase_" and the digits of the first `phase\s*(\d+)` match, or "unknown". */
  function PhaseLabel(s: string): (r: string)
    ensures PhaseNumber(s).Some? ==> r == "phase_" + PhaseNumber(s).value
    ensures PhaseNumber(s).None? ==> r == "unknown"
  {
    match PhaseNumber(s)
    case Some(n) => "phase_" + n
    case None => "unknown"
  }

  /** extract_location_features. A missing (NaN) or empty address is unknown
      throughout and not prime. Otherwise, on the lower-cased address, the area is
      the sector label and nothing else, the phase is read on its own, and the
      address is prime exactly when one of the five prime names occurs in it. */
  function ExtractLocationFeatures(address: Option<string>): (r: LocationFeatures)
    ensures address.None? || address == Some("") ==> r == UnknownFeatures
    ensures r.area == r.sector
    ensures r.isPrime <= 1
    ensures address.Some? && address.value != "" ==>
      var s := Lower(address.value);
      && r.sector == SectorLabel(s)
      && r.phase == PhaseLabel(s)
      && r.city == CityOf(s)
      && (r.isPrime == 1 <==> exists w :: w in PrimeAreas && Contains(s, w))
  {
    match address
    case None => UnknownFeatures
    case Some(t) =>
      if t == "" then UnknownFeatures
      else
        var s := Lower(t);
        var sector := SectorLabel(s);
        var prime := AnyContained(s, PrimeAreas);
        assert prime <==> exists w :: w in PrimeAreas && Contains(s, w);
        LocationFeatures(sector, sector, PhaseLabel(s), CityOf(s), if prime then 1 else 0)
  }

  /** The five prime names are the ones the other scorers use, listed in another
      order, so both decide primeness alike. */
  lemma PrimeAreasAgree(s: string)
    ensures AnyContained(s, PrimeAreas) <==> AnyContained(s, PrimeLocations)
  {
    var ps, ls := PrimeAreas, PrimeLocations;
    assert ps[0] == ls[0] && ps[1] == ls[4] && ps[2] == ls[1] && ps[3] == ls[2] && ps[4] == ls[3];
    if AnyContained(s, ps) {
      var i :| 0 <= i < |ps| && Contains(s, ps[i]);
      var j := [0, 4, 1, 2, 3][i];
      assert Contains(s, ls[j]);
    }
    if AnyContained(s, ls) {
      var j :| 0 <= j < |ls| && Contains(s, ls[j]);
      var i := [0, 2, 3, 4, 1][j];
      assert Contains(s, ps[i]);
    }
  }

  // ------------------------------------------------------- listing text

  /** _extract_price: a missing (NaN) cell is 0; any text, the empty one included,
      is read by PriceFromText. */
  function ExtractPrice(text: Option<string>): (r: real)
    ensures r >= 0.0
    ensures text.None? || text == Some("") ==> r == 0.0
  {
    match text
    case None => 0.0
    case Some(t) =>
      assert t == "" ==> FirstNumber(PriceText(t)) == None;
      PriceFromText(t)
  }

  /** _extract_area: a missing (NaN) cell is 0; any text is read by AreaFromText. */
  function ExtractArea(text: Option<string>): (r: real)
    ensures r >= 0.0
    ensures text.None? || text == Some("") ==> r == 0.0
  {
    match text
    case None => 0.0
    case Some(t) =>
      assert t == "" ==> FirstNumber(Lower(t)) == None;
      AreaFromText(t)
  }

  /** A cell of the listing table: missing (NaN), a number, or text. */
  datatype Cell = Missing | Num(number: real) | Str(text: string)

  /** _extract_numeric: a missing cell is 0, a number is truncated toward zero as
      int() does, and text gives the value of its first run of digits, or 0 when it
      has none. */
  function ExtractNumeric(v: Cell): (r: int)
    ensures v.Missing? ==> r == 0
    ensures v.Num? && v.number >= 0.0 ==> 0 <= r && r as real <= v.number < r as real + 1.0
    ensures v.Num? && v.number < 0.0 ==> r <= 0 && r as real - 1.0 < v.number <= r as real
    ensures v.Str? ==> r >= 0
  {
    match v
    case Missing => 0
    case Num(x) => Trunc(x)
    case Str(t) =>
      match FirstDigits(t)
      case None => 0
      case Some(ds) => DigitsValue(ds)
  }

  /** Text is read at its first digit, and the whole run of digits starting there
      makes the number. */
  lemma NumericFirstRun(t: string, k: nat)
    requires k < |t| && IsDigit(t[k])
    requires forall j :: 0 <= j < k ==> !IsDigit(t[j])
    ensures ExtractNumeric(Str(t)) == DigitsValue(t[k..SpanEnd(t, k, IsDigit)])
  {
    SearchLeftmost(t, i => DigitRunAt(t, i), k);
  }

  /** Text without a digit reads as 0. */
  lemma NumericNoDigits(t: string)
    requires forall j :: 0 <= j < |t| ==> !IsDigit(t[j])
    ensures ExtractNumeric(Str(t)) == 0
  {
    SearchNone(t, i => DigitRunAt(t, i));
  }

  /** "3+" bedrooms count as 3. */
  lemma NumericPlusSuffix()
    ensures ExtractNumeric(Str("3+")) == 3
  {
    var t := "3+";
    assert SpanEnd(t, 0, IsDigit) == 1;
    NumericFirstRun(t, 0);
    assert t[0..1] == "3";
  }

  // ------------------------------------------------------- property age

  /** _encode_age as written. A missing cell is 5 years. Otherwise the first
      keyword found in the lower-cased text decides: "new" or "under construction"
      0, "0 to 1" or "within 6 months" 1, "1 to 5" 3, "5 to 10" 7, "10 to 15" 12,
      "more than 15" 20; anything else 5. */
  function EncodeAgeAsWritten(age: Option<string>): (r: nat)
    ensures age.None? ==> r == 5
    ensures r in {0, 1, 3, 5, 7, 12, 20}
  {
    match age
    case None => 5
    case Some(t) =>
      var s := Lower(t);
      if Contains(s, "new") || Contains(s, "under construction") then 0
      else if Contains(s, "0 to 1") || Contains(s, "within 6 months") then 1
      else if Contains(s, "1 to 5") then 3
      else if Contains(s, "5 to 10") then 7
      else if Contains(s, "10 to 15") then 12
      else if Contains(s, "more than 15") then 20
      else 5
  }

  lemma ZeroToOneInTenToFifteen()
    ensures Contains("10 to 15", "0 to 1")
  {
    OccursAtContains("10 to 15", 1, "0 to 1");
  }

  /** As written, "0 to 1" is tested first and occurs inside "10 to 15", so an age
      of 10 to 15 years reads as 1. */
  lemma AgeTenToFifteenReadsAsOne(t: string)
    requires Contains(Lower(t), "10 to 15")
    requires !Contains(Lower(t), "new") && !Contains(Lower(t), "under construction")
    ensures EncodeAgeAsWritten(Some(t)) == 1
  {
    ZeroToOneInTenToFifteen();
    ContainsTransitive(Lower(t), "10 to 15", "0 to 1");
  }

  /** As written, no text is encoded as 12 years. */
  lemma AgeTwelveUnreachable(age: Option<string>)
    ensures EncodeAgeAsWritten(age) != 12
  {
    if age.Some? && Contains(Lower(age.value), "10 to 15") {
      ZeroToOneInTenToFifteen();
      ContainsTransitive(Lower(age.value), "10 to 15", "0 to 1");
    }
  }

  /** The evidently intended encoder: "10 to 15" is tested before the shorter
      "0 to 1" that it contains. */
  function EncodeAgeIntended(age: Option<string>): (r: nat)
    ensures age.None? ==> r == 5
    ensures r in {0, 1, 3, 5, 7, 12, 20}
  {
    match age
    case None => 5
    case Some(t) =>
      var s := Lower(t);
      if Contains(s, "new") || Contains(s, "under construction") then 0
      else if Contains(s, "10 to 15") then 12
      else if Contains(s, "0 to 1") || Contains(s, "within 6 months") then 1
      else if Contains(s, "1 to 5") then 3
      else if Contains(s, "5 to 10") then 7
      else if Contains(s, "more than 15") then 20
      else 5
  }

  /** The intended encoder gives 10 to 15 years its own code, and agrees with the
      code as written on every text that does not mention "10 to 15". */
  lemma AgeIntendedFixesTenToFifteen(age: Option<string>)
    ensures age.Some? && Contains(Lower(age.value), "10 to 15")
      && !Contains(Lower(age.value), "new") && !Contains(Lower(age.value), "under construction")
      ==> EncodeAgeIntended(age) == 12
    ensures (age.None? || !Contains(Lower(age.value), "10 to 15")) ==> EncodeAgeIntended(age) == EncodeAgeAsWritten(age)
  {
  }

  /** The text "10 to 15" is already lower case and mentions neither "new" nor
      "under construction". */
  lemma TenToFifteenPlain(t: string)
    requires t == "10 to 15"
    ensures Lower(t) == t
    ensures !Contains(t, "new") && !Contains(t, "under construction")
  {
    LowerEach(t, t);
    FirstCharAbsent(t, "new");
    FirstCharAbsent(t, "under construction");
  }

  /** A concrete age text on which the two encoders differ. */
  lemma AgeCounterexample()
    ensures EncodeAgeAsWritten(Some("10 to 15")) == 1
    ensures EncodeAgeIntended(Some("10 to 15")) == 12
  {
    var t := "10 to 15";
    TenToFifteenPlain(t);
    OccursAtContains(t, 0, "10 to 15");
    AgeTenToFifteenReadsAsOne(t);
    AgeIntendedFixesTenToFifteen(Some(t));
  }

  // ------------------------------------------------------- hotspot ranking

  /** One row of predict_demand_hotspots' input: the listing's features and the
      demand the trained model predicted for it. */
  datatype Prediction = Prediction(area: string, city: string, sector: string, address: string,
    predictedDemand: real, priceCrore: real, areaSqft: real, isPrime: int)

  /** One result entry; the price and area are kept as numbers, not as the
      formatted "₹x Cr" and "x sq ft" strings. */
  datatype Hotspot = Hotspot(area: string, city: string, sector: string, address: string,
    predictedDemand: real, priceCrore: real, avgArea: real, connectivityScore: nat, investmentPotential: string)

  const PotentialBands: seq<real> := [50.0, 70.0]
  const PotentialLabels: seq<string> := ["Low", "Medium", "High"]

  /** investment_potential: High above 70, Medium above 50, Low otherwise; the
      label is the rung of the strict ladder 50 < 70 that the demand passes. */
  function InvestmentPotential(demand: real): (r: string)
    ensures r == PotentialLabels[Exceeded(demand, PotentialBands)]
  {
    if demand > 70.0 then "High" else if demand > 50.0 then "Medium" else "Low"
  }

  /** A higher predicted demand never gets a lower potential. */
  lemma PotentialMonotone(d1: real, d2: real)
    requires d1 <= d2
    ensures Exceeded(d1, PotentialBands) <= Exceeded(d2, PotentialBands)
    ensures InvestmentPotential(d1) == "High" ==> InvestmentPotential(d2) == "High"
  {
    ExceededMonotone(d1, d2, PotentialBands);
  }

  /** The result entry built for one prediction. */
  function ToHotspot(p: Prediction): Hotspot {
    Hotspot(p.area, p.city, p.sector, p.address, p.predictedDemand, p.priceCrore, p.areaSqft,
      if p.isPrime != 0 then 1 else 0, InvestmentPotential(p.predictedDemand))
  }

  function HotspotDemand(h: Hotspot): real { h.predictedDemand }

  /** The deduplication key f"{city}_{area}". */
  function AreaKey(h: Hotspot): string { h.city + "_" + h.area }

  /** The result entries sorted by predicted demand, highest first; equal demands
      keep their input order. */
  function RankedHotspots(preds: seq<Prediction>): (r: seq<Hotspot>)
    ensures |r| == |preds|
    ensures SortedDesc(r, HotspotDemand)
  {
    SortDesc(MapSeq(preds, ToHotspot), HotspotDemand)
  }

  /** What predict_demand_hotspots returns: the first entry per key of the ranked
      list, at most top_k of them (one when top_k is below 1). */
  function TopHotspots(preds: seq<Prediction>, topK: int): (r: seq<Hotspot>)
    ensures |r| <= KeepLimit(topK)
  {
    FirstPerKeyUpTo(RankedHotspots(preds), AreaKey, topK)
  }

  /** The post-processing of predict_demand_hotspots: build the entries, sort
      them by predicted demand, then keep the first entry per key up to top_k. */
  method PredictDemandHotspots(preds: seq<Prediction>, topK: int) returns (unique: seq<Hotspot>)
    ensures unique == TopHotspots(preds, topK)
  {
    var results: seq<Hotspot> := [];
    for i := 0 to |preds|
      invariant results == MapSeq(preds[..i], ToHotspot)
    {
      MapSeqSnoc(preds, i, ToHotspot);
      results := results + [ToHotspot(preds[i])];
    }
    assert preds[..|preds|] == preds;
    results := SortDesc(results, HotspotDemand);
    unique := TakeFirstPerKey(results, AreaKey, topK);
  }

  /** The kept entries are predictions' entries in ranked order: their keys are
      distinct, there are at most top_k of them (one when top_k is below 1), and
      their predicted demands do not increase. */
  lemma TopHotspotsRanked(preds: seq<Prediction>, topK: int)
    ensures var r := TopHotspots(preds, topK);
      && |r| <= KeepLimit(topK)
      && (forall i, j :: 0 <= i < j < |r| ==> AreaKey(r[i]) != AreaKey(r[j]))
      && SortedDesc(r, HotspotDemand)
      && IsSubsequence(r, RankedHotspots(preds))
  {
    var s := RankedHotspots(preds);
    var u := FirstPerKey(s, AreaKey, {});
    var r := TopHotspots(preds, topK);
    FirstPerKeySubsequence(s, AreaKey, {});
    PrefixIsSubsequence(u, |r|);
    SubsequenceTransitive(r, u, s);
    SubsequenceSorted(r, s, HotspotDemand);
  }

  /** Every kept entry is the entry of some prediction. */
  lemma TopHotspotsFromInput(preds: seq<Prediction>, topK: int, i: nat)
    requires i < |TopHotspots(preds, topK)|
    ensures exists j :: 0 <= j < |preds| && TopHotspots(preds, topK)[i] == ToHotspot(preds[j])
  {
    var s := RankedHotspots(preds);
    var m := MapSeq(preds, ToHotspot);
    assert forall j :: 0 <= j < |m| ==> m[j] == ToHotspot(preds[j]);
    var t := TopHotspots(preds, topK);
    var u := FirstPerKey(s, AreaKey, {});
    assert t[i] == u[i];
    FirstPerKeyIsFirst(s, AreaKey, {}, i);
    var k :| 0 <= k < |s| && s[k] == u[i];
    assert s == SortDesc(m, HotspotDemand);
    SortDescMembers(m, HotspotDemand);
    assert s[k] in m;
    var j :| 0 <= j < |m| && m[j] == s[k];
  }

  /** The entry kept for a city and area has the highest predicted demand of all
      the predictions for that city and area. */
  lemma TopHotspotsBestOfArea(preds: seq<Prediction>, topK: int, i: nat, j: nat)
    requires i < |TopHotspots(preds, topK)| && j < |preds|
    requires AreaKey(ToHotspot(preds[j])) == AreaKey(TopHotspots(preds, topK)[i])
    ensures preds[j].predictedDemand <= TopHotspots(preds, topK)[i].predictedDemand
  {
    var s := RankedHotspots(preds);
    var m := MapSeq(preds, ToHotspot);
    SortDescMembers(m, HotspotDemand);
    assert m[j] == ToHotspot(preds[j]);
    var b :| 0 <= b < |s| && s[b] == m[j];
    FirstPerKeyBest(s, AreaKey, HotspotDemand, i, b);
  }

  /** When fewer than top_k entries are kept, every city and area of the input
      has its entry among them. */
  lemma TopHotspotsAllAreas(preds: seq<Prediction>, topK: int, j: nat)
    requires |TopHotspots(preds, topK)| < KeepLimit(topK) && j < |preds|
    ensures exists i :: (0 <= i < |TopHotspots(preds, topK)|
      && AreaKey(TopHotspots(preds, topK)[i]) == AreaKey(ToHotspot(preds[j])))
  {
    var s := RankedHotspots(preds);
    var m := MapSeq(preds, ToHotspot);
    assert m[j] == ToHotspot(preds[j]);
    var u := FirstPerKey(s, AreaKey, {});
    assert TopHotspots(preds, topK) == u;
    assert s == SortDesc(m, HotspotDemand);
    SortDescMembers(m, HotspotDemand);
    var b :| 0 <= b < |s| && s[b] == m[j];
    FirstPerKeyComplete(s, AreaKey, {}, b);
  }

  // ------------------------------------------------------- recommendation

  const AdviceBands: seq<real> := [40.0, 60.0, 80.0]
  const HotspotAdvice: seq<string> := [
    "LOW PRIORITY: Consider other locations first",
    "MONITOR: Moderate demand - evaluate market conditions",
    "RECOMMENDED: Strong demand potential - plan development within 6 months",
    "PRIORITY: High demand area - immediate development recommended"
  ]

  /** _generate_recommendation: the strict ladder 40 < 60 < 80 on the predicted
      demand picks one of four messages. */
  function GenerateRecommendation(demand: real): (r: string)
    ensures r == HotspotAdvice[Exceeded(demand, AdviceBands)]
  {
    if demand > 80.0 then HotspotAdvice[3]
    else if demand > 60.0 then HotspotAdvice[2]
    else if demand > 40.0 then HotspotAdvice[1]
    else HotspotAdvice[0]
  }

  /** A higher predicted demand never gets a less urgent message. */
  lemma RecommendationMonotone(d1: real, d2: real)
    requires d1 <= d2
    ensures Exceeded(d1, AdviceBands) <= Exceeded(d2, AdviceBands)
  {
    ExceededMonotone(d1, d2, AdviceBands);
  }
}
