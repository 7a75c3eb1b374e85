/** backend/simple_demand_predictor.py: the statistical predictor. It reads both
    listing datasets into processed records (price, area, location, five demand
    factors), aggregates them per location, ranks the locations by a weighted demand
    score and labels the top ones; it also ranks cities and assigns priorities. */
module SimpleDemandPredictor {
  import opened Wrappers
  import opened Text
  import opened Numbers
  import opened ListingText
  import opened Records
  import opened Seqs
  import opened Sorting
  import opened Grouping

  // ---------------------------------------------------------------- parsers

  /** extract_price: an empty text is 0, any other text is read by PriceFromText. */
  function ExtractPrice(text: string): (r: real)
    ensures r >= 0.0
    ensures text == "" ==> r == 0.0
  {
    if text == "" then 0.0 else PriceFromText(text)
  }

  /** extract_area: an empty text is 0, any other text is read by AreaFromText. */
  function ExtractArea(text: string): (r: real)
    ensures r >= 0.0
    ensures text == "" ==> r == 0.0
  {
    if text == "" then 0.0 else AreaFromText(text)
  }

  // ------------------------------------------------------- location labels

  datatype LocationInfo = LocationInfo(area: string, city: string, sector: string)

  /** The area of a lower-cased address: a DLF address is its phase, or plain "dlf"
      when no phase is written; else Sushant Lok; else the sector label. */
  function AreaOf(s: string): string {
    if Contains(s, "dlf") then
      match PhaseNumber(s)
      case Some(n) => "dlf_phase_" + n
      case None => "dlf"
    else if Contains(s, "sushant lok") then "sushant_lok"
    else SectorLabel(s)
  }

  /** extract_location_info: an empty address is unknown on all three counts. */
  function ExtractLocationInfo(address: string): (r: LocationInfo)
    ensures address == "" ==> r == LocationInfo("unknown", "unknown", "unknown")
  {
    if address == "" then LocationInfo("unknown", "unknown", "unknown")
    else
      var s := Lower(address);
      LocationInfo(AreaOf(s), CityOf(s), SectorLabel(s))
  }

  /** Without DLF or Sushant Lok the area is the sector, and both are unknown exactly
      when the address names no sector. */
  lemma LocationAreaIsSector(address: string)
    requires address != ""
    requires !Contains(Lower(address), "dlf") && !Contains(Lower(address), "sushant lok")
    ensures ExtractLocationInfo(address).area == ExtractLocationInfo(address).sector
    ensures ExtractLocationInfo(address).area == "unknown" <==> SectorNumber(Lower(address)).None?
  {
    SectorLabelKnown(Lower(address));
  }

  /** A DLF address is labelled by its phase, or plain "dlf" exactly when it has no
      phase; the sector is still reported on its own. */
  lemma LocationAreaDlf(address: string)
    requires address != "" && Contains(Lower(address), "dlf")
    ensures var r := ExtractLocationInfo(address);
      (r.area == "dlf" <==> PhaseNumber(Lower(address)).None?)
      && (PhaseNumber(Lower(address)).Some? ==> r.area == "dlf_phase_" + PhaseNumber(Lower(address)).value)
      && r.sector == SectorLabel(Lower(address))
  {
    var r := ExtractLocationInfo(address);
    if PhaseNumber(Lower(address)).Some? {
      assert |r.area| > 3;
    }
  }

  /** Otherwise Sushant Lok wins over any sector. */
  lemma LocationAreaSushantLok(address: string)
    requires address != "" && !Contains(Lower(address), "dlf") && Contains(Lower(address), "sushant lok")
    ensures ExtractLocationInfo(address).area == "sushant_lok"
  {
  }

  // ---------------------------------------------------------- demand factors

  datatype Factors = Factors(priceAccessibility: real, locationDesirability: real,
    connectivity: real, investmentPotential: real, amenities: real)

  predicate InUnitRange(f: Factors) {
    0.0 <= f.priceAccessibility <= 1.0 && 0.0 <= f.locationDesirability <= 1.0
    && 0.0 <= f.connectivity <= 1.0 && 0.0 <= f.investmentPotential <= 1.0
    && 0.0 <= f.amenities <= 1.0
  }

  /** The least values the factors of a priced listing take: price accessibility
      0.3, location desirability 0.5, investment potential 0.3. */
  predicate HasFloors(f: Factors) {
    0.3 <= f.priceAccessibility && 0.5 <= f.locationDesirability && 0.3 <= f.investmentPotential
  }

  /** Price accessibility: 1.0, 0.8, 0.6 or 0.3 across the bands up to 3, 5 and 10
      crore and above; 0 for no price. */
  function PriceAccessibility(price: real): (r: real)
    ensures 0.0 <= r <= 1.0
    ensures price > 0.0 ==> 0.3 <= r
  {
    if price <= 0.0 then 0.0
    else if price <= 3.0 then 1.0
    else if price <= 5.0 then 0.8
    else if price <= 10.0 then 0.6
    else 0.3
  }

  /** Accessibility never grows with the price, and a priced listing scores at
      least 0.3. */
  lemma PriceAccessibilityInverse(p: real, q: real)
    requires 0.0 < p <= q
    ensures 0.3 <= PriceAccessibility(q) <= PriceAccessibility(p) <= 1.0
  {
  }

  /** Location desirability of a lower-cased address. */
  function LocationDesirability(s: string): (r: real)
    ensures 0.5 <= r <= 1.0
  {
    if AnyContained(s, PrimeLocations) then 1.0
    else if Contains(s, "gurgaon") then 0.7
    else 0.5
  }

  /** The five factors calculate_demand_factors derives from a processed record. */
  function DemandFactors(price: real, address: string, nearby: string, description: string): (f: Factors)
    ensures InUnitRange(f)
    ensures price > 0.0 ==> HasFloors(f)
    ensures f.connectivity == CountContained(Lower(nearby), ConnectivityKeywords) as real / 4.0
    ensures f.amenities == CountContained(Lower(nearby), AmenityKeywords) as real / 5.0
  {
    var n := Lower(nearby);
    var c, a := CountContained(n, ConnectivityKeywords), CountContained(n, AmenityKeywords);
    assert c <= 4 && a <= 5;
    Factors(PriceAccessibility(price), LocationDesirability(Lower(address)),
      Min(c as real / 4.0, 1.0),
      if AnyContained(Lower(description), InvestmentKeywords) then 1.0 else 0.3,
      Min(a as real / 5.0, 1.0))
  }

  /** calculate_demand_factors: starts from all zero and fills in each factor. */
  method CalculateDemandFactors(price: real, address: string, nearby: string, description: string)
    returns (factors: Factors)
    ensures factors == DemandFactors(price, address, nearby, description)
  {
    factors := Factors(0.0, 0.0, 0.0, 0.0, 0.0);
    if price > 0.0 {
      if price <= 3.0 {
        factors := factors.(priceAccessibility := 1.0);
      } else if price <= 5.0 {
        factors := factors.(priceAccessibility := 0.8);
      } else if price <= 10.0 {
        factors := factors.(priceAccessibility := 0.6);
      } else {
        factors := factors.(priceAccessibility := 0.3);
      }
    }
    var addressLower := Lower(address);
    if AnyContained(addressLower, PrimeLocations) {
      factors := factors.(locationDesirability := 1.0);
    } else if Contains(addressLower, "gurgaon") {
      factors := factors.(locationDesirability := 0.7);
    } else {
      factors := factors.(locationDesirability := 0.5);
    }
    var nearbyLower := Lower(nearby);
    var connectivityCount := CountContained(nearbyLower, ConnectivityKeywords);
    factors := factors.(connectivity := Min(connectivityCount as real / 4.0, 1.0));
    if AnyContained(Lower(description), InvestmentKeywords) {
      factors := factors.(investmentPotential := 1.0);
    } else {
      factors := factors.(investmentPotential := 0.3);
    }
    var amenityCount := CountContained(nearbyLower, AmenityKeywords);
    factors := factors.(amenities := Min(amenityCount as real / 5.0, 1.0));
  }

  // -------------------------------------------------------- processed records

  datatype Processed = Processed(
    propertyName: string, address: string, priceText: string, bedRoom: string,
    bathroom: string, area: string, nearbyLocations: string, description: string,
    datasetSource: string, priceNumeric: real, areaSqft: real, city: string,
    sector: string, factors: Factors)

  /** The filter of process_data: the parsed price and area are both positive. */
  predicate Valid(row: Row) {
    ExtractPrice(Get(row, "price", "")) > 0.0 && ExtractArea(Get(row, "area", "")) > 0.0
  }

  /** The record process_data builds from a row. The location info overwrites the
      row's area text, so `area` holds the location label. */
  function Process(row: Row, source: string): Processed {
    var address := Get(row, "address", "");
    var loc := ExtractLocationInfo(address);
    var price := ExtractPrice(Get(row, "price", ""));
    Processed(Get(row, "property_name", ""), address, Get(row, "price", ""),
      Get(row, "bedRoom", ""), Get(row, "bathroom", ""), loc.area,
      Get(row, "nearbyLocations", ""), Get(row, "description", ""), source, price,
      ExtractArea(Get(row, "area", "")), loc.city, loc.sector,
      DemandFactors(price, address, Get(row, "nearbyLocations", ""), Get(row, "description", "")))
  }

  /** One dataset's records: its valid rows in order, each turned into its record.
      The position n a record lands on plays no part in it. */
  function ProcessedDataset(rows: seq<Row>, source: string, start: nat): seq<Processed> {
    MapKept(rows, start, Valid, (row: Row, n: nat) => Process(row, source))
  }

  /** process_data: the valid rows of the houses dataset, then those of the cleaned
      one. */
  function ProcessedData(houses: seq<Row>, cleaned: seq<Row>): seq<Processed> {
    var h := ProcessedDataset(houses, "houses", 0);
    h + ProcessedDataset(cleaned, "cleaned", |h|)
  }

  /** The imperative process_data: one loop per dataset appending each valid record. */
  method ProcessData(houses: seq<Row>, cleaned: seq<Row>) returns (all: seq<Processed>)
    ensures all == ProcessedData(houses, cleaned)
  {
    all := AppendKept([], houses, Valid, (row: Row, n: nat) => Process(row, "houses"));
    all := AppendKept(all, cleaned, Valid, (row: Row, n: nat) => Process(row, "cleaned"));
  }

  /** What a record keeps of a valid row. */
  lemma ProcessFacts(row: Row, source: string)
    requires Valid(row)
    ensures WellFormed(Process(row, source), source)
  {
  }

  /** The facts every processed record of a dataset satisfies. */
  predicate WellFormed(p: Processed, source: string) {
    p.priceNumeric > 0.0 && p.areaSqft > 0.0 && p.datasetSource == source
    && InUnitRange(p.factors) && HasFloors(p.factors)
  }

  /** A dataset's records are its valid rows' records, in order. */
  lemma ProcessedDatasetOrder(rows: seq<Row>, source: string, start: nat)
    ensures |ProcessedDataset(rows, source, start)| == |Filter(rows, Valid)|
    ensures forall i :: 0 <= i < |Filter(rows, Valid)| ==>
      ProcessedDataset(rows, source, start)[i] == Process(Filter(rows, Valid)[i], source)
  {
    MapKeptAt(rows, start, Valid, (row: Row, n: nat) => Process(row, source));
  }

  /** Every record of a dataset has a positive price and area, its dataset's tag
      and factors in [0, 1]. */
  lemma ProcessedDatasetWellFormed(rows: seq<Row>, source: string, start: nat)
    ensures forall i :: 0 <= i < |ProcessedDataset(rows, source, start)| ==>
      WellFormed(ProcessedDataset(rows, source, start)[i], source)
  {
    var build := (row: Row, n: nat) => Process(row, source);
    var prop := (p: Processed, n: nat) => WellFormed(p, source);
    forall row: Row, n: nat | Valid(row)
      ensures prop(build(row, n), n)
    {
      ProcessFacts(row, source);
    }
    MapKeptAll(rows, start, Valid, build, prop);
  }

  /** process_data keeps exactly the rows with a positive price and area, in input
      order with the houses first. */
  lemma ProcessedDataOrder(houses: seq<Row>, cleaned: seq<Row>)
    ensures var r := ProcessedData(houses, cleaned);
      var h, c := Filter(houses, Valid), Filter(cleaned, Valid);
      |r| == |h| + |c|
      && (forall i :: 0 <= i < |h| ==> r[i] == Process(h[i], "houses"))
      && (forall i :: 0 <= i < |c| ==> r[|h| + i] == Process(c[i], "cleaned"))
  {
    var h := ProcessedDataset(houses, "houses", 0);
    ProcessedDatasetOrder(houses, "houses", 0);
    ProcessedDatasetOrder(cleaned, "cleaned", |h|);
    var r := ProcessedData(houses, cleaned);
    assert forall i :: 0 <= i < |h| ==> r[i] == h[i];
  }

  /** Every record of process_data is well formed and tagged with its dataset. */
  lemma ProcessedDataWellFormed(houses: seq<Row>, cleaned: seq<Row>)
    ensures var r := ProcessedData(houses, cleaned);
      var nh := |ProcessedDataset(houses, "houses", 0)|;
      forall i :: 0 <= i < |r| ==> WellFormed(r[i], if i < nh then "houses" else "cleaned")
  {
    var h := ProcessedDataset(houses, "houses", 0);
    ProcessedDatasetWellFormed(houses, "houses", 0);
    ProcessedDatasetWellFormed(cleaned, "cleaned", |h|);
    var r := ProcessedData(houses, cleaned);
    assert forall i :: 0 <= i < |h| ==> r[i] == h[i];
  }

  // ------------------------------------------------------- location trends

  /** The grouping key f"{city}_{area}". */
  function LocationKey(p: Processed): string { p.city + "_" + p.area }

  function PriceNum(p: Processed): real { p.priceNumeric }
  function AreaNum(p: Processed): real { p.areaSqft }
  function PriceAccessibilityOf(p: Processed): real { p.factors.priceAccessibility }
  function LocationDesirabilityOf(p: Processed): real { p.factors.locationDesirability }
  function ConnectivityOf(p: Processed): real { p.factors.connectivity }
  function InvestmentPotentialOf(p: Processed): real { p.factors.investmentPotential }
  function AmenitiesOf(p: Processed): real { p.factors.amenities }

  /** The running totals of one location in analyze_location_trends. */
  datatype LocStats = LocStats(properties: seq<Processed>, count: nat, totalPrice: real,
    totalArea: real, areaName: string, cityName: string, factorTotals: Factors)

  /** The totals after the records ms of one location have been added. */
  function StatsOf(ms: seq<Processed>): LocStats {
    LocStats(ms, |ms|, SumBy(ms, PriceNum), SumBy(ms, AreaNum),
      if ms == [] then "" else ms[|ms| - 1].area, if ms == [] then "" else ms[|ms| - 1].city,
      Factors(SumBy(ms, PriceAccessibilityOf), SumBy(ms, LocationDesirabilityOf),
        SumBy(ms, ConnectivityOf), SumBy(ms, InvestmentPotentialOf), SumBy(ms, AmenitiesOf)))
  }

  /** One iteration of the first loop on a location's entry: count, price, area and
      every factor are added, the names overwritten and the record appended. */
  function AddToStats(st: LocStats, p: Processed): LocStats {
    var t, f := st.factorTotals, p.factors;
    LocStats(st.properties + [p], st.count + 1, st.totalPrice + p.priceNumeric,
      st.totalArea + p.areaSqft, p.area, p.city,
      Factors(t.priceAccessibility + f.priceAccessibility,
        t.locationDesirability + f.locationDesirability, t.connectivity + f.connectivity,
        t.investmentPotential + f.investmentPotential, t.amenities + f.amenities))
  }

  /** Adding one record to a location's totals gives the totals of the longer list. */
  lemma StatsSnoc(ms: seq<Processed>, p: Processed)
    ensures StatsOf(ms + [p]) == AddToStats(StatsOf(ms), p)
  {
    assert (ms + [p])[..|ms|] == ms;
  }

  /** A location's analysis. */
  datatype Trend = Trend(location: string, areaName: string, cityName: string,
    propertyCount: nat, avgPrice: real, avgArea: real, demandScore: real,
    pricePerSqft: real, sample: seq<Processed>)

  /** The weighted demand score before the cap: the factor averages with weights 25,
      20, 20, 20 and 15, plus up to 10 for the number of records (full at 20). */
  function WeightedScore(avg: Factors, count: nat): real {
    avg.priceAccessibility * 25.0 + avg.locationDesirability * 20.0 + avg.connectivity * 20.0
    + avg.investmentPotential * 20.0 + avg.amenities * 15.0
    + Min(count as real / 20.0, 1.0) * 10.0
  }

  /** The analysis the second loop writes for a location from its totals. */
  function TrendFromStats(key: string, st: LocStats): Trend
    requires st.count > 0
  {
    var n := st.count as real;
    var avgPrice, avgArea := st.totalPrice / n, st.totalArea / n;
    var t := st.factorTotals;
    var avg := Factors(t.priceAccessibility / n, t.locationDesirability / n, t.connectivity / n,
      t.investmentPotential / n, t.amenities / n);
    Trend(key, st.areaName, st.cityName, st.count, avgPrice, avgArea,
      Min(WeightedScore(avg, st.count), 100.0),
      if avgArea > 0.0 then (avgPrice * 10000000.0) / avgArea else 0.0,
      PyPrefix(st.properties, 3))
  }

  /** The analysis of a location with records ms. */
  function TrendOf(key: string, ms: seq<Processed>): Trend
    requires |ms| >= 1
  {
    TrendFromStats(key, StatsOf(ms))
  }

  /** analyze_location_trends: one analysis per location with at least two records,
      in order of the locations' first appearance. */
  function LocationTrends(props: seq<Processed>): seq<Trend> {
    BigGroups(Keys(props, LocationKey), props, LocationKey, TrendOf)
  }

  /** The first loop of analyze_location_trends. */
  method CollectLocationStats(props: seq<Processed>) returns (stats: map<string, LocStats>, keys: seq<string>)
    ensures keys == Keys(props, LocationKey)
    ensures forall k :: k in stats <==> k in keys
    ensures forall k :: k in stats ==> stats[k] == StatsOf(Members(props, LocationKey, k))
  {
    forall ms: seq<Processed>, p: Processed
      ensures StatsOf(ms + [p]) == AddToStats(StatsOf(ms), p)
    {
      StatsSnoc(ms, p);
    }
    stats, keys := GroupFold(props, LocationKey, StatsOf, AddToStats);
  }

  /** analyze_location_trends: the totals per location, then an analysis for every
      location counted at least twice. */
  method AnalyzeLocationTrends(props: seq<Processed>) returns (trends: seq<Trend>)
    ensures trends == LocationTrends(props)
  {
    var stats, keys := CollectLocationStats(props);
    trends := TrendsFromStats(props, stats, keys);
  }

  /** The second loop of analyze_location_trends: an analysis, from its totals, for
      every location counted at least twice, in the order of the keys. */
  method TrendsFromStats(props: seq<Processed>, stats: map<string, LocStats>, keys: seq<string>)
    returns (trends: seq<Trend>)
    requires forall k :: k in stats <==> k in keys
    requires forall k :: k in stats ==> stats[k] == StatsOf(Members(props, LocationKey, k))
    ensures trends == BigGroups(keys, props, LocationKey, TrendOf)
  {
    trends := [];
    for j := 0 to |keys|
      invariant trends == BigGroups(keys[..j], props, LocationKey, TrendOf)
    {
      var key := keys[j];
      TrendStep(props, stats, keys, j);
      var st := stats[key];
      if st.count >= 2 {
        trends := trends + [TrendFromStats(key, st)];
      }
    }
    assert keys[..|keys|] == keys;
  }

  /** One step of the second loop: the location's totals decide whether it gets an
      analysis, and that analysis is the one its records give. */
  lemma TrendStep(props: seq<Processed>, stats: map<string, LocStats>, keys: seq<string>, j: nat)
    requires j < |keys|
    requires forall k :: k in stats <==> k in keys
    requires forall k :: k in stats ==> stats[k] == StatsOf(Members(props, LocationKey, k))
    ensures keys[j] in stats
    ensures var st := stats[keys[j]];
      BigGroups(keys[..j + 1], props, LocationKey, TrendOf) == BigGroups(keys[..j], props, LocationKey, TrendOf)
        + (if st.count >= 2 then [TrendFromStats(keys[j], st)] else [])
  {
    var key := keys[j];
    BigGroupsSnoc(keys, j, props, LocationKey, TrendOf);
    var ms := Members(props, LocationKey, key);
    assert key in keys;
    var st := stats[key];
    assert st == StatsOf(ms) && st.count == |ms|;
  }

  /** The per-record facts the score bounds rest on. */
  predicate FactorsOk(p: Processed) {
    InUnitRange(p.factors) && HasFloors(p.factors)
  }

  /** With factors in range, a location's score lies in [24.5, 100]: at least 0.3,
      0.5 and 0.3 from the floors of three factors and 1 from the bonus for two
      records, and at most the cap. Its price per square foot is not negative when
      prices and areas are not. */
  lemma TrendScoreBounds(key: string, ms: seq<Processed>)
    requires |ms| >= 2
    requires forall i :: 0 <= i < |ms| ==> Scorable(ms[i])
    ensures 24.5 <= TrendOf(key, ms).demandScore <= 100.0
    ensures TrendOf(key, ms).pricePerSqft >= 0.0
  {
    MeanWithin(ms, PriceAccessibilityOf, 0.3, 1.0);
    MeanWithin(ms, LocationDesirabilityOf, 0.5, 1.0);
    MeanWithin(ms, ConnectivityOf, 0.0, 1.0);
    MeanWithin(ms, InvestmentPotentialOf, 0.3, 1.0);
    MeanWithin(ms, AmenitiesOf, 0.0, 1.0);
    MeanWithin(ms, PriceNum, 0.0, MaxBy(ms, PriceNum));
    MeanWithin(ms, AreaNum, 0.0, MaxBy(ms, AreaNum));
  }

  /** A location's analysis counts all its records, carries the location's own city
      and area (the key is "city_area"), and samples its first three records. */
  lemma TrendOfGroup(props: seq<Processed>, key: string)
    requires |Members(props, LocationKey, key)| >= 1
    ensures var ms := Members(props, LocationKey, key);
      var t := TrendOf(key, ms);
      t.location == key && t.propertyCount == |ms|
      && t.cityName + "_" + t.areaName == key
      && |t.sample| == (if |ms| < 3 then |ms| else 3) && t.sample == ms[..|t.sample|]
  {
  }

  /** The locations analysed are exactly those with at least two records, each
      appears once, and each analysis is that of all the location's records. */
  lemma LocationTrendsCover(props: seq<Processed>, i: nat)
    requires i < |LocationTrends(props)|
    ensures var t := LocationTrends(props)[i];
      |Members(props, LocationKey, t.location)| >= 2
      && t == TrendOf(t.location, Members(props, LocationKey, t.location))
  {
    var ks := Keys(props, LocationKey);
    BigGroupsSound(ks, props, LocationKey, TrendOf, i);
  }

  /** Every location with at least two records is analysed. */
  lemma LocationTrendsComplete(props: seq<Processed>, key: string)
    requires |Members(props, LocationKey, key)| >= 2
    ensures exists i :: (0 <= i < |LocationTrends(props)|
      && LocationTrends(props)[i] == TrendOf(key, Members(props, LocationKey, key)))
  {
    BigGroupsOfKeys(props, LocationKey, TrendOf, key);
    var u := LocationTrends(props);
    var i :| 0 <= i < |u| && u[i] == TrendOf(key, Members(props, LocationKey, key));
  }

  /** No location is analysed twice. */
  lemma LocationTrendsDistinct(props: seq<Processed>)
    ensures forall i, j :: 0 <= i < j < |LocationTrends(props)| ==>
      LocationTrends(props)[i].location != LocationTrends(props)[j].location
  {
    BigGroupsDistinct(Keys(props, LocationKey), props, LocationKey, TrendOf, (t: Trend) => t.location);
  }

  /** A record of process_data satisfies what the score bounds rest on. */
  predicate Scorable(p: Processed) {
    FactorsOk(p) && p.priceNumeric > 0.0 && p.areaSqft > 0.0
  }

  /** Over the output of process_data, every location's score lies in [24.5, 100]. */
  lemma PipelineScores(houses: seq<Row>, cleaned: seq<Row>, i: nat)
    requires i < |LocationTrends(ProcessedData(houses, cleaned))|
    ensures 24.5 <= LocationTrends(ProcessedData(houses, cleaned))[i].demandScore <= 100.0
  {
    var props := ProcessedData(houses, cleaned);
    ProcessedDataWellFormed(houses, cleaned);
    assert forall j :: 0 <= j < |props| ==> Scorable(props[j]);
    LocationTrendsCover(props, i);
    var t := LocationTrends(props)[i];
    MembersSatisfy(props, LocationKey, t.location, Scorable);
    TrendScoreBounds(t.location, Members(props, LocationKey, t.location));
  }

  // ---------------------------------------------------------------- labels

  /** The score bands of _categorize_investment and _generate_recommendation. */
  const ScoreBands: seq<real> := [35.0, 50.0, 65.0, 80.0]
  const Grades: seq<string> := ["Poor", "Fair", "Good", "Very Good", "Excellent"]
  const Advice: seq<string> := [
    "AVOID: Low demand indicators - consider alternative locations",
    "LOW PRIORITY: Monitor market trends before major investment",
    "MODERATE PRIORITY: Good potential - evaluate detailed feasibility",
    "HIGH PRIORITY: Strong demand indicators - plan development within 6 months",
    "IMMEDIATE ACTION: High-priority area for affordable housing development"]

  /** _categorize_investment: the grade of the highest band the score reaches. */
  function CategorizeInvestment(demand: real): (r: string)
    ensures r == Grades[Reached(demand, ScoreBands)]
  {
    if demand >= 80.0 then "Excellent"
    else if demand >= 65.0 then "Very Good"
    else if demand >= 50.0 then "Good"
    else if demand >= 35.0 then "Fair"
    else "Poor"
  }

  /** _generate_recommendation: the advice of the highest band the score reaches;
      the number of records plays no part. */
  function Recommendation(demand: real, propertyCount: nat): (r: string)
    ensures r == Advice[Reached(demand, ScoreBands)]
  {
    if demand >= 80.0 then Advice[4]
    else if demand >= 65.0 then Advice[3]
    else if demand >= 50.0 then Advice[2]
    else if demand >= 35.0 then Advice[1]
    else Advice[0]
  }

  /** The position of a grade in Grades. */
  function GradeRank(g: string): nat {
    if g == "Excellent" then 4 else if g == "Very Good" then 3 else if g == "Good" then 2
    else if g == "Fair" then 1 else 0
  }

  /** A higher score never gets a lower grade. */
  lemma GradeMonotone(d: real, e: real)
    requires d <= e
    ensures GradeRank(CategorizeInvestment(d)) <= GradeRank(CategorizeInvestment(e))
  {
    ReachedMonotone(d, e, ScoreBands);
  }

  /** Grade and advice follow the same bands: two scores get the same advice exactly
      when they get the same grade. */
  lemma AdviceFollowsGrade(d: real, e: real, m: nat, n: nat)
    ensures Recommendation(d, m) == Recommendation(e, n) <==> CategorizeInvestment(d) == CategorizeInvestment(e)
  {
    var i, j := Reached(d, ScoreBands), Reached(e, ScoreBands);
    if i != j {
      assert Grades[i] != Grades[j];
      assert Advice[i][..4] != Advice[j][..4] || Advice[i] != Advice[j];
    }
  }

  // ------------------------------------------------------ demand hotspots

  /** A hotspot of predict_demand_hotspots; the money and area strings are kept as
      the numbers they format. */
  datatype SimpleHotspot = SimpleHotspot(locationId: string, area: string, city: string,
    demandScore: real, propertyCount: nat, avgPrice: real, avgArea: real,
    pricePerSqft: real, investmentPotential: string, recommendation: string)

  function TrendDemand(t: Trend): real { t.demandScore }
  function SpotDemand(h: SimpleHotspot): real { h.demandScore }

  /** The hotspot of one analysed location: its score rounded to one decimal, its
      grade and advice from the score before rounding. */
  function SpotOf(t: Trend): SimpleHotspot {
    SimpleHotspot(t.location, t.areaName, t.cityName, Round1(t.demandScore), t.propertyCount,
      t.avgPrice, t.avgArea, t.pricePerSqft, CategorizeInvestment(t.demandScore),
      Recommendation(t.demandScore, t.propertyCount))
  }

  /** predict_demand_hotspots: the locations sorted by score, highest first and ties
      in their original order, cut to the first topK as a Python slice does. */
  function DemandHotspots(trends: seq<Trend>, topK: int): seq<SimpleHotspot> {
    MapSeq(PyPrefix(SortDesc(trends, TrendDemand), topK), SpotOf)
  }

  /** The imperative predict_demand_hotspots: sort, then one hotspot per location of
      the slice. */
  method PredictDemandHotspots(trends: seq<Trend>, topK: int) returns (hotspots: seq<SimpleHotspot>)
    ensures hotspots == DemandHotspots(trends, topK)
  {
    var top := PyPrefix(SortDesc(trends, TrendDemand), topK);
    hotspots := [];
    for i := 0 to |top|
      invariant hotspots == MapSeq(top[..i], SpotOf)
    {
      MapSeqSnoc(top, i, SpotOf);
      hotspots := hotspots + [SpotOf(top[i])];
    }
    assert top[..|top|] == top;
  }

  /** As many hotspots as the slice allows, highest score first, the i-th being the
      i-th location in score order and graded by that location's exact score, and
      none scoring below a location the slice left out. */
  lemma DemandHotspotsRanked(trends: seq<Trend>, topK: int)
    ensures var r, sorted := DemandHotspots(trends, topK), SortDesc(trends, TrendDemand);
      |r| == PyStop(topK, |trends|)
      && SortedDesc(r, SpotDemand)
      && (forall i :: 0 <= i < |r| ==>
            r[i].locationId == sorted[i].location
            && r[i].investmentPotential == CategorizeInvestment(sorted[i].demandScore))
      && (forall i, j :: 0 <= i < |r| && |r| <= j < |trends| ==>
            Round1(sorted[j].demandScore) <= r[i].demandScore)
  {
    var sorted := SortDesc(trends, TrendDemand);
    var top := PyPrefix(sorted, topK);
    var r := DemandHotspots(trends, topK);
    assert |r| == |top| && top == sorted[..|top|];
    forall i | 0 <= i < |r|
      ensures r[i] == SpotOf(sorted[i])
    {
      assert r[i] == SpotOf(top[i]) && top[i] == sorted[i];
    }
    forall i, j | 0 <= i < j < |r|
      ensures SpotDemand(r[i]) >= SpotDemand(r[j])
    {
      assert TrendDemand(sorted[i]) >= TrendDemand(sorted[j]);
      Round1Monotone(sorted[j].demandScore, sorted[i].demandScore);
    }
    forall i, j | 0 <= i < |r| <= j < |trends|
      ensures Round1(sorted[j].demandScore) <= r[i].demandScore
    {
      assert TrendDemand(sorted[i]) >= TrendDemand(sorted[j]);
      Round1Monotone(sorted[j].demandScore, sorted[i].demandScore);
    }
  }

  /** Every hotspot is that of one of the locations. */
  lemma DemandHotspotsChosen(trends: seq<Trend>, topK: int)
    ensures var r := DemandHotspots(trends, topK);
      forall i :: 0 <= i < |r| ==> exists j :: 0 <= j < |trends| && r[i] == SpotOf(trends[j])
  {
    var sorted := SortDesc(trends, TrendDemand);
    var r := DemandHotspots(trends, topK);
    SortDescMembers(trends, TrendDemand);
    forall i | 0 <= i < |r|
      ensures exists j :: 0 <= j < |trends| && r[i] == SpotOf(trends[j])
    {
      assert sorted[i] in trends;
      var j :| 0 <= j < |trends| && trends[j] == sorted[i];
    }
  }

  /** The first hotspot's score is the highest score of all locations, rounded. */
  lemma TopHotspotIsBest(trends: seq<Trend>, topK: int, j: nat)
    requires |DemandHotspots(trends, topK)| > 0 && j < |trends|
    ensures Round1(trends[j].demandScore) <= DemandHotspots(trends, topK)[0].demandScore
  {
    SortDescMembers(trends, TrendDemand);
    var sorted := SortDesc(trends, TrendDemand);
    var k :| 0 <= k < |sorted| && sorted[k] == trends[j];
    Round1Monotone(trends[j].demandScore, sorted[0].demandScore);
  }

  /** A location scoring 79.96 is shown as 80.0 and still graded "Very Good", as
      the grade is taken from the score before rounding. */
  lemma GradeBeforeRounding(t: Trend)
    requires t.demandScore == 79.96
    ensures SpotOf(t).demandScore == 80.0 && SpotOf(t).investmentPotential == "Very Good"
  {
    assert 799.0 < t.demandScore * 10.0 < 800.0;
    assert (t.demandScore * 10.0).Floor == 799;
  }

  /** Distinct locations give hotspots with distinct ids. */
  lemma DemandHotspotsDistinct(trends: seq<Trend>, topK: int)
    requires forall i, j :: 0 <= i < j < |trends| ==> trends[i].location != trends[j].location
    ensures var r := DemandHotspots(trends, topK);
      forall i, j :: 0 <= i < j < |r| ==> r[i].locationId != r[j].locationId
  {
    SortDescDistinct(trends, TrendDemand, (t: Trend) => t.location);
  }

  // --------------------------------------------------------------- priorities

  const PriorityBands: seq<real> := [65.0, 80.0, 95.0]
  const Priorities: seq<string> := ["LOW", "MEDIUM", "HIGH", "CRITICAL"]

  /** _assign_priority: the band the score plus the growth rate in percent reaches. */
  function AssignPriority(demand: real, growthRate: real): (r: string)
    ensures r == Priorities[Reached(demand + growthRate * 100.0, PriorityBands)]
  {
    var combined := demand + growthRate * 100.0;
    if combined >= 95.0 then "CRITICAL"
    else if combined >= 80.0 then "HIGH"
    else if combined >= 65.0 then "MEDIUM"
    else "LOW"
  }

  function PriorityRank(p: string): nat {
    if p == "CRITICAL" then 3 else if p == "HIGH" then 2 else if p == "MEDIUM" then 1 else 0
  }

  /** A higher score or a faster-growing city never lowers the priority. */
  lemma PriorityMonotone(d: real, e: real, g: real, h: real)
    requires d <= e && g <= h
    ensures PriorityRank(AssignPriority(d, g)) <= PriorityRank(AssignPriority(e, h))
  {
    ReachedMonotone(d + g * 100.0, e + h * 100.0, PriorityBands);
  }

  /** With 15% growth, as generate_2year_forecast assumes for Gurgaon, a score of
      80 is already critical; with 8% it takes 87. */
  lemma PriorityExamples(d: real)
    ensures d >= 80.0 ==> AssignPriority(d, 0.15) == "CRITICAL"
    ensures d < 87.0 ==> AssignPriority(d, 0.08) != "CRITICAL"
  {
  }

  // ------------------------------------------------------------ city figures

  function SpotCity(h: SimpleHotspot): string { h.city }
  function SpotArea(h: SimpleHotspot): string { h.area }

  /** A city's entry in _rank_cities. */
  datatype CityRanking = CityRanking(city: string, avgDemand: real, hotspotCount: nat,
    topAreas: seq<string>)

  function RankDemand(c: CityRanking): real { c.avgDemand }
  function RankCount(c: CityRanking): int { c.hotspotCount }

  /** The running totals of one city: total demand, count and areas in order. */
  datatype CityStats = CityStats(totalDemand: real, count: nat, areas: seq<string>)

  function CityStatsOf(ms: seq<SimpleHotspot>): CityStats {
    CityStats(SumBy(ms, SpotDemand), |ms|, MapSeq(ms, SpotArea))
  }

  function AddSpot(st: CityStats, h: SimpleHotspot): CityStats {
    CityStats(st.totalDemand + h.demandScore, st.count + 1, st.areas + [h.area])
  }

  lemma CityStatsSnoc(ms: seq<SimpleHotspot>, h: SimpleHotspot)
    ensures CityStatsOf(ms + [h]) == AddSpot(CityStatsOf(ms), h)
  {
    assert (ms + [h])[..|ms|] == ms;
  }

  /** The entry the second loop writes for a city from its totals. */
  function RankingFromStats(city: string, st: CityStats): CityRanking
    requires st.count > 0
  {
    CityRanking(Title(city), Round1(st.totalDemand / st.count as real), st.count, PyPrefix(st.areas, 3))
  }

  /** The entry of a city whose hotspots are ms. */
  function RankingOf(city: string, ms: seq<SimpleHotspot>): CityRanking
    requires |ms| >= 1
  {
    RankingFromStats(city, CityStatsOf(ms))
  }

  /** The entries of the cities of hotspots, in order of first appearance. */
  function CityEntries(hotspots: seq<SimpleHotspot>): (r: seq<CityRanking>)
    ensures var ks := Keys(hotspots, SpotCity);
      |r| == |ks| && forall i :: 0 <= i < |ks| ==>
        |Members(hotspots, SpotCity, ks[i])| >= 1 && r[i] == RankingOf(ks[i], Members(hotspots, SpotCity, ks[i]))
  {
    KeysHaveMembers(hotspots, SpotCity);
    AllGroupsAt(Keys(hotspots, SpotCity), hotspots, SpotCity, RankingOf);
    AllGroups(Keys(hotspots, SpotCity), hotspots, SpotCity, RankingOf)
  }

  /** _rank_cities: the entries sorted by their average demand, rounded to one
      decimal as stored, highest first; cities whose averages round alike keep their
      order of appearance. */
  function RankCities(hotspots: seq<SimpleHotspot>): seq<CityRanking> {
    SortDesc(CityEntries(hotspots), RankDemand)
  }

  /** The first loop of _rank_cities: the totals per city. */
  method CollectCityStats(hotspots: seq<SimpleHotspot>) returns (stats: map<string, CityStats>, keys: seq<string>)
    ensures keys == Keys(hotspots, SpotCity)
    ensures forall k :: k in stats <==> k in keys
    ensures forall k :: k in stats ==> stats[k] == CityStatsOf(Members(hotspots, SpotCity, k))
  {
    forall ms: seq<SimpleHotspot>, h: SimpleHotspot
      ensures CityStatsOf(ms + [h]) == AddSpot(CityStatsOf(ms), h)
    {
      CityStatsSnoc(ms, h);
    }
    stats, keys := GroupFold(hotspots, SpotCity, CityStatsOf, AddSpot);
  }

  /** The imperative _rank_cities: totals per city, one entry per city, sorted. */
  method RankCitiesLoop(hotspots: seq<SimpleHotspot>) returns (rankings: seq<CityRanking>)
    ensures rankings == RankCities(hotspots)
  {
    var stats, keys := CollectCityStats(hotspots);
    var entries := AllGroupsFromFold(stats, keys, hotspots, SpotCity, CityStatsOf, RankingFromStats, RankingOf);
    rankings := SortDesc(entries, RankDemand);
  }

  /** One entry per city, highest average first; the counts add up to the number of
      hotspots; each entry is the average of its city's hotspots. */
  lemma RankCitiesFacts(hotspots: seq<SimpleHotspot>)
    ensures var r := RankCities(hotspots);
      |r| == |Keys(hotspots, SpotCity)|
      && SortedDesc(r, RankDemand)
      && SumInt(r, RankCount) == |hotspots|
  {
    var ks := Keys(hotspots, SpotCity);
    AllGroupsCount(ks, hotspots, SpotCity, RankingOf, RankCount);
    GroupSizesTotal(hotspots, SpotCity);
    SortDescSum(CityEntries(hotspots), RankDemand, RankCount);
  }

  /** A city's entry is its title-cased name, the rounded mean of its hotspots'
      scores (between the lowest and the highest of them, rounded), their number and
      its first three areas. */
  lemma RankingFigures(city: string, ms: seq<SimpleHotspot>)
    requires |ms| >= 1
    ensures var e := RankingOf(city, ms);
      e.city == Title(city) && e.hotspotCount == |ms|
      && Round1(MinBy(ms, SpotDemand)) <= e.avgDemand <= Round1(MaxBy(ms, SpotDemand))
      && |e.topAreas| == (if |ms| < 3 then |ms| else 3)
      && (forall j :: 0 <= j < |e.topAreas| ==> e.topAreas[j] == ms[j].area)
  {
    var mean := SumBy(ms, SpotDemand) / |ms| as real;
    MeanBetweenMinMax(ms, SpotDemand);
    Round1Monotone(MinBy(ms, SpotDemand), mean);
    Round1Monotone(mean, MaxBy(ms, SpotDemand));
  }

  const GeneralAdvice: seq<string> := [
    "Prioritize areas near metro stations and major highways",
    "Target affordable housing segment (\U{20B9}2-5 Cr range) for maximum demand",
    "Monitor government policy changes affecting real estate",
    "Consider properties with existing investment interest",
    "Plan phased development based on quarterly demand forecasts"]

  const GurgaonAdvice := "Focus on Gurgaon - highest growth potential and infrastructure development"
  const FaridabadAdvice := "Consider Faridabad for affordable housing projects with good connectivity"

  /** Some hotspot lies in the city. */
  predicate HasCity(hotspots: seq<SimpleHotspot>, city: string) {
    exists i :: 0 <= i < |hotspots| && hotspots[i].city == city
  }

  /** _generate_city_recommendations: a line for Gurgaon and one for Faridabad when
      some hotspot lies there, then the five general lines. */
  function CityRecommendations(hotspots: seq<SimpleHotspot>): (r: seq<string>)
    ensures 5 <= |r| <= 7 && r[|r| - 5..] == GeneralAdvice
    ensures GurgaonAdvice in r <==> HasCity(hotspots, "gurgaon")
    ensures FaridabadAdvice in r <==> HasCity(hotspots, "faridabad")
    ensures |r| == 5 + (if HasCity(hotspots, "gurgaon") then 1 else 0) + (if HasCity(hotspots, "faridabad") then 1 else 0)
  {
    var counted := Keys(hotspots, SpotCity);
    assert "gurgaon" in counted <==> HasCity(hotspots, "gurgaon");
    assert "faridabad" in counted <==> HasCity(hotspots, "faridabad");
    assert GurgaonAdvice !in GeneralAdvice && FaridabadAdvice !in GeneralAdvice;
    (if "gurgaon" in counted then [GurgaonAdvice] else [])
    + (if "faridabad" in counted then [FaridabadAdvice] else [])
    + GeneralAdvice
  }
}
