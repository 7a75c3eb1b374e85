/** backend/geo_housing_mapper.py: turns the two listing datasets into map records
    (price, area, classified location, demand score), aggregates them into per-area
    demand hotspots and produces heatmap points. */
module GeoHousingMapper {
  import opened Wrappers
  import opened Text
  import opened ListingText
  import opened Records
  import opened Seqs
  import opened Sorting
  import opened Grouping
  import opened Numbers

  // ---------------------------------------------------------------- parsers

  /** extract_price: an empty text is 0, any other text is read by PriceFromText. */
  function ExtractPrice(text: string): (r: real)
    ensures r >= 0.0
    ensures text == "" ==> r == 0.0
  {
    if text == "" then 0.0 else PriceFromText(text)
  }

  /** extract_area_sqft: an empty text is 0, any other text is read by AreaFromText. */
  function ExtractAreaSqft(text: string): (r: real)
    ensures r >= 0.0
    ensures text == "" ==> r == 0.0
  {
    if text == "" then 0.0 else AreaFromText(text)
  }

  // ----------------------------------------------------------- demand score

  /** Price accessibility: cheaper listings score higher; no price scores nothing. */
  function PricePoints(price: real): (r: int)
    ensures 0 <= r <= 30
    ensures r == 0 <==> price <= 0.0
  {
    if price <= 0.0 then 0
    else if price <= 3.0 then 30
    else if price <= 5.0 then 25
    else if price <= 10.0 then 20
    else 10
  }

  /** The price points never grow with the price. */
  lemma PricePointsInverse(p: real, q: real)
    requires 0.0 < p <= q
    ensures PricePoints(p) >= PricePoints(q)
  {
  }

  /** Location desirability of a lower-cased address. */
  function LocationPoints(addressLower: string): (r: int)
    ensures 15 <= r <= 25
  {
    if AnyContained(addressLower, PrimeLocations) then 25
    else if Contains(addressLower, "gurgaon") then 20
    else 15
  }

  /** 5 per connectivity keyword, capped at 20; with four keywords the cap never binds. */
  function ConnectivityPoints(nearbyLower: string): (n: int)
    ensures n == 5 * CountContained(nearbyLower, ConnectivityKeywords)
    ensures 0 <= n <= 20
  {
    var n := 5 * CountContained(nearbyLower, ConnectivityKeywords);
    assert |ConnectivityKeywords| == 4;
    if n < 20 then n else 20
  }

  function InvestmentPoints(descriptionLower: string): (r: int)
    ensures r == 0 || r == 15
  {
    if AnyContained(descriptionLower, InvestmentKeywords) then 15 else 0
  }

  /** 2 per amenity keyword, capped at 10; with five keywords the cap never binds. */
  function AmenityPoints(nearbyLower: string): (n: int)
    ensures n == 2 * CountContained(nearbyLower, AmenityKeywords)
    ensures 0 <= n <= 10
  {
    var n := 2 * CountContained(nearbyLower, AmenityKeywords);
    assert |AmenityKeywords| == 5;
    if n < 10 then n else 10
  }

  /** The demand score as the sum of its five terms, without the final cap at 100. */
  function DemandScore(price: real, address: string, description: string, nearby: string): int {
    PricePoints(price) + LocationPoints(Lower(address)) + ConnectivityPoints(Lower(nearby))
    + InvestmentPoints(Lower(description)) + AmenityPoints(Lower(nearby))
  }

  /** The score lies in [15, 100]: the location term gives at least 15 and the largest
      terms add up to exactly 100, so the final cap at 100 never changes it. */
  lemma DemandScoreRange(price: real, address: string, description: string, nearby: string)
    ensures 15 <= DemandScore(price, address, description, nearby) <= 100
  {
  }

  /** The full 100 is scored exactly by a listing priced at most 3 in a prime
      location, named near every connectivity and every amenity keyword, with an
      investment keyword in its description. */
  lemma DemandScoreTop(price: real, address: string, description: string, nearby: string)
    ensures DemandScore(price, address, description, nearby) == 100 <==>
      0.0 < price <= 3.0
      && AnyContained(Lower(address), PrimeLocations)
      && (forall i :: 0 <= i < |ConnectivityKeywords| ==> Contains(Lower(nearby), ConnectivityKeywords[i]))
      && AnyContained(Lower(description), InvestmentKeywords)
      && (forall i :: 0 <= i < |AmenityKeywords| ==> Contains(Lower(nearby), AmenityKeywords[i]))
  {
    assert |ConnectivityKeywords| == 4 && |AmenityKeywords| == 5;
  }

  /** Of two listings that differ only in price, the cheaper one (with a price)
      scores at least as much. */
  lemma DemandScoreCheaper(p: real, q: real, address: string, description: string, nearby: string)
    requires 0.0 < p <= q
    ensures DemandScore(p, address, description, nearby) >= DemandScore(q, address, description, nearby)
  {
    PricePointsInverse(p, q);
  }

  /** calculate_demand_score: the score built up term by term and capped at 100.
      The area argument is accepted and not used, as in the source. */
  method CalculateDemandScore(price: real, areaSqft: real, address: string, description: string, nearby: string)
    returns (score: int)
    ensures score == DemandScore(price, address, description, nearby)
    ensures 15 <= score <= 100
  {
    DemandScoreRange(price, address, description, nearby);
    score := 0;
    if price > 0.0 {
      if price <= 3.0 {
        score := score + 30;
      } else if price <= 5.0 {
        score := score + 25;
      } else if price <= 10.0 {
        score := score + 20;
      } else {
        score := score + 10;
      }
    }
    assert score == PricePoints(price);
    var addressLower := Lower(address);
    if AnyContained(addressLower, PrimeLocations) {
      score := score + 25;
    } else if Contains(addressLower, "gurgaon") {
      score := score + 20;
    } else {
      score := score + 15;
    }
    assert score == PricePoints(price) + LocationPoints(addressLower);
    var nearbyLower := Lower(nearby);
    var connectivity := CountContained(nearbyLower, ConnectivityKeywords);
    assert connectivity * 5 == ConnectivityPoints(nearbyLower) <= 20;
    score := score + (if connectivity * 5 < 20 then connectivity * 5 else 20);
    assert score == PricePoints(price) + LocationPoints(addressLower) + ConnectivityPoints(nearbyLower);
    var descriptionLower := Lower(description);
    if AnyContained(descriptionLower, InvestmentKeywords) {
      score := score + 15;
    }
    assert score == PricePoints(price) + LocationPoints(addressLower) + ConnectivityPoints(nearbyLower)
      + InvestmentPoints(descriptionLower);
    var amenities := CountContained(nearbyLower, AmenityKeywords);
    assert amenities * 2 == AmenityPoints(nearbyLower) <= 10;
    score := score + (if amenities * 2 < 10 then amenities * 2 else 10);
    assert score == PricePoints(price) + LocationPoints(addressLower) + ConnectivityPoints(nearbyLower)
      + InvestmentPoints(descriptionLower) + AmenityPoints(nearbyLower);
    score := if score < 100 then score else 100;
  }

  // ------------------------------------------------------ location labels

  /** The area of a lower-cased address: a DLF address is its phase (phase 1 when
      none is written), else Sushant Lok, else the first sector, else unknown. */
  function AreaLabel(s: string): string {
    if Contains(s, "dlf") then
      match PhaseNumber(s)
      case Some(n) => "dlf_phase_" + n
      case None => "dlf_phase_1"
    else if Contains(s, "sushant lok") then "sushant_lok"
    else
      match SectorNumber(s)
      case Some(x) => "sector_" + x
      case None => "unknown"
  }

  /** A DLF address is labelled by its phase, whatever else it mentions. */
  lemma AreaLabelDlf(s: string)
    requires Contains(s, "dlf")
    ensures StartsWith(AreaLabel(s), "dlf_phase_")
    ensures AreaLabel(s)[10..] == match PhaseNumber(s) case Some(n) => n case None => "1"
  {
    var r := AreaLabel(s);
    assert r[..10] == "dlf_phase_";
  }

  /** Otherwise Sushant Lok wins over any sector number. */
  lemma AreaLabelSushantLok(s: string)
    requires !Contains(s, "dlf") && Contains(s, "sushant lok")
    ensures AreaLabel(s) == "sushant_lok"
    ensures !StartsWith(AreaLabel(s), "dlf_phase_") && !StartsWith(AreaLabel(s), "sector_")
  {
    var r := AreaLabel(s);
    NotStartsWith(r, "dlf_phase_", 0);
    NotStartsWith(r, "sector_", 1);
  }

  /** Otherwise the first sector number, if any, names the area. */
  lemma AreaLabelSector(s: string)
    requires !Contains(s, "dlf") && !Contains(s, "sushant lok")
    ensures SectorNumber(s).Some? ==>
      StartsWith(AreaLabel(s), "sector_") && AreaLabel(s)[7..] == SectorNumber(s).value
    ensures SectorNumber(s).None? ==> AreaLabel(s) == "unknown"
    ensures !StartsWith(AreaLabel(s), "dlf_phase_")
  {
    var r := AreaLabel(s);
    if SectorNumber(s).Some? {
      assert r[..7] == "sector_";
    }
    NotStartsWith(r, "dlf_phase_", 0);
  }

  /** The city of a lower-cased address: Faridabad before Delhi, Gurgaon otherwise. */
  function CityLabel(s: string): (r: string)
    ensures r == "faridabad" <==> Contains(s, "faridabad")
    ensures r == "delhi" <==> !Contains(s, "faridabad") && Contains(s, "delhi")
    ensures r == "gurgaon" <==> !Contains(s, "faridabad") && !Contains(s, "delhi")
  {
    if Contains(s, "faridabad") then "faridabad"
    else if Contains(s, "delhi") then "delhi"
    else "gurgaon"
  }

  /** The description shown on the map: at most 200 characters and an ellipsis. */
  function ShortDescription(d: string): (r: string)
    ensures |d| <= 200 ==> r == d
    ensures |d| > 200 ==> |r| == 203 && r[..200] == d[..200] && r[200..] == "..."
  {
    if |d| > 200 then d[..200] + "..." else d
  }

  // ------------------------------------------------------------ map records

  /** The record id f"{prefix}_{index}"; its decimal rendering is not modelled. */
  datatype RecordId = RecordId(prefix: string, index: nat)

  datatype Property = Property(
    id: RecordId, name: string, address: string, area: string, city: string,
    price: real, priceText: string, areaSqft: real, bedrooms: string, bathrooms: string,
    location: Coord, demandScore: int, datasetSource: string, description: string,
    nearbyLocations: string)

  /** extract_coordinates(address, area, city) for the n-th record emitted: the
      random offset the source adds is outside the model, so the caller supplies it. */
  type Locator = (string, string, string, nat) -> Coord

  /** The skip rule: rows whose price or area does not parse to a positive number. */
  predicate Mappable(row: Row) {
    ExtractPrice(Get(row, "price", "")) > 0.0 && ExtractAreaSqft(Get(row, "area", "")) > 0.0
  }

  /** The record built from a row when it is the n-th record emitted. */
  function ToProperty(row: Row, source: string, n: nat, locate: Locator): Property {
    var address := Get(row, "address", "");
    var s := Lower(address);
    var area, city := AreaLabel(s), CityLabel(s);
    var price := ExtractPrice(Get(row, "price", ""));
    Property(
      RecordId(source, n), Get(row, "property_name", "Unknown Property"), address, area, city,
      price, Get(row, "price", ""), ExtractAreaSqft(Get(row, "area", "")),
      Get(row, "bedRoom", ""), Get(row, "bathroom", ""), locate(address, area, city, n),
      DemandScore(price, address, Get(row, "description", ""), Get(row, "nearbyLocations", "")),
      source, ShortDescription(Get(row, "description", "")), Get(row, "nearbyLocations", ""))
  }

  /** The records of one dataset: its mappable rows in order, numbered from start. */
  function MapDataset(rows: seq<Row>, source: string, start: nat, locate: Locator): seq<Property> {
    MapKept(rows, start, Mappable, (row: Row, n: nat) => ToProperty(row, source, n, locate))
  }

  /** All records: the houses dataset first, then the cleaned one. */
  function PropertiesForMapping(houses: seq<Row>, cleaned: seq<Row>, locate: Locator): seq<Property> {
    var h := MapDataset(houses, "houses", 0, locate);
    h + MapDataset(cleaned, "cleaned", |h|, locate)
  }

  /** What ToProperty keeps of a mappable row. */
  lemma ToPropertyFacts(row: Row, source: string, n: nat, locate: Locator)
    requires Mappable(row)
    ensures var p := ToProperty(row, source, n, locate);
      p.id == RecordId(source, n) && p.datasetSource == source
      && p.price > 0.0 && p.areaSqft > 0.0 && 15 <= p.demandScore <= 100
  {
    DemandScoreRange(ExtractPrice(Get(row, "price", "")), Get(row, "address", ""),
      Get(row, "description", ""), Get(row, "nearbyLocations", ""));
  }

  /** The facts every record of a dataset numbered n satisfies. */
  predicate RecordOf(source: string, p: Property, n: nat) {
    p.id == RecordId(source, n) && p.datasetSource == source
    && p.price > 0.0 && p.areaSqft > 0.0 && 15 <= p.demandScore <= 100
  }

  /** One dataset's records: one per mappable row, numbered from start, tagged with
      the dataset, each with a positive price and area and a score in [15, 100]. */
  lemma MapDatasetFacts(rows: seq<Row>, source: string, start: nat, locate: Locator)
    ensures |MapDataset(rows, source, start, locate)| == |Filter(rows, Mappable)|
    ensures forall i :: 0 <= i < |MapDataset(rows, source, start, locate)| ==>
      RecordOf(source, MapDataset(rows, source, start, locate)[i], start + i)
  {
    var build := (row: Row, n: nat) => ToProperty(row, source, n, locate);
    var prop := (p: Property, n: nat) => RecordOf(source, p, n);
    forall row: Row, n: nat | Mappable(row)
      ensures prop(build(row, n), n)
    {
      ToPropertyFacts(row, source, n, locate);
    }
    MapKeptAll(rows, start, Mappable, build, prop);
  }

  /** Every record's id is its dataset and its position in the whole output, so ids
      are distinct; the houses records come first; every record has a positive price
      and area and a score in [15, 100]. */
  lemma MappingRecords(houses: seq<Row>, cleaned: seq<Row>, locate: Locator)
    ensures var r := PropertiesForMapping(houses, cleaned, locate);
      var nh := |Filter(houses, Mappable)|;
      |r| == nh + |Filter(cleaned, Mappable)|
      && (forall i :: 0 <= i < |r| ==>
            r[i].id == RecordId(if i < nh then "houses" else "cleaned", i)
            && r[i].price > 0.0 && r[i].areaSqft > 0.0 && 15 <= r[i].demandScore <= 100)
      && (forall i, j :: 0 <= i < j < |r| ==> r[i].id != r[j].id)
  {
    var h := MapDataset(houses, "houses", 0, locate);
    MapDatasetFacts(houses, "houses", 0, locate);
    MapDatasetFacts(cleaned, "cleaned", |h|, locate);
    var r := PropertiesForMapping(houses, cleaned, locate);
    assert forall i :: 0 <= i < |h| ==> r[i] == h[i];
  }

  /** process_properties_for_mapping: both datasets row by row, skipping the rows
      without a positive price and area and appending the record of every other row,
      numbered by the count of records before it. */
  method ProcessPropertiesForMapping(houses: seq<Row>, cleaned: seq<Row>, locate: Locator)
    returns (all: seq<Property>)
    ensures all == PropertiesForMapping(houses, cleaned, locate)
  {
    all := AppendKept([], houses, Mappable, (row: Row, n: nat) => ToProperty(row, "houses", n, locate));
    all := AppendKept(all, cleaned, Mappable, (row: Row, n: nat) => ToProperty(row, "cleaned", n, locate));
  }

  // ---------------------------------------------------------- demand hotspots

  /** The grouping key f"{city}_{area}". */
  function AreaKey(p: Property): string { p.city + "_" + p.area }

  function DemandOf(p: Property): real { p.demandScore as real }
  function PriceOf(p: Property): real { p.price }
  function LatOf(p: Property): real { p.location.lat }
  function LngOf(p: Property): real { p.location.lng }

  datatype Hotspot = Hotspot(
    id: string, area: string, city: string, location: Coord, demandScore: real,
    intensity: real, propertyCount: nat, totalProperties: nat, avgPrice: real,
    minPrice: real, maxPrice: real)

  function HotspotDemand(h: Hotspot): real { h.demandScore }

  /** The hotspot of one key's properties: averages over the group, the area and city
      names of its last property, the intensity min(average / 100, 1) of the exact
      average, and the demand and prices rounded to one decimal. */
  function HotspotOf(key: string, ms: seq<Property>): Hotspot
    requires |ms| > 0
  {
    var n := |ms| as real;
    var avg := SumBy(ms, DemandOf) / n;
    Hotspot(key, ms[|ms| - 1].area, ms[|ms| - 1].city,
      Coord(SumBy(ms, LatOf) / n, SumBy(ms, LngOf) / n), Round1(avg),
      if avg / 100.0 < 1.0 then avg / 100.0 else 1.0, |ms|, |ms|,
      Round1(SumBy(ms, PriceOf) / n), Round1(MinBy(ms, PriceOf)), Round1(MaxBy(ms, PriceOf)))
  }

  /** create_demand_hotspots: one hotspot per area key with at least two properties,
      keys in order of first appearance, then stably sorted by the rounded demand,
      highest first, so keys whose averages round alike keep their first-appearance
      order. */
  function DemandHotspots(props: seq<Property>): seq<Hotspot> {
    SortDesc(BigGroups(Keys(props, AreaKey), props, AreaKey, HotspotOf), HotspotDemand)
  }

  /** The running totals create_demand_hotspots keeps per key. */
  datatype Acc = Acc(properties: seq<Property>, totalDemand: real, sumLat: real, sumLng: real,
    count: nat, areaName: string, cityName: string)

  /** The totals after the properties ms of one key have been added. */
  function Accumulated(ms: seq<Property>): Acc {
    Acc(ms, SumBy(ms, DemandOf), SumBy(ms, LatOf), SumBy(ms, LngOf), |ms|,
      if ms == [] then "" else ms[|ms| - 1].area, if ms == [] then "" else ms[|ms| - 1].city)
  }

  /** One iteration of the first loop on a key's entry: the property is appended,
      its demand and coordinates added, the count increased, and the area and city
      names overwritten by the property's. */
  function AddProperty(info: Acc, p: Property): Acc {
    Acc(info.properties + [p], info.totalDemand + p.demandScore as real,
      info.sumLat + p.location.lat, info.sumLng + p.location.lng, info.count + 1, p.area, p.city)
  }

  /** Adding one property to a key's totals gives the totals of the longer list. */
  lemma AccumulatedSnoc(ms: seq<Property>, p: Property)
    ensures Accumulated(ms + [p]) == AddProperty(Accumulated(ms), p)
  {
    assert (ms + [p])[..|ms|] == ms;
  }

  /** The first loop of create_demand_hotspots: the per-key totals, keyed in order of
      first appearance. */
  method GroupByArea(props: seq<Property>) returns (areaData: map<string, Acc>, keys: seq<string>)
    ensures keys == Keys(props, AreaKey)
    ensures forall k :: k in areaData <==> k in keys
    ensures forall k :: k in areaData ==> areaData[k] == Accumulated(Members(props, AreaKey, k))
  {
    forall ms: seq<Property>, p: Property
      ensures Accumulated(ms + [p]) == AddProperty(Accumulated(ms), p)
    {
      AccumulatedSnoc(ms, p);
    }
    areaData, keys := GroupFold(props, AreaKey, Accumulated, AddProperty);
  }

  /** The hotspot dict the second loop builds from a key's totals. */
  function HotspotFromTotals(key: string, d: Acc): Hotspot
    requires d.count > 0 && |d.properties| > 0
  {
    var n := d.count as real;
    var avg := d.totalDemand / n;
    Hotspot(key, d.areaName, d.cityName, Coord(d.sumLat / n, d.sumLng / n), Round1(avg),
      if avg / 100.0 < 1.0 then avg / 100.0 else 1.0, d.count, |d.properties|,
      Round1(SumBy(d.properties, PriceOf) / |d.properties| as real),
      Round1(MinBy(d.properties, PriceOf)), Round1(MaxBy(d.properties, PriceOf)))
  }

  /** Built from a key's totals, the hotspot is the hotspot of its properties. */
  lemma HotspotOfTotals(key: string, ms: seq<Property>)
    requires |ms| > 0
    ensures HotspotFromTotals(key, Accumulated(ms)) == HotspotOf(key, ms)
  {
  }

  /** The second loop of create_demand_hotspots: a hotspot for every key with at
      least two properties, in key order. */
  method HotspotsFromGroups(areaData: map<string, Acc>, keys: seq<string>, props: seq<Property>)
    returns (found: seq<Hotspot>)
    requires forall k :: k in areaData <==> k in keys
    requires forall k :: k in areaData ==> areaData[k] == Accumulated(Members(props, AreaKey, k))
    ensures found == BigGroups(keys, props, AreaKey, HotspotOf)
  {
    found := [];
    for j := 0 to |keys|
      invariant found == BigGroups(keys[..j], props, AreaKey, HotspotOf)
    {
      var key := keys[j];
      BigGroupsSnoc(keys, j, props, AreaKey, HotspotOf);
      var data := areaData[key];
      if data.count >= 2 {
        HotspotOfTotals(key, Members(props, AreaKey, key));
        found := found + [HotspotFromTotals(key, data)];
      }
    }
    assert keys[..|keys|] == keys;
  }

  /** create_demand_hotspots: group, build the hotspots, sort them by demand. */
  method CreateDemandHotspots(props: seq<Property>) returns (hotspots: seq<Hotspot>)
    ensures hotspots == DemandHotspots(props)
  {
    var areaData, keys := GroupByArea(props);
    var found := HotspotsFromGroups(areaData, keys, props);
    hotspots := SortDesc(found, HotspotDemand);
  }

  /** The hotspots are ordered by demand, highest first, and their ids are distinct. */
  lemma HotspotsOrdered(props: seq<Property>)
    ensures SortedDesc(DemandHotspots(props), HotspotDemand)
    ensures forall i, j :: 0 <= i < j < |DemandHotspots(props)| ==>
      DemandHotspots(props)[i].id != DemandHotspots(props)[j].id
  {
    var ks := Keys(props, AreaKey);
    var name := (h: Hotspot) => h.id;
    BigGroupsDistinct(ks, props, AreaKey, HotspotOf, name);
    SortDescDistinct(BigGroups(ks, props, AreaKey, HotspotOf), HotspotDemand, name);
  }

  /** A key with at least two properties has a hotspot. */
  lemma HotspotForBigGroup(props: seq<Property>, key: string)
    requires |Members(props, AreaKey, key)| >= 2
    ensures exists i :: (0 <= i < |DemandHotspots(props)|
      && DemandHotspots(props)[i] == HotspotOf(key, Members(props, AreaKey, key)))
  {
    var h := HotspotOf(key, Members(props, AreaKey, key));
    var r := SortDesc(BigGroups(Keys(props, AreaKey), props, AreaKey, HotspotOf), HotspotDemand);
    SortedBigGroupsComplete(props, AreaKey, HotspotOf, HotspotDemand, key);
    var i :| 0 <= i < |r| && r[i] == h;
    assert DemandHotspots(props)[i] == h;
  }

  /** Every hotspot is the hotspot of its key's properties, of which there are at
      least two. */
  lemma HotspotOfItsGroup(props: seq<Property>, i: nat)
    requires i < |DemandHotspots(props)|
    ensures var h := DemandHotspots(props)[i];
      |Members(props, AreaKey, h.id)| >= 2 && h == HotspotOf(h.id, Members(props, AreaKey, h.id))
  {
    var ks := Keys(props, AreaKey);
    var u := BigGroups(ks, props, AreaKey, HotspotOf);
    SortDescMembers(u, HotspotDemand);
    var j :| 0 <= j < |u| && u[j] == DemandHotspots(props)[i];
    BigGroupsSound(ks, props, AreaKey, HotspotOf, j);
  }

  /** Each hotspot counts its group twice over equally, its rounded average price
      lies between its rounded cheapest and dearest prices, its intensity is at most
      1, and below 1 it is the demand before rounding, over 100. */
  lemma HotspotFigures(key: string, ms: seq<Property>)
    requires |ms| > 0
    ensures var h := HotspotOf(key, ms);
      h.propertyCount == h.totalProperties == |ms|
      && h.minPrice <= h.avgPrice <= h.maxPrice
      && h.intensity <= 1.0
      && (h.intensity < 1.0 ==> h.demandScore - 0.05 <= h.intensity * 100.0 <= h.demandScore + 0.05)
  {
    var n := |ms| as real;
    MeanBetweenMinMax(ms, PriceOf);
    Round1Monotone(MinBy(ms, PriceOf), SumBy(ms, PriceOf) / n);
    Round1Monotone(SumBy(ms, PriceOf) / n, MaxBy(ms, PriceOf));
  }

  /** Over properties scored in [15, 100], as every mapped record is, a hotspot's
      rounded demand stays in [15, 100] and its intensity lies in [0.15, 1] and is
      the exact average over 100: the cap at 1 never binds. */
  lemma HotspotIntensityOfScoredGroup(key: string, ms: seq<Property>)
    requires |ms| > 0
    requires forall i :: 0 <= i < |ms| ==> 15 <= ms[i].demandScore <= 100
    ensures var h := HotspotOf(key, ms);
      15.0 <= h.demandScore <= 100.0
      && 0.15 <= h.intensity <= 1.0
      && h.intensity * 100.0 == SumBy(ms, DemandOf) / |ms| as real
      && h.demandScore - 0.05 <= h.intensity * 100.0 <= h.demandScore + 0.05
  {
    var avg := SumBy(ms, DemandOf) / |ms| as real;
    MeanWithin(ms, DemandOf, 15.0, 100.0);
    Round1Monotone(15.0, avg);
    Round1Monotone(avg, 100.0);
    Round1OfTenths(150);
    Round1OfTenths(1000);
  }

  // ---------------------------------------------------------------- heatmap

  /** One heatmap point [latitude, longitude, intensity]. */
  datatype HeatPoint = HeatPoint(lat: real, lng: real, intensity: real)

  /** create_heatmap_data: one point per property, in input order. */
  function HeatmapData(props: seq<Property>): (r: seq<HeatPoint>)
    ensures |r| == |props|
  {
    seq(|props|, i requires 0 <= i < |props| =>
      HeatPoint(props[i].location.lat, props[i].location.lng, props[i].demandScore as real / 100.0))
  }

  /** The heatmap of the mapped records sits at their locations, with every intensity
      their demand over 100 and so within [0.15, 1]. */
  lemma HeatmapOfMappedRecords(houses: seq<Row>, cleaned: seq<Row>, locate: Locator)
    ensures var props := PropertiesForMapping(houses, cleaned, locate);
      var r := HeatmapData(props);
      forall i :: 0 <= i < |r| ==>
        r[i].lat == props[i].location.lat && r[i].lng == props[i].location.lng
        && r[i].intensity == props[i].demandScore as real / 100.0
        && 0.15 <= r[i].intensity <= 1.0
  {
    MappingRecords(houses, cleaned, locate);
  }
}
