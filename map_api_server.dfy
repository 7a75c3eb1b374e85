/** The query endpoints of the map API (backend/map_api_server.py) over the loaded
    map data: filters, limits and the per-area search, as pure functions from the
    loaded data and the query parameters to the reply. */
module MapApiServer {
  import opened Wrappers
  import opened Text
  import opened Seqs
  import opened Numbers

  /** One object of the map file's "properties" or "hotspots" list: the fields the
      endpoints read, each of which may be absent, and the other fields, which the
      endpoints pass through untouched. */
  datatype Item = Item(
    city: Option<string>,
    area: Option<string>,
    demandScore: Option<real>,
    price: Option<real>,
    others: map<string, string>)

  /** The loaded map file: its two lists, each of which may be absent, and the
      names of its other top-level keys. */
  datatype MapData = MapData(properties: Option<seq<Item>>, hotspots: Option<seq<Item>>, otherKeys: set<string>)

  datatype Listing = Listing(totalCount: nat, items: seq<Item>)

  datatype AreaStats = AreaStats(
    areaName: string,
    totalProperties: nat,
    avgDemandScore: real,
    avgPrice: real,
    items: seq<Item>)

  datatype TopList = TopList(requestedCount: int, returnedCount: nat, items: seq<Item>)

  const Unavailable: string := "Map data not available"
  const NotFoundPrefix: string := "No properties found in area: "

  /** `not data`: nothing was loaded, or the loaded dict has no keys. */
  predicate Missing(data: Option<MapData>) {
    data.None? || (data.value.properties.None? && data.value.hotspots.None? && data.value.otherKeys == {})
  }

  /** data.get("properties", []). */
  function Properties(d: MapData): seq<Item> {
    match d.properties
    case Some(ps) => ps
    case None => []
  }

  /** data.get("hotspots", []). */
  function Hotspots(d: MapData): seq<Item> {
    match d.hotspots
    case Some(hs) => hs
    case None => []
  }

  // ------------------------------------------------------- fields with defaults

  function CityOf(x: Item): string { match x.city case Some(c) => c case None => "" }

  function AreaOf(x: Item): string { match x.area case Some(a) => a case None => "" }

  function DemandOf(x: Item): real { match x.demandScore case Some(d) => d case None => 0.0 }

  function PriceOf(x: Item): real { match x.price case Some(p) => p case None => 0.0 }

  // ------------------------------------------------------- the filter stages

  function CityIs(city: string): Item -> bool {
    x => Lower(CityOf(x)) == Lower(city)
  }

  function DemandAtLeast(m: real): Item -> bool {
    x => DemandOf(x) >= m
  }

  function PriceAtMost(m: real): Item -> bool {
    x => PriceOf(x) <= m
  }

  /** `if city:` keeps the items whose city equals it ignoring case; no city or
      the empty text keeps everything. */
  function ByCity(items: seq<Item>, city: Option<string>): seq<Item> {
    if city.Some? && city.value != "" then Filter(items, CityIs(city.value)) else items
  }

  function ByMinDemand(items: seq<Item>, min: Option<real>): seq<Item> {
    if min.Some? then Filter(items, DemandAtLeast(min.value)) else items
  }

  function ByMaxPrice(items: seq<Item>, max: Option<real>): seq<Item> {
    if max.Some? then Filter(items, PriceAtMost(max.value)) else items
  }

  /** `if limit:` cuts to items[:limit]; no limit or a limit of 0 keeps
      everything. */
  function Limited(items: seq<Item>, limit: Option<int>): (r: seq<Item>)
    ensures limit.None? || limit.value == 0 ==> r == items
    ensures limit.Some? && limit.value > 0 ==> r == items[..if limit.value < |items| then limit.value else |items|]
    ensures limit.Some? && limit.value < 0 ==> r == items[..if |items| + limit.value > 0 then |items| + limit.value else 0]
  {
    if limit.Some? && limit.value != 0 then PyPrefix(items, limit.value) else items
  }

  // ------------------------------------------------------- the reference selections

  predicate PassesCity(x: Item, city: Option<string>) {
    city.None? || city.value == "" || Lower(CityOf(x)) == Lower(city.value)
  }

  predicate PassesMinDemand(x: Item, min: Option<real>) {
    min.None? || DemandOf(x) >= min.value
  }

  predicate PassesMaxPrice(x: Item, max: Option<real>) {
    max.None? || PriceOf(x) <= max.value
  }

  /** A property get_properties returns: every filter given holds of it. */
  function PropertySelection(city: Option<string>, minDemand: Option<real>, maxPrice: Option<real>): Item -> bool {
    x => PassesCity(x, city) && PassesMinDemand(x, minDemand) && PassesMaxPrice(x, maxPrice)
  }

  /** A hotspot get_hotspots returns. */
  function HotspotSelection(city: Option<string>, minScore: Option<real>): Item -> bool {
    x => PassesCity(x, city) && PassesMinDemand(x, minScore)
  }

  lemma ByCityIsFilter(items: seq<Item>, city: Option<string>)
    ensures ByCity(items, city) == Filter(items, x => PassesCity(x, city))
  {
    if city.Some? && city.value != "" {
      FilterSame(items, CityIs(city.value), x => PassesCity(x, city));
    } else {
      FilterAll(items, x => PassesCity(x, city));
    }
  }

  lemma ByMinDemandIsFilter(items: seq<Item>, min: Option<real>)
    ensures ByMinDemand(items, min) == Filter(items, x => PassesMinDemand(x, min))
  {
    if min.Some? {
      FilterSame(items, DemandAtLeast(min.value), x => PassesMinDemand(x, min));
    } else {
      FilterAll(items, x => PassesMinDemand(x, min));
    }
  }

  lemma ByMaxPriceIsFilter(items: seq<Item>, max: Option<real>)
    ensures ByMaxPrice(items, max) == Filter(items, x => PassesMaxPrice(x, max))
  {
    if max.Some? {
      FilterSame(items, PriceAtMost(max.value), x => PassesMaxPrice(x, max));
    } else {
      FilterAll(items, x => PassesMaxPrice(x, max));
    }
  }

  // ------------------------------------------------------- get_properties

  /** GET /api/map/properties. */
  function GetProperties(data: Option<MapData>, limit: Option<int>, city: Option<string>,
                         minDemand: Option<real>, maxPrice: Option<real>): (r: Response<Listing>)
    ensures r.HttpError? <==> Missing(data)
    ensures r.HttpError? ==> r.status == 500 && r.detail == Unavailable
    ensures r.Ok? ==> r.body.totalCount == |r.body.items|
  {
    if Missing(data) then HttpError(500, Unavailable)
    else
      var ps := Limited(ByMaxPrice(ByMinDemand(ByCity(Properties(data.value), city), minDemand), maxPrice), limit);
      Ok(Listing(|ps|, ps))
  }

  /** The three filters in a row keep exactly the properties that pass all of
      them, in their order, and the limit applies to that list. */
  lemma GetPropertiesSelects(data: Option<MapData>, limit: Option<int>, city: Option<string>,
                             minDemand: Option<real>, maxPrice: Option<real>)
    requires !Missing(data)
    ensures GetProperties(data, limit, city, minDemand, maxPrice)
      == Ok(Listing(|Limited(Filter(Properties(data.value), PropertySelection(city, minDemand, maxPrice)), limit)|,
                    Limited(Filter(Properties(data.value), PropertySelection(city, minDemand, maxPrice)), limit)))
  {
    var ps := Properties(data.value);
    var c := x => PassesCity(x, city);
    var d := x => PassesMinDemand(x, minDemand);
    var m := x => PassesMaxPrice(x, maxPrice);
    var cd := x => PassesCity(x, city) && PassesMinDemand(x, minDemand);
    ByCityIsFilter(ps, city);
    ByMinDemandIsFilter(Filter(ps, c), minDemand);
    FilterBoth(ps, c, d, cd);
    ByMaxPriceIsFilter(Filter(ps, cd), maxPrice);
    FilterBoth(ps, cd, m, PropertySelection(city, minDemand, maxPrice));
  }

  /** The properties returned are taken from the list in order, each passes every
      filter given, and without a limit none that passes is missing. */
  lemma GetPropertiesFacts(data: Option<MapData>, limit: Option<int>, city: Option<string>,
                           minDemand: Option<real>, maxPrice: Option<real>)
    requires !Missing(data)
    ensures var items := GetProperties(data, limit, city, minDemand, maxPrice).body.items;
      && IsSubsequence(items, Properties(data.value))
      && (forall i :: 0 <= i < |items| ==>
            PassesCity(items[i], city) && PassesMinDemand(items[i], minDemand) && PassesMaxPrice(items[i], maxPrice))
      && (limit.None? || limit.value == 0 ==>
            forall i :: (0 <= i < |Properties(data.value)| && PassesCity(Properties(data.value)[i], city)
              && PassesMinDemand(Properties(data.value)[i], minDemand) && PassesMaxPrice(Properties(data.value)[i], maxPrice))
              ==> Properties(data.value)[i] in items)
  {
    GetPropertiesSelects(data, limit, city, minDemand, maxPrice);
    SelectionFacts(Properties(data.value), PropertySelection(city, minDemand, maxPrice), limit);
  }

  /** What a filter followed by a limit keeps. */
  lemma SelectionFacts(s: seq<Item>, keep: Item -> bool, limit: Option<int>)
    ensures var r := Limited(Filter(s, keep), limit);
      && IsSubsequence(r, s)
      && (forall i :: 0 <= i < |r| ==> keep(r[i]))
      && (limit.None? || limit.value == 0 ==> forall i :: 0 <= i < |s| && keep(s[i]) ==> s[i] in r)
  {
    var f := Filter(s, keep);
    var r := Limited(f, limit);
    FilterIsSubsequence(s, keep);
    FilterMembers(s, keep);
    assert r == f[..|r|];
    PrefixIsSubsequence(f, |r|);
    SubsequenceTransitive(r, f, s);
  }

  // ------------------------------------------------------- get_hotspots

  /** GET /api/map/hotspots. */
  function GetHotspots(data: Option<MapData>, limit: Option<int>, minScore: Option<real>,
                       city: Option<string>): (r: Response<Listing>)
    ensures r.HttpError? <==> Missing(data)
    ensures r.HttpError? ==> r.status == 500 && r.detail == Unavailable
    ensures r.Ok? ==> r.body.totalCount == |r.body.items|
  {
    if Missing(data) then HttpError(500, Unavailable)
    else
      var hs := Limited(ByMinDemand(ByCity(Hotspots(data.value), city), minScore), limit);
      Ok(Listing(|hs|, hs))
  }

  /** The city filter then the score filter keep exactly the hotspots that pass
      both, and the limit applies to that list. */
  lemma GetHotspotsSelects(data: Option<MapData>, limit: Option<int>, minScore: Option<real>, city: Option<string>)
    requires !Missing(data)
    ensures GetHotspots(data, limit, minScore, city)
      == Ok(Listing(|Limited(Filter(Hotspots(data.value), HotspotSelection(city, minScore)), limit)|,
                    Limited(Filter(Hotspots(data.value), HotspotSelection(city, minScore)), limit)))
  {
    var hs := Hotspots(data.value);
    var c := x => PassesCity(x, city);
    ByCityIsFilter(hs, city);
    ByMinDemandIsFilter(Filter(hs, c), minScore);
    FilterBoth(hs, c, x => PassesMinDemand(x, minScore), HotspotSelection(city, minScore));
  }

  /** The hotspots returned are taken from the list in order, each passes the
      filters given, and without a limit none that passes is missing. */
  lemma GetHotspotsFacts(data: Option<MapData>, limit: Option<int>, minScore: Option<real>, city: Option<string>)
    requires !Missing(data)
    ensures var items := GetHotspots(data, limit, minScore, city).body.items;
      && IsSubsequence(items, Hotspots(data.value))
      && (forall i :: 0 <= i < |items| ==> PassesCity(items[i], city) && PassesMinDemand(items[i], minScore))
      && (limit.None? || limit.value == 0 ==>
            forall i :: (0 <= i < |Hotspots(data.value)| && PassesCity(Hotspots(data.value)[i], city)
              && PassesMinDemand(Hotspots(data.value)[i], minScore)) ==> Hotspots(data.value)[i] in items)
  {
    GetHotspotsSelects(data, limit, minScore, city);
    SelectionFacts(Hotspots(data.value), HotspotSelection(city, minScore), limit);
  }

  // ------------------------------------------------------- search_by_area

  /** The area contains the searched name, both lower-cased. */
  function InArea(name: string): Item -> bool {
    x => Contains(Lower(AreaOf(x)), Lower(name))
  }

  /** GET /api/map/search/area/{area_name}: the properties in the area and the
      mean demand score and price over them, rounded to one decimal; 404 when there
      are none. */
  function SearchByArea(data: Option<MapData>, areaName: string): (r: Response<AreaStats>)
    ensures Missing(data) ==> r == HttpError(500, Unavailable)
    ensures !Missing(data) ==> (r.HttpError? <==> Filter(Properties(data.value), InArea(areaName)) == [])
    ensures !Missing(data) && r.HttpError? ==> r.status == 404 && r.detail == NotFoundPrefix + areaName
  {
    if Missing(data) then HttpError(500, Unavailable)
    else
      var ms := Filter(Properties(data.value), InArea(areaName));
      if ms == [] then HttpError(404, NotFoundPrefix + areaName)
      else
        var n := |ms| as real;
        Ok(AreaStats(areaName, |ms|, Round1(SumBy(ms, DemandOf) / n), Round1(SumBy(ms, PriceOf) / n), ms))
  }

  /** The search replies 404 exactly when no property's area contains the name. */
  lemma SearchNotFound(data: Option<MapData>, areaName: string)
    requires !Missing(data)
    ensures SearchByArea(data, areaName).HttpError? <==>
      forall i :: 0 <= i < |Properties(data.value)| ==> !Contains(Lower(AreaOf(Properties(data.value)[i])), Lower(areaName))
  {
    var ps := Properties(data.value);
    FilterMembers(ps, InArea(areaName));
  }

  /** A reply lists, in order, exactly the properties whose area contains the
      name, and counts them. */
  lemma SearchByAreaMatches(data: Option<MapData>, areaName: string)
    requires SearchByArea(data, areaName).Ok?
    ensures var r, ps := SearchByArea(data, areaName).body, Properties(data.value);
      && r.areaName == areaName
      && r.totalProperties == |r.items| >= 1
      && IsSubsequence(r.items, ps)
      && (forall i :: 0 <= i < |r.items| ==> Contains(Lower(AreaOf(r.items[i])), Lower(areaName)))
      && (forall i :: 0 <= i < |ps| && Contains(Lower(AreaOf(ps[i])), Lower(areaName)) ==> ps[i] in r.items)
  {
    var ps := Properties(data.value);
    var ms := Filter(ps, InArea(areaName));
    assert SearchByArea(data, areaName).body.items == ms;
    FilterIsSubsequence(ps, InArea(areaName));
    FilterMembers(ps, InArea(areaName));
  }

  /** A mean rounded to one decimal lies between the rounded least and greatest
      values it averages. */
  lemma RoundedMeanWithin(ms: seq<Item>, f: Item -> real)
    requires |ms| >= 1
    ensures Round1(MinBy(ms, f)) <= Round1(SumBy(ms, f) / |ms| as real) <= Round1(MaxBy(ms, f))
  {
    var mean := SumBy(ms, f) / |ms| as real;
    MeanBetweenMinMax(ms, f);
    Round1Monotone(MinBy(ms, f), mean);
    Round1Monotone(mean, MaxBy(ms, f));
  }

  /** The reported means, once rounded, lie between the rounded lowest and highest
      demand score and price among the matches. */
  lemma SearchByAreaMeans(data: Option<MapData>, areaName: string)
    requires SearchByArea(data, areaName).Ok?
    ensures var r := SearchByArea(data, areaName).body;
      && |r.items| >= 1
      && Round1(MinBy(r.items, DemandOf)) <= r.avgDemandScore <= Round1(MaxBy(r.items, DemandOf))
      && Round1(MinBy(r.items, PriceOf)) <= r.avgPrice <= Round1(MaxBy(r.items, PriceOf))
  {
    var ms := Filter(Properties(data.value), InArea(areaName));
    var n := |ms| as real;
    assert SearchByArea(data, areaName).body
      == AreaStats(areaName, |ms|, Round1(SumBy(ms, DemandOf) / n), Round1(SumBy(ms, PriceOf) / n), ms);
    RoundedMeanWithin(ms, DemandOf);
    RoundedMeanWithin(ms, PriceOf);
  }

  // ------------------------------------------------------- get_top_hotspots

  /** GET /api/map/top-hotspots/{count}: hotspots[:min(count, len(hotspots))]. */
  function GetTopHotspots(data: Option<MapData>, count: int): (r: Response<TopList>)
    ensures r.HttpError? <==> Missing(data)
    ensures r.HttpError? ==> r.status == 500 && r.detail == Unavailable
    ensures r.Ok? ==> r.body.requestedCount == count && r.body.returnedCount == |r.body.items|
  {
    if Missing(data) then HttpError(500, Unavailable)
    else
      var hs := Hotspots(data.value);
      var top := PyPrefix(hs, if count < |hs| then count else |hs|);
      Ok(TopList(count, |top|, top))
  }

  /** A count that is not negative returns the first count hotspots, or all of
      them when there are fewer; a negative count, as a Python slice bound, drops
      that many from the end. */
  lemma TopHotspotsPrefix(data: Option<MapData>, count: int)
    requires !Missing(data)
    ensures var top, hs := GetTopHotspots(data, count).body.items, Hotspots(data.value);
      && (count >= 0 ==> top == hs[..if count < |hs| then count else |hs|])
      && (count >= |hs| ==> top == hs)
      && (count < 0 ==> top == hs[..if |hs| + count > 0 then |hs| + count else 0])
  {
    var hs := Hotspots(data.value);
    assert hs[..|hs|] == hs;
  }
}
