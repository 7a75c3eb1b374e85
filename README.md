# Housing demand analytics: a Dafny model

This project models the analytics core of a real-estate demand tool for the Gurgaon,
Faridabad and Delhi housing market. The tool has five parts:

- The **listing parsers**:
  - price and area readers that turn texts such as "1.5 Crore", "85 Lakh" or
    "120 sq.m" into crores and square feet;
  - address classifiers that find the city, the sector, the DLF phase and the
    prime-location flag;
  - the property-age encoder.
- The **map builder** (`geo_housing_mapper.py`):
  - a demand score on a 0–100 scale;
  - one map record per usable listing;
  - demand hotspots per `city_area` key;
  - heatmap points.
- The **simple demand predictor** (`simple_demand_predictor.py`):
  - five demand factors per listing;
  - location trends per `city_area` key;
  - the top-k hotspots;
  - investment grades, advice and development priorities;
  - the city ranking and city recommendations.
- The **ML demand predictor** (`housing_demand_predictor.py`). What is modelled is
  its parsers and the step after the model has predicted: sort by predicted demand,
  keep the best entry per area, stop at top_k, and add a recommendation.
- The **dataset analysis** (`real_estate_analysis.py`: price, area and category
  statistics) and **the map API** (`map_api_server.py`: the filter and limit
  pipelines of four endpoints).

How the model is built:

- **Regex searches** become leftmost scanners.
  - `Patterns` holds one matcher per position.
  - `Text.Search` returns the first position that matches.
  - Python's `float()` on a `[\d.]+` token becomes `Numbers.ParseNumberToken`. It
    is total and succeeds exactly when the token has a digit and at most one dot.
- **Rows and values.** A CSV or JSON row is a `map<string, string>`, read with
  `.get(key, default)` semantics (`Records.Get`). Float quantities are `real` and
  decimal literals are exact.
- **Sorting.** A stable `sort(reverse=True)` is a stable insertion sort on
  sequences (`Sorting.SortDesc`).
- **Slicing.** The slice `[:k]`, negative k included, is `Seqs.PyPrefix`.
- **Dictionaries.** The defaultdict accumulations loop over a `map` with the keys
  kept in insertion order (`Grouping.GroupFold`). Each is proved against a
  function of the members of each key.
- **Imperative code stays imperative.** Where the source builds a value
  step by step, the model is a method with the same loop, proved against a
  specification function. Those functions' properties are proved as lemmas.
- **The three script copies.** The listing parsers are written out three times in
  the source. They are modelled once (`ListingText`), and `ParserCopies` proves
  where the copies agree and where they differ.

## Model

| member | source | states |
|---|---|---|
| Text.Lower | backend/geo_housing_mapper.py:148 | str.lower() on ASCII: same length, each upper-case letter lowered, every other character kept |
| Text.TitleAfter | backend/simple_demand_predictor.py:513 | city.title(): a letter that follows a non-letter (or starts the text) is upper-cased, a letter that follows a letter is lower-cased, every other character is kept, and the length is unchanged |
| Text.RemoveChar | python-analysis/real_estate_analysis.py:64 | replace(',', ''): no comma is left, every other character occurs exactly when it did, and a text without commas is unchanged |
| Text.RemoveWord | python-analysis/real_estate_analysis.py:32 | replace('Crore', ''): only characters of the text remain, a text without the word is unchanged, and a text containing it loses at least the word's length |
| Text.RemoveTrailingWord | python-analysis/real_estate_analysis.py:32 | removing a word from a text that ends in it, and holds the word's first letter nowhere else, leaves exactly the text before it |
| Text.Strip | python-analysis/real_estate_analysis.py:32 | strip(): the result neither starts nor ends in whitespace, an all-space text becomes empty, an already stripped text is unchanged |
| Text.SearchLeftmost | backend/geo_housing_mapper.py:152 | re.search returns the match at the leftmost position where the pattern matches |
| Text.SearchNone | backend/geo_housing_mapper.py:160-161 | re.search finds nothing when the pattern matches at no position |
| Numbers.ParseNumberToken | backend/geo_housing_mapper.py:154 | float() of a `[\d.]+` token succeeds exactly when the token has at least one digit and at most one dot, and the value is never negative |
| Numbers.IntegerToken | backend/geo_housing_mapper.py:162 | float() of a run of digits is the number those digits spell |
| Numbers.DecimalToken | backend/geo_housing_mapper.py:154 | float() of digits, one dot and digits is the integer part plus the fraction's digits over a power of ten |
| Numbers.ParseSignedDecimal | python-analysis/real_estate_analysis.py:33 | float() of a text with an optional leading sign reads the token after the sign, negated for '-' |
| Numbers.Trunc | backend/housing_demand_predictor.py:289 | int(x) truncates towards zero for both signs |
| Numbers.RoundHalfEven | backend/geo_housing_mapper.py:428 | rounding to an integer moves a value by at most a half, and a tie goes to the even neighbour |
| Numbers.RoundHalfEvenMonotone | backend/geo_housing_mapper.py:428 | a larger value never rounds lower |
| Numbers.Round1 | backend/geo_housing_mapper.py:428 | round(x, 1) moves a value by at most 0.05 |
| Numbers.Round1Monotone | backend/geo_housing_mapper.py:428-442 | round(x, 1) never reverses the order of two values, so a list sorted by a value is sorted by its rounding |
| Numbers.Round1OfTenths | backend/simple_demand_predictor.py:514 | a whole number of tenths rounds to itself |
| Numbers.Round1Idempotent | backend/simple_demand_predictor.py:514 | rounding an already rounded value changes nothing |
| Numbers.Round1Merges | backend/geo_housing_mapper.py:428-442 | 771/11 and 70.1 differ but both round to 70.1, so a sort on the rounded value treats them as equal |
| Numbers.ReachedMonotone | backend/simple_demand_predictor.py:454-465 | an ascending chain of `>=` thresholds: a larger score reaches at least as many |
| Numbers.ExceededMonotone | backend/housing_demand_predictor.py:572-579 | an ascending chain of strict `>` thresholds: a larger score exceeds at least as many |
| Patterns.NumberRunAt | backend/geo_housing_mapper.py:160 | `[\d.]+` matches at a position exactly when the character there is a digit or a dot, and then the maximal run of them: the character after the run is neither |
| Patterns.NumberBeforeWordAt | backend/geo_housing_mapper.py:152 | a `([\d.]+)\s*crore` match at a position captures the number run that starts there |
| Patterns.NumberBeforeWordExact | backend/geo_housing_mapper.py:152 | when a number run, optional whitespace and the word follow each other at a position, that run is the captured group |
| Patterns.NumberBeforeWordSound | backend/geo_housing_mapper.py:152 | every captured group is followed by optional whitespace and then the word |
| Patterns.SectorAt | backend/geo_housing_mapper.py:268 | a `sector\s*(\d+[a-z]*)` match starts with "sector" and captures a digit followed by digits and lower-case letters |
| Patterns.PhaseAt | backend/geo_housing_mapper.py:260 | a `phase\s*(\d+)` match starts with "phase" and captures a non-empty run of digits |
| Patterns.DigitRunAt | backend/housing_demand_predictor.py:292 | `\d+` matches exactly at a digit, and then the maximal run of digits: the character after the run is not a digit |
| Patterns.DecimalAt | python-analysis/real_estate_analysis.py:67 | `\d+\.?\d*` matches exactly at a digit, the match has at most one dot, and the character after it is not a digit |
| ListingText.PriceText | backend/geo_housing_mapper.py:148 | the lower-cased price text without commas is never longer and holds no comma |
| ListingText.NumberBefore | backend/geo_housing_mapper.py:152-157 | definition of `re.search(r'([\d.]+)\s*crore')` and its lakh twin, group 1: the matcher NumberBeforeWordAt at the leftmost position where it succeeds; PriceCrore, PriceCroreWithoutNumber and PriceLakh state what it yields |
| ListingText.FirstNumber | backend/geo_housing_mapper.py:160-162 | definition of `re.search(r'[\d.]+').group()`: the run at the leftmost digit or dot; PricePlain, AreaFirstNumber and AreaWithoutNumber state what it yields |
| ListingText.FirstDigits | backend/housing_demand_predictor.py:292-293 | definition of `re.search(r'\d+')`: the digit run at the leftmost digit; HousingDemandPredictor.NumericFirstRun and NumericNoDigits state what it yields |
| ListingText.FirstDecimal | python-analysis/real_estate_analysis.py:67-69 | definition of `re.findall(r'\d+\.?\d*')[0]`, the leftmost match; RealEstateAnalysis.AreaValue and DecimalTokenParses state what it yields |
| ListingText.PriceFromText | backend/geo_housing_mapper.py:148-169 | the price in crores read from a non-empty text is never negative |
| ListingText.PriceCrore | backend/geo_housing_mapper.py:151-154 | when "crore" occurs, the price is the number directly before the leftmost "crore" that has one, or 0 when that number does not convert |
| ListingText.PriceCroreWithoutNumber | backend/geo_housing_mapper.py:151-169 | when "crore" occurs but no number precedes any "crore", the price is 0 and "lakh" is not tried |
| ListingText.PriceLakh | backend/geo_housing_mapper.py:155-158 | without "crore", the number before the leftmost matching "lakh", divided by 100 |
| ListingText.PricePlain | backend/geo_housing_mapper.py:159-165 | without either word, the first `[\d.]+` token, divided by 100 when it exceeds 1000, or 0 when it does not convert |
| ListingText.PricePositiveNeedsDigit | backend/geo_housing_mapper.py:143-169 | a positive price needs a digit in the text |
| ListingText.AreaFromText | backend/geo_housing_mapper.py:176-192 | the area in square feet read from a non-empty text is never negative |
| ListingText.InSquareFeet | backend/geo_housing_mapper.py:183-188 | square metres (by "sq.m" or "sq m") are multiplied by 10.764, otherwise yards by 9, otherwise the value is kept, and the result is never smaller than a non-negative value |
| ListingText.AreaFirstNumber | backend/geo_housing_mapper.py:179-188 | the area is the first `[\d.]+` token of the lower-cased text, converted to square feet, or 0 when the token does not convert |
| ListingText.AreaWithoutNumber | backend/geo_housing_mapper.py:179-192 | a text without a digit or dot has area 0 |
| ListingText.CountContained | backend/geo_housing_mapper.py:222 | the number of keywords found is 0 exactly when none is found, and the length of the keyword list exactly when all are |
| ListingText.SectorNumber | backend/geo_housing_mapper.py:268 | the first sector group holds "sector" before it and starts with a digit |
| ListingText.PhaseNumber | backend/geo_housing_mapper.py:260 | the first phase group holds "phase" before it and is all digits |
| ListingText.CityOf | backend/simple_demand_predictor.py:131-138 | the city is gurgaon (by "gurgaon" or "gurugram"), otherwise faridabad, otherwise delhi, otherwise unknown, each side of every case proved |
| ListingText.SectorLabel | backend/simple_demand_predictor.py:140-144 | "sector_" and the first sector group, or "unknown" when there is none |
| ListingText.SectorLabelKnown | backend/simple_demand_predictor.py:141-147 | the sector label is "unknown" exactly when no sector matches |
| ListingExamples.PriceOfCroreText | backend/geo_housing_mapper.py:151-154 | "1.5 Crore" reads as 1.5 crores |
| ListingExamples.PriceOfLakhText | backend/geo_housing_mapper.py:155-158 | "85 Lakh" reads as 0.85 crores |
| ListingExamples.AreaOfSquareMetreText | backend/geo_housing_mapper.py:179-184 | "120 sq.m" reads as 1291.68 square feet |
| ListingExamples.AreaKeepsComma | backend/geo_housing_mapper.py:176-188 | "1,200 sq ft" reads as 1 square foot: the area reader keeps commas and the first run stops at one |
| Records.Get | backend/geo_housing_mapper.py:247 | dict.get(key, default): the row's value when the key is present, the default otherwise |
| Seqs.Filter | backend/map_api_server.py:154 | a list comprehension with a condition keeps elements that satisfy it and is never longer |
| Seqs.FilterMembers | backend/map_api_server.py:154 | the comprehension keeps every element that satisfies the condition and adds nothing |
| Seqs.FilterBoth | backend/map_api_server.py:153-160 | two filters in a row are one filter by both conditions |
| Seqs.FilterIsSubsequence | backend/map_api_server.py:153-160 | a filter keeps the order of its input |
| Seqs.PyStop | backend/map_api_server.py:164 | the end of the slice `[:k]`: k capped by the length, or the length plus k for negative k, never below 0 |
| Seqs.PyPrefix | python-analysis/real_estate_analysis.py:52 | the slice `[:k]` is the prefix of the length PyStop gives |
| Seqs.AppendKept | backend/geo_housing_mapper.py:244-308 | the per-row loop that skips some rows and appends one record for each other row, numbered by the records before it |
| Seqs.MapKeptAt | backend/geo_housing_mapper.py:244-308 | the i-th record emitted is built from the i-th kept row and numbered by its position |
| Seqs.MinBy | backend/geo_housing_mapper.py:434 | min(...) over a non-empty list is at most every element and is one of them |
| Seqs.MaxBy | backend/geo_housing_mapper.py:435 | max(...) over a non-empty list is at least every element and is one of them |
| Sorting.SortDesc | backend/geo_housing_mapper.py:442 | sort(reverse=True) on a key: a permutation of the input, ordered by the key, highest first |
| Sorting.SortDescStable | backend/geo_housing_mapper.py:442 | the sort is stable: the elements with one key value keep their input order |
| Sorting.SortDescMembers | backend/geo_housing_mapper.py:442 | the sort neither adds nor loses elements |
| Sorting.SortDescDistinct | backend/geo_housing_mapper.py:442 | sorting keeps distinct names distinct |
| Sorting.SortDescSum | backend/simple_demand_predictor.py:519 | sorting keeps the sum of a field |
| Sorting.TopSorted | backend/simple_demand_predictor.py:356-363 | the first k of a sorted list with distinct names are sorted, have distinct names and sum to no more than the whole |
| Sorting.SubsequenceSorted | backend/housing_demand_predictor.py:483-494 | a subsequence of a sorted list is sorted |
| Sorting.SortAsc | python-analysis/real_estate_analysis.py:43 | list.sort() on numbers: a permutation in ascending order |
| Grouping.Keys | backend/geo_housing_mapper.py:391-409 | the defaultdict's keys: distinct, in order of first appearance, one for every element and each from some element |
| Grouping.Members | backend/geo_housing_mapper.py:403 | the elements of a key, in input order, all with that key |
| Grouping.MembersComplete | backend/geo_housing_mapper.py:403 | every element is among the members of its own key |
| Grouping.GroupFold | backend/geo_housing_mapper.py:399-409 | the defaultdict loop: a key is present exactly when some element has it, and its entry is the fold of its members |
| Grouping.BigGroupsSound | backend/geo_housing_mapper.py:413-414 | every entry kept by `count >= 2` is built from a key with at least two members |
| Grouping.BigGroupsComplete | backend/geo_housing_mapper.py:413-414 | every key with at least two members gives an entry |
| Grouping.BigGroupsDistinct | backend/geo_housing_mapper.py:413-414 | entries named by their key have distinct names |
| Grouping.AllGroupsCount | backend/simple_demand_predictor.py:503-515 | the per-key counts add up to the number of elements those keys cover |
| Grouping.GroupSizesTotal | backend/simple_demand_predictor.py:503-515 | the members of all keys together are all the elements |
| Grouping.FirstPerKey | backend/housing_demand_predictor.py:486-492 | the seen-set loop keeps entries with distinct keys, none of them already seen, and never more than its input |
| Grouping.FirstPerKeySubsequence | backend/housing_demand_predictor.py:486-492 | the kept entries keep their input order |
| Grouping.FirstPerKeyIsFirst | backend/housing_demand_predictor.py:486-492 | every kept entry is the first of its key in the input |
| Grouping.FirstPerKeyComplete | backend/housing_demand_predictor.py:486-492 | every key that was not already seen gets an entry |
| Grouping.FirstPerKeyBest | backend/housing_demand_predictor.py:483-492 | over a list sorted by demand, the entry kept for a key has the highest demand of that key |
| Grouping.KeepLimit | backend/housing_demand_predictor.py:493-494 | the break is tested after the append, so the cap is max(top_k, 1): a non-empty input always keeps at least one entry, and the cap is exactly top_k when top_k is at least 1 |
| Grouping.FirstPerKeyUpTo | backend/housing_demand_predictor.py:486-494 | the early break keeps a prefix of the deduplicated list, at most KeepLimit(top_k) long |
| Grouping.TakeFirstPerKey | backend/housing_demand_predictor.py:486-494 | the loop with the seen set, the unique list and the break computes FirstPerKeyUpTo |
| Grouping.CountValues | python-analysis/real_estate_analysis.py:90-96 | the counting dict holds each value once, in order of first appearance, with its number of occurrences |
| GeoHousingMapper.ExtractPrice | backend/geo_housing_mapper.py:143-169 | an empty price is 0, and no price is negative |
| GeoHousingMapper.ExtractAreaSqft | backend/geo_housing_mapper.py:171-192 | an empty area is 0, and no area is negative |
| GeoHousingMapper.PricePoints | backend/geo_housing_mapper.py:198-207 | price accessibility scores between 0 and 30, and 0 exactly when there is no positive price |
| GeoHousingMapper.PricePointsInverse | backend/geo_housing_mapper.py:199-207 | a dearer listing never scores more on price |
| GeoHousingMapper.LocationPoints | backend/geo_housing_mapper.py:209-217 | location desirability lies between 15 and 25 |
| GeoHousingMapper.ConnectivityPoints | backend/geo_housing_mapper.py:219-223 | 5 per connectivity keyword found, within 0 to 20, so the cap never binds |
| GeoHousingMapper.InvestmentPoints | backend/geo_housing_mapper.py:225-228 | the investment term is 0 or 15 |
| GeoHousingMapper.AmenityPoints | backend/geo_housing_mapper.py:230-233 | 2 per amenity keyword found, within 0 to 10, so the cap never binds |
| GeoHousingMapper.DemandScore | backend/geo_housing_mapper.py:196-233 | definition of the uncapped score as the sum of the five terms; DemandScoreRange, DemandScoreTop and DemandScoreCheaper state its properties |
| GeoHousingMapper.DemandScoreRange | backend/geo_housing_mapper.py:196-235 | the score always lies in [15, 100], so the final cap at 100 never changes it |
| GeoHousingMapper.DemandScoreTop | backend/geo_housing_mapper.py:196-233 | the score is 100 exactly when the price is positive and at most 3, the address names a prime location, every connectivity and every amenity keyword is near, and the description names an investment keyword |
| GeoHousingMapper.DemandScoreCheaper | backend/geo_housing_mapper.py:198-207 | of two listings alike but for a positive price, the cheaper never scores less |
| GeoHousingMapper.CalculateDemandScore | backend/geo_housing_mapper.py:194-235 | the score built up term by term and capped is the five-term sum and lies in [15, 100] |
| GeoHousingMapper.AreaLabel | backend/geo_housing_mapper.py:256-270 | definition of the area label, in the source's test order; AreaLabelDlf, AreaLabelSushantLok and AreaLabelSector state each branch |
| GeoHousingMapper.AreaLabelDlf | backend/geo_housing_mapper.py:259-264 | a DLF address is "dlf_phase_" and its phase number, or phase 1 when it names none, whatever else it mentions |
| GeoHousingMapper.AreaLabelSushantLok | backend/geo_housing_mapper.py:265-266 | otherwise Sushant Lok wins over any sector |
| GeoHousingMapper.AreaLabelSector | backend/geo_housing_mapper.py:267-270 | otherwise "sector_" and the first sector group, or "unknown" when there is none |
| GeoHousingMapper.CityLabel | backend/geo_housing_mapper.py:272-277 | the city is faridabad whenever "faridabad" occurs, otherwise delhi when "delhi" occurs, otherwise gurgaon, each side of every case proved |
| GeoHousingMapper.ShortDescription | backend/geo_housing_mapper.py:304 | a description of at most 200 characters is unchanged; a longer one becomes its first 200 characters and "..." |
| GeoHousingMapper.ToProperty | backend/geo_housing_mapper.py:247-304 | definition of the record built from a row with its labels, coordinates and score; ToPropertyFacts states what it holds |
| GeoHousingMapper.MapDataset | backend/geo_housing_mapper.py:244-311 | definition of one dataset's loop: the rows with a positive price and area, in order, numbered from the records before them; MapDatasetFacts states its properties |
| GeoHousingMapper.PropertiesForMapping | backend/geo_housing_mapper.py:237-384 | definition of the houses records followed by the cleaned records; MappingRecords states its properties |
| GeoHousingMapper.ToPropertyFacts | backend/geo_housing_mapper.py:289-306 | a record carries its dataset and number as id, a positive price and area, and a score in [15, 100] |
| GeoHousingMapper.MapDatasetFacts | backend/geo_housing_mapper.py:244-311 | one dataset gives one record per row with a positive price and area, numbered consecutively from the records before it |
| GeoHousingMapper.MappingRecords | backend/geo_housing_mapper.py:241-384 | the houses records come first; each record's id is its dataset and its position in the output, so ids are distinct; every record has a positive price and area and a score in [15, 100] |
| GeoHousingMapper.ProcessPropertiesForMapping | backend/geo_housing_mapper.py:237-384 | the two row loops with their skip rule compute the records PropertiesForMapping describes |
| GeoHousingMapper.AccumulatedSnoc | backend/geo_housing_mapper.py:399-409 | one iteration of the accumulation loop turns a key's totals into the totals of the longer member list |
| GeoHousingMapper.GroupByArea | backend/geo_housing_mapper.py:390-409 | the defaultdict holds, for each `city_area` key in order of first appearance, the totals of that key's properties |
| GeoHousingMapper.HotspotOfTotals | backend/geo_housing_mapper.py:413-437 | the hotspot built from a key's running totals is the hotspot of its properties |
| GeoHousingMapper.HotspotOf | backend/geo_housing_mapper.py:413-437 | definition of one key's hotspot: the group's averages, its last property's area and city, the intensity min(avg/100, 1) of the exact average, and the demand and prices rounded to one decimal; HotspotFigures and HotspotIntensityOfScoredGroup state its properties |
| GeoHousingMapper.DemandHotspots | backend/geo_housing_mapper.py:386-445 | definition of create_demand_hotspots: one hotspot per key with at least two properties, in first-appearance order, stably sorted by the rounded demand score; HotspotsOrdered, HotspotForBigGroup and HotspotOfItsGroup state its properties |
| GeoHousingMapper.HotspotsFromGroups | backend/geo_housing_mapper.py:411-439 | the second loop emits a hotspot for every key with at least two properties, in key order |
| GeoHousingMapper.CreateDemandHotspots | backend/geo_housing_mapper.py:386-445 | group, build and sort on the rounded demand_score compute DemandHotspots |
| GeoHousingMapper.HotspotsOrdered | backend/geo_housing_mapper.py:428-442 | hotspots are ordered by their stored demand score (rounded to one decimal), highest first, with distinct ids |
| GeoHousingMapper.HotspotForBigGroup | backend/geo_housing_mapper.py:413-414 | every key with at least two properties has a hotspot |
| GeoHousingMapper.HotspotOfItsGroup | backend/geo_housing_mapper.py:413-437 | every hotspot comes from a key with at least two properties and is built from exactly those |
| GeoHousingMapper.HotspotFigures | backend/geo_housing_mapper.py:415-436 | property_count equals total_properties, the rounded average price lies between the rounded min and max, and the intensity is at most 1 and, below 1, 100 × intensity is within 0.05 of the rounded demand |
| GeoHousingMapper.HotspotIntensityOfScoredGroup | backend/geo_housing_mapper.py:415-428 | over records scored in [15, 100], the rounded demand stays in that range, and the intensity lies in [0.15, 1] and is the exact average over 100, so its cap never binds |
| GeoHousingMapper.HeatmapData | backend/geo_housing_mapper.py:447-460 | one heatmap point per property |
| GeoHousingMapper.HeatmapOfMappedRecords | backend/geo_housing_mapper.py:447-460 | each point is its record's latitude, longitude and demand/100, and lies in [0.15, 1] for mapped records |
| SimpleDemandPredictor.ExtractPrice | backend/simple_demand_predictor.py:65-97 | an empty price is 0, and no price is negative |
| SimpleDemandPredictor.ExtractArea | backend/simple_demand_predictor.py:99-122 | an empty area is 0, and no area is negative |
| SimpleDemandPredictor.ExtractLocationInfo | backend/simple_demand_predictor.py:124-157 | an empty address gives "unknown" for area, city and sector |
| SimpleDemandPredictor.AreaOf | backend/simple_demand_predictor.py:146-155 | definition of the area label: the sector unless a DLF address (its phase, or plain "dlf") or Sushant Lok overrides it; LocationAreaIsSector, LocationAreaDlf and LocationAreaSushantLok state each branch |
| SimpleDemandPredictor.LocationAreaIsSector | backend/simple_demand_predictor.py:146-147 | without DLF or Sushant Lok the area is the sector, and "unknown" exactly when no sector matches |
| SimpleDemandPredictor.LocationAreaDlf | backend/simple_demand_predictor.py:148-153 | a DLF address's area is "dlf_phase_" and its phase, or plain "dlf" exactly when it names no phase; its sector is still read |
| SimpleDemandPredictor.LocationAreaSushantLok | backend/simple_demand_predictor.py:154-155 | otherwise Sushant Lok overrides the sector as the area |
| SimpleDemandPredictor.PriceAccessibility | backend/simple_demand_predictor.py:169-179 | price accessibility lies in [0, 1], and at least 0.3 for any positive price |
| SimpleDemandPredictor.PriceAccessibilityInverse | backend/simple_demand_predictor.py:170-179 | a dearer listing never has a higher accessibility |
| SimpleDemandPredictor.LocationDesirability | backend/simple_demand_predictor.py:181-189 | location desirability lies in [0.5, 1] |
| SimpleDemandPredictor.DemandFactors | backend/simple_demand_predictor.py:159-209 | all five factors lie in [0, 1], have their floors when the price is positive, and connectivity and amenities are the keyword counts over 4 and 5 |
| SimpleDemandPredictor.CalculateDemandFactors | backend/simple_demand_predictor.py:159-209 | filling the factor dict field by field computes DemandFactors |
| SimpleDemandPredictor.Process | backend/simple_demand_predictor.py:220-241 | definition of the record built from a row, the location info overwriting the area text; ProcessFacts states what it holds |
| SimpleDemandPredictor.ProcessedDataset | backend/simple_demand_predictor.py:218-247 | definition of one dataset's loop: the records of the rows with a positive price and area, in order; ProcessedDatasetOrder and ProcessedDatasetWellFormed state its properties |
| SimpleDemandPredictor.ProcessedData | backend/simple_demand_predictor.py:211-282 | definition of process_data: the houses records, then the cleaned ones; ProcessedDataOrder and ProcessedDataWellFormed state its properties |
| SimpleDemandPredictor.ProcessFacts | backend/simple_demand_predictor.py:220-241 | a kept row's record has a positive price and area, its dataset tag, and factors in [0, 1] that have their floors |
| SimpleDemandPredictor.ProcessedDatasetOrder | backend/simple_demand_predictor.py:218-247 | one dataset's records are its rows with a positive price and area, in order |
| SimpleDemandPredictor.ProcessedDatasetWellFormed | backend/simple_demand_predictor.py:218-247 | every record of a dataset is well formed and tagged with the dataset |
| SimpleDemandPredictor.ProcessedDataOrder | backend/simple_demand_predictor.py:215-282 | the houses records come first, then the cleaned ones, each in input order |
| SimpleDemandPredictor.ProcessedDataWellFormed | backend/simple_demand_predictor.py:215-282 | every processed record is well formed, tagged houses before cleaned |
| SimpleDemandPredictor.ProcessData | backend/simple_demand_predictor.py:211-282 | the two row loops compute ProcessedData |
| SimpleDemandPredictor.StatsSnoc | backend/simple_demand_predictor.py:301-312 | one iteration of the statistics loop turns a key's totals into the totals of the longer member list |
| SimpleDemandPredictor.CollectLocationStats | backend/simple_demand_predictor.py:288-312 | the defaultdict holds, for each `city_area` key in order of first appearance, the totals of its properties |
| SimpleDemandPredictor.WeightedScore | backend/simple_demand_predictor.py:321-337 | definition of the weighted score: the factor averages weighted 25/20/20/20/15 plus min(count/20, 1)·10; TrendScoreBounds states its range |
| SimpleDemandPredictor.TrendOf | backend/simple_demand_predictor.py:317-346 | definition of one location's analysis from its records; TrendOfGroup and TrendScoreBounds state its properties |
| SimpleDemandPredictor.LocationTrends | backend/simple_demand_predictor.py:284-349 | definition of analyze_location_trends: one analysis per key with at least two records, in first-appearance order; LocationTrendsCover, LocationTrendsComplete and LocationTrendsDistinct state its properties |
| SimpleDemandPredictor.TrendStep | backend/simple_demand_predictor.py:316-347 | one iteration of the second loop adds a trend exactly when the key has at least two properties |
| SimpleDemandPredictor.TrendsFromStats | backend/simple_demand_predictor.py:315-347 | the second loop emits one trend per key with at least two properties, in key order |
| SimpleDemandPredictor.AnalyzeLocationTrends | backend/simple_demand_predictor.py:284-349 | both loops together compute LocationTrends |
| SimpleDemandPredictor.TrendScoreBounds | backend/simple_demand_predictor.py:317-345 | over processed records the demand score lies in [24.5, 100], and the price per square foot is never negative |
| SimpleDemandPredictor.TrendOfGroup | backend/simple_demand_predictor.py:338-346 | a trend names its key, counts its properties, and samples their first three at most |
| SimpleDemandPredictor.LocationTrendsCover | backend/simple_demand_predictor.py:316-317 | every trend comes from a key with at least two properties |
| SimpleDemandPredictor.LocationTrendsComplete | backend/simple_demand_predictor.py:316-317 | every key with at least two properties has a trend |
| SimpleDemandPredictor.LocationTrendsDistinct | backend/simple_demand_predictor.py:315-338 | trend locations are distinct |
| SimpleDemandPredictor.PipelineScores | backend/simple_demand_predictor.py:321-344 | every trend of the processed data scores in [24.5, 100] |
| SimpleDemandPredictor.CategorizeInvestment | backend/simple_demand_predictor.py:454-465 | the grade is picked by the thresholds 80/65/50/35 reached |
| SimpleDemandPredictor.Recommendation | backend/simple_demand_predictor.py:467-478 | the advice is picked by the same thresholds reached; the property count is not used |
| SimpleDemandPredictor.GradeMonotone | backend/simple_demand_predictor.py:454-465 | a higher score never gets a lower grade |
| SimpleDemandPredictor.AdviceFollowsGrade | backend/simple_demand_predictor.py:454-478 | two scores get the same advice exactly when they get the same grade |
| SimpleDemandPredictor.SpotOf | backend/simple_demand_predictor.py:363-374 | definition of a hotspot dict: the score rounded to one decimal, the grade and advice from the unrounded score; GradeBeforeRounding shows the difference |
| SimpleDemandPredictor.DemandHotspots | backend/simple_demand_predictor.py:350-378 | definition of predict_demand_hotspots: the trends stably sorted by unrounded score, cut by `[:top_k]`, each made a hotspot; DemandHotspotsRanked, DemandHotspotsChosen, TopHotspotIsBest and DemandHotspotsDistinct state its properties |
| SimpleDemandPredictor.PredictDemandHotspots | backend/simple_demand_predictor.py:351-378 | sorting the trends and taking `[:top_k]` computes DemandHotspots |
| SimpleDemandPredictor.DemandHotspotsRanked | backend/simple_demand_predictor.py:355-376 | the hotspots number PyStop(top_k, trends) and are sorted by their rounded score; the i-th is the i-th trend in score order, graded by its unrounded score; no trend left out rounds above a kept one |
| SimpleDemandPredictor.DemandHotspotsChosen | backend/simple_demand_predictor.py:362-376 | every hotspot is built from one of the trends |
| SimpleDemandPredictor.TopHotspotIsBest | backend/simple_demand_predictor.py:355-368 | the first hotspot's score is at least every trend's score rounded |
| SimpleDemandPredictor.GradeBeforeRounding | backend/simple_demand_predictor.py:368-372 | a score of 79.96 is shown as 80.0 and graded "Very Good", because the grade reads the unrounded score |
| SimpleDemandPredictor.DemandHotspotsDistinct | backend/simple_demand_predictor.py:363-365 | distinct trend locations give distinct hotspot ids |
| SimpleDemandPredictor.AssignPriority | backend/simple_demand_predictor.py:542-553 | the priority is picked by the thresholds 95/80/65 that demand plus growth times 100 reaches |
| SimpleDemandPredictor.PriorityMonotone | backend/simple_demand_predictor.py:542-553 | a higher score or a higher growth never lowers the priority |
| SimpleDemandPredictor.PriorityExamples | backend/simple_demand_predictor.py:542-553 | with 15% growth a score of 80 is critical; with 8% a score below 87 is not |
| SimpleDemandPredictor.CityStatsSnoc | backend/simple_demand_predictor.py:503-507 | one iteration of the city loop turns a city's totals into those of the longer list |
| SimpleDemandPredictor.CollectCityStats | backend/simple_demand_predictor.py:501-507 | the defaultdict holds, for each city in order of first appearance, the totals of its hotspots |
| SimpleDemandPredictor.CityEntries | backend/simple_demand_predictor.py:509-517 | one ranking entry per city, in order of first appearance, built from that city's hotspots |
| SimpleDemandPredictor.RankCities | backend/simple_demand_predictor.py:499-519 | definition of _rank_cities: the city entries, with their averages rounded to one decimal, stably sorted by that rounded average; RankCitiesFacts and RankingFigures state its properties |
| SimpleDemandPredictor.RankCitiesLoop | backend/simple_demand_predictor.py:499-519 | both loops and the sort on the rounded avg_demand_score compute RankCities |
| SimpleDemandPredictor.RankCitiesFacts | backend/simple_demand_predictor.py:499-519 | one entry per city, sorted by the rounded average demand it stores, highest first, with hotspot counts that sum to the number of hotspots |
| SimpleDemandPredictor.RankingFigures | backend/simple_demand_predictor.py:510-517 | a city's entry has its title-cased name, counts its hotspots, has a rounded average between their rounded lowest and highest demand, and lists the first three areas |
| SimpleDemandPredictor.CityRecommendations | backend/simple_demand_predictor.py:521-540 | 5 to 7 items, with the fixed five last and the Gurgaon and Faridabad items present exactly when a hotspot is in that city |
| HousingDemandPredictor.PhaseLabel | backend/housing_demand_predictor.py:85-88 | "phase_" and the first phase group, or "unknown" |
| HousingDemandPredictor.ExtractLocationFeatures | backend/housing_demand_predictor.py:60-108 | a missing or empty address gives all unknown and 0; otherwise the area is the sector, the phase and city are read independently, and the prime flag is 1 exactly when a prime area occurs |
| HousingDemandPredictor.PrimeAreasAgree | backend/housing_demand_predictor.py:98-100 | this script's prime areas are the map's prime locations in another order |
| HousingDemandPredictor.ExtractPrice | backend/housing_demand_predictor.py:247-279 | a missing or empty price is 0, and no price is negative |
| HousingDemandPredictor.ExtractArea | backend/housing_demand_predictor.py:300-323 | a missing or empty area is 0, and no area is negative |
| HousingDemandPredictor.ExtractNumeric | backend/housing_demand_predictor.py:281-298 | missing is 0; a number is truncated towards zero; a text gives a non-negative integer |
| HousingDemandPredictor.NumericFirstRun | backend/housing_demand_predictor.py:291-294 | a text gives the value of its first run of digits |
| HousingDemandPredictor.NumericNoDigits | backend/housing_demand_predictor.py:292-298 | a text without digits gives 0 |
| HousingDemandPredictor.NumericPlusSuffix | backend/housing_demand_predictor.py:292-294 | "3+" gives 3 |
| HousingDemandPredictor.EncodeAgeAsWritten | backend/housing_demand_predictor.py:325-345 | the keyword chain as written: missing text is 5, and every result is one of 0, 1, 3, 5, 7, 12, 20 |
| HousingDemandPredictor.ZeroToOneInTenToFifteen | backend/housing_demand_predictor.py:334-341 | "0 to 1" occurs inside "10 to 15" |
| HousingDemandPredictor.AgeTenToFifteenReadsAsOne | backend/housing_demand_predictor.py:334-341 | any age text containing "10 to 15", and neither "new" nor "under construction", encodes to 1 |
| HousingDemandPredictor.AgeTwelveUnreachable | backend/housing_demand_predictor.py:340-341 | no age text encodes to 12 |
| HousingDemandPredictor.EncodeAgeIntended | backend/housing_demand_predictor.py:325-345 | the keyword chain with "10 to 15" tested before "0 to 1": missing text is 5, results from the same set |
| HousingDemandPredictor.AgeIntendedFixesTenToFifteen | backend/housing_demand_predictor.py:332-345 | the corrected chain gives 12 for such a text, and agrees with the written chain on every text without "10 to 15" |
| HousingDemandPredictor.AgeCounterexample | backend/housing_demand_predictor.py:334-341 | "10 to 15" encodes to 1 as written and to 12 as intended |
| HousingDemandPredictor.InvestmentPotential | backend/housing_demand_predictor.py:478 | High above 70, Medium above 50, Low otherwise |
| HousingDemandPredictor.PotentialMonotone | backend/housing_demand_predictor.py:478 | a higher prediction never gets a lower label |
| HousingDemandPredictor.ToHotspot | backend/housing_demand_predictor.py:469-480 | definition of the result dict built for one prediction, its potential labelled by InvestmentPotential; TopHotspotsFromInput states that every kept entry is one of these |
| HousingDemandPredictor.RankedHotspots | backend/housing_demand_predictor.py:483 | one entry per prediction, sorted by predicted demand, highest first |
| HousingDemandPredictor.TopHotspots | backend/housing_demand_predictor.py:483-496 | at most KeepLimit(top_k) entries |
| HousingDemandPredictor.PredictDemandHotspots | backend/housing_demand_predictor.py:467-496 | building the entries, sorting in place and the seen-set loop with its break compute TopHotspots |
| HousingDemandPredictor.TopHotspotsRanked | backend/housing_demand_predictor.py:483-494 | at most KeepLimit(top_k) entries, with distinct `city_area` keys, sorted by demand, and in the ranked order |
| HousingDemandPredictor.TopHotspotsFromInput | backend/housing_demand_predictor.py:468-494 | every entry comes from one of the predictions |
| HousingDemandPredictor.TopHotspotsBestOfArea | backend/housing_demand_predictor.py:483-494 | an entry has the highest predicted demand of its area |
| HousingDemandPredictor.TopHotspotsAllAreas | backend/housing_demand_predictor.py:486-494 | when the limit is not reached, every area of the input has an entry |
| HousingDemandPredictor.GenerateRecommendation | backend/housing_demand_predictor.py:567-579 | the advice is picked by the strict thresholds 80/60/40 exceeded |
| HousingDemandPredictor.RecommendationMonotone | backend/housing_demand_predictor.py:572-579 | a higher demand exceeds at least as many thresholds |
| RealEstateAnalysis.Median | python-analysis/real_estate_analysis.py:51 | the median of a sorted list lies between its first and last element |
| RealEstateAnalysis.Summarize | python-analysis/real_estate_analysis.py:43-51 | definition of the statistics dict over the sorted values; SummarizeFacts states its properties |
| RealEstateAnalysis.SummarizeFacts | python-analysis/real_estate_analysis.py:43-51 | count, min and max of a sorted list, with the median and the mean between min and max |
| RealEstateAnalysis.PriceValue | python-analysis/real_estate_analysis.py:29-36 | definition of one row's price: the field without "Crore" and "crore", stripped and read by float(), below 100 in field 'price' taken as crores; MissingPriceIsZero, CrorePriceInRupees and CroreWordRemoved state cases of it |
| RealEstateAnalysis.Prices | python-analysis/real_estate_analysis.py:25-38 | definition of the prices the loop collects; PricesFromRows states its properties |
| RealEstateAnalysis.PriceAnalysisOf | python-analysis/real_estate_analysis.py:23-53 | definition of analyze_price_data: PriceReport of the collected prices, which sorts them; PriceReportFacts states its properties |
| RealEstateAnalysis.CollectPrices | python-analysis/real_estate_analysis.py:25-38 | the conversion loop computes Prices |
| RealEstateAnalysis.PricesFromRows | python-analysis/real_estate_analysis.py:27-41 | every collected price comes from a row, and none is collected exactly when no row converts |
| RealEstateAnalysis.MissingPriceIsZero | python-analysis/real_estate_analysis.py:29-36 | a row without the field reads as the default "0", so as 0 |
| RealEstateAnalysis.CrorePriceInRupees | python-analysis/real_estate_analysis.py:29-36 | "1.5 Crore" in the price field is 15,000,000 rupees |
| RealEstateAnalysis.CroreWordRemoved | python-analysis/real_estate_analysis.py:32 | removing "Crore" from "1.5 Crore" leaves "1.5 " |
| RealEstateAnalysis.PriceReport | python-analysis/real_estate_analysis.py:40-53 | the report is the error exactly when no price was collected |
| RealEstateAnalysis.PriceReportFacts | python-analysis/real_estate_analysis.py:40-53 | otherwise it counts the prices, its min and max bound them all and are among them, the median and mean lie between, and the sample is the 10 or fewer smallest, ascending |
| RealEstateAnalysis.AnalyzePriceData | python-analysis/real_estate_analysis.py:23-53 | the loop, the sort and the summary compute PriceAnalysisOf |
| RealEstateAnalysis.StatsOfValues | python-analysis/real_estate_analysis.py:43-51 | summarising the sorted values bounds every value between min and max |
| RealEstateAnalysis.SampleOfValues | python-analysis/real_estate_analysis.py:43-52 | the sample has min(10, n) values, ascending, each one of the input |
| RealEstateAnalysis.SortedValuesBound | python-analysis/real_estate_analysis.py:43-49 | after sorting, the first and last elements are the input's min and max |
| RealEstateAnalysis.AreaValue | python-analysis/real_estate_analysis.py:59-70 | a row yields an area exactly when its comma-free field has a `\d+\.?\d*` match, and the area is never negative |
| RealEstateAnalysis.DecimalTokenParses | python-analysis/real_estate_analysis.py:67-69 | a `\d+\.?\d*` match always converts, so this conversion never raises |
| RealEstateAnalysis.Areas | python-analysis/real_estate_analysis.py:57-72 | definition of the areas the loop collects; AreasFromRows states its properties |
| RealEstateAnalysis.AreaAnalysisOf | python-analysis/real_estate_analysis.py:55-86 | definition of analyze_area_data: AreaReport of the collected areas, which sorts them; AreaReportFacts states its properties |
| RealEstateAnalysis.AreaReport | python-analysis/real_estate_analysis.py:74-86 | the report is the error exactly when no area was collected |
| RealEstateAnalysis.AreaReportFacts | python-analysis/real_estate_analysis.py:74-86 | otherwise count, min, max, median and mean as for prices |
| RealEstateAnalysis.AnalyzeAreaData | python-analysis/real_estate_analysis.py:55-86 | the loop, the sort and the summary compute AreaAnalysisOf |
| RealEstateAnalysis.AreasFromRows | python-analysis/real_estate_analysis.py:59-75 | every area comes from a row, and none is collected exactly when no row has a match |
| RealEstateAnalysis.CategoryValue | python-analysis/real_estate_analysis.py:92-95 | an empty field is skipped, a missing one counts as "Unknown", and one of only whitespace counts as "" |
| RealEstateAnalysis.CategoryValues | python-analysis/real_estate_analysis.py:90-95 | definition of the values the loop counts, in row order; CategoryCountsAt states their counts |
| RealEstateAnalysis.CategoryCounts | python-analysis/real_estate_analysis.py:90-96 | definition of the counts dict's items: one count per distinct value, in first-appearance order; CategoryCountsAt and TopCategoriesCounted state its properties |
| RealEstateAnalysis.CountCategories | python-analysis/real_estate_analysis.py:90-96 | the counting loop computes CategoryCounts |
| RealEstateAnalysis.CategoryCountsAt | python-analysis/real_estate_analysis.py:90-96 | one count per distinct value, in order of first appearance, and the counts sum to the values counted |
| RealEstateAnalysis.TopCategories | python-analysis/real_estate_analysis.py:98-100 | at most 10 entries |
| RealEstateAnalysis.AnalyzeCategoricalData | python-analysis/real_estate_analysis.py:88-100 | counting, sorting and the top-10 slice compute TopCategories |
| RealEstateAnalysis.TopCategoriesShape | python-analysis/real_estate_analysis.py:98-100 | at most 10 entries, counts non-increasing, values distinct, counts summing to at most the number of rows |
| RealEstateAnalysis.TopCategoriesCounted | python-analysis/real_estate_analysis.py:90-100 | every entry's count is the number of rows with its value, at least 1 |
| RealEstateAnalysis.TopCategoriesTies | python-analysis/real_estate_analysis.py:99-100 | the result is a prefix of the stable sort, and values with equal counts keep their first-appearance order |
| MapApiServer.Limited | backend/map_api_server.py:163-164 | a limit of None or 0 keeps all, a positive limit keeps that many at most, and a negative one drops that many from the end |
| MapApiServer.ByCityIsFilter | backend/map_api_server.py:153-154 | the city filter keeps exactly the items whose city equals the given one case-insensitively, and is off when no city is given |
| MapApiServer.ByMinDemandIsFilter | backend/map_api_server.py:156-157 | the demand filter keeps exactly the items scoring at least the minimum, a missing score counting as 0 |
| MapApiServer.ByMaxPriceIsFilter | backend/map_api_server.py:159-160 | the price filter keeps exactly the items priced at most the maximum, a missing price counting as 0 |
| MapApiServer.SelectionFacts | backend/map_api_server.py:152-164 | filter then limit gives an order-preserving subsequence whose items all pass, and all passing items when there is no limit |
| MapApiServer.GetProperties | backend/map_api_server.py:138-169 | 500 exactly when the map data is missing, otherwise total_count is the number returned |
| MapApiServer.GetPropertiesSelects | backend/map_api_server.py:150-169 | the properties are the filtered list with the limit applied after the filters |
| MapApiServer.GetPropertiesFacts | backend/map_api_server.py:150-164 | each returned property passes every given filter, the order is kept, and without a limit every passing property is returned |
| MapApiServer.GetHotspots | backend/map_api_server.py:171-198 | 500 exactly when the map data is missing, otherwise total_count is the number returned |
| MapApiServer.GetHotspotsSelects | backend/map_api_server.py:182-198 | the hotspots are the city- and score-filtered list with the limit applied last |
| MapApiServer.GetHotspotsFacts | backend/map_api_server.py:182-193 | each returned hotspot passes both filters, the order is kept, and without a limit every passing hotspot is returned |
| MapApiServer.SearchByArea | backend/map_api_server.py:235-259 | 500 when the map data is missing, 404 with the area's name exactly when no property matches, otherwise the statistics |
| MapApiServer.SearchNotFound | backend/map_api_server.py:243-246 | 404 exactly when no property's area contains the name case-insensitively |
| MapApiServer.SearchByAreaMatches | backend/map_api_server.py:242-258 | the result names the area, counts its properties, and holds exactly the matching properties in order |
| MapApiServer.SearchByAreaMeans | backend/map_api_server.py:248-257 | the average demand and the average price are taken over the matches, rounded to one decimal, and lie between their rounded minimum and maximum |
| MapApiServer.GetTopHotspots | backend/map_api_server.py:261-275 | 500 exactly when the map data is missing; otherwise the requested count is echoed and returned_count is the number returned |
| MapApiServer.TopHotspotsPrefix | backend/map_api_server.py:268-269 | for count ≥ 0 the first min(count, len) hotspots, all of them when count is at least their number, and for a negative count the list without its last -count |
| ParserCopies.PriceReadersAgree | backend/simple_demand_predictor.py:65-97 | the map's, the simple predictor's and the ML predictor's price readers give the same value on every text |
| ParserCopies.AreaReadersAgree | backend/simple_demand_predictor.py:99-122 | the three area readers give the same value on every text |
| ParserCopies.AreaLabelsDifferOnlyOnDlf | backend/simple_demand_predictor.py:146-155 | the map's area label and the simple predictor's area differ exactly on a DLF address without a phase: "dlf_phase_1" against "dlf" |
| ParserCopies.CityLabelsAgree | backend/geo_housing_mapper.py:272-277 | the map's city and the predictors' city agree exactly when the address names Gurgaon and neither Faridabad nor Delhi, or names no Gurgaon but Faridabad or Delhi |
| ParserCopies.HousingAreaIsSector | backend/housing_demand_predictor.py:79-83 | the ML predictor's area is the simple predictor's sector |

## Left out

- File and network I/O is not modelled, nor is printing:
  - loading and saving datasets and results;
  - the map API's cached `load_map_data`.

  The map API takes its data as a parameter: missing data is `None` or an empty object.
- `extract_coordinates` is not modelled, because it adds random offsets. Each record's
  coordinates are supplied by the caller as a function of the row's address, area and
  city and the record number. The map bounds and centre computed from them in
  `generate_map_data` are left out too.
- `generate_2year_forecast` is not modelled in either predictor, and neither is
  `_analyze_market_trends`. They use float exponentiation, the current date and date
  formatting. Only the priority rule `_assign_priority` is modelled.
- The ML pipeline is not modelled: DataFrame preprocessing, the frame-wide
  `calculate_demand_score`, feature encoding, scaling, training and persistence.
  `predict_demand_hotspots` is modelled from the list of predictions onwards. Each
  prediction supplies the row's fields and the predicted demand.
- `calculate_price_correlations` is not modelled, because it uses square roots over
  floats. `house_price_analysis.py`, `simple_house_analysis.py` and `api_server.py`
  are not part of this model.
- `round(x, 1)` is `Numbers.Round1`: the exact value rounded to the nearest tenth, a
  tie going to the even tenth. Python rounds the binary float nearest to the value,
  so on a value such as 0.35, which no float holds exactly, the two may differ by a
  tenth. Every stored `round(…, 1)` of the modelled code is rounded in the model, and
  the sorts on rounded values sort on the rounded value. The string formatting of
  prices, areas and record ids is left out; a record id is its dataset and number.
- The map API's other endpoints (configuration, heatmap, statistics, all data,
  health), the exception handlers and request validation are not modelled.
- Floating-point arithmetic is modelled as exact real arithmetic. `float()` is modelled
  only on the tokens the regular expressions produce, and on signed decimals in
  `analyze_price_data`. Exponents, "inf" and "nan" are not accepted.
- `str.lower()`, `str.title()` and `str.strip()` are modelled on ASCII. Case and
  whitespace outside ASCII are kept as they are.
- The regex classes `\d` and `\s` are modelled on ASCII only (`Text.IsDigit`,
  `Text.IsSpace`). On Python strings they also match other Unicode digits and
  whitespace, and `float()` and `int()` accept Unicode digits too; such text is read
  by the model as holding no digit or space there.
- Numbers.ParseSignedDecimal: does not accept the underscores that `float()` allows
  between digits, so the price loop of `analyze_price_data` skips "1_000", where
  the source collects 1000.0. The `[\d.]+` and `\d+` tokens the other parsers read
  never hold an underscore, so only that loop is affected.
- A CSV cell that holds `None`, and non-string JSON values, are not modelled. Every
  field is a string, and JSON numbers are reals.
- The `try`/`except` paths that catch unexpected exceptions are not modelled. The only
  conversion that can fail in these parsers is `float()`, and it is modelled as
  returning nothing. A row with missing fields takes the defaults.
- Sorting is modelled on sequences rather than in place. The predictor's
  `results.sort(...)` is a stable sort of the sequence, so aliasing of the list is not
  modelled.
- HousingDemandPredictor.GenerateRecommendation: does not model the conversion of
  `current_price_range` back to a float, whose value is never used.
- HousingDemandPredictor.TopHotspots: for top_k ≤ 0 the cap is still max(top_k, 1) = 1,
  because the break is tested after the append, so a non-empty input keeps one entry.
  The model keeps that behaviour rather than returning an empty list.

## Findings

| source | as written | input that shows it | evidently intended | confidence | as-written member | corrected member |
|---|---|---|---|---|---|---|
| backend/housing_demand_predictor.py:334-341 | `_encode_age` tests "0 to 1" before "10 to 15"; "0 to 1" occurs inside "10 to 15", so the 12 branch can never fire | "10 to 15" encodes to 1 | a 10–15 year old property encodes to 12 | not executed | HousingDemandPredictor.AgeCounterexample | HousingDemandPredictor.AgeIntendedFixesTenToFifteen |
