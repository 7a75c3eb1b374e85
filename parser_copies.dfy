/** The listing parsers are written out three times, once per script. This module
    compares the copies: the price and area readers agree on every text, and the
    location labels differ in two places, the area of a DLF address without a phase
    and the city of an address that names several cities or none. */
module ParserCopies {
  import opened Wrappers
  import opened Text
  import opened ListingText
  import G = GeoHousingMapper
  import S = SimpleDemandPredictor
  import H = HousingDemandPredictor

  /** The three price readers give the same value for every text. */
  lemma PriceReadersAgree(t: string)
    ensures G.ExtractPrice(t) == S.ExtractPrice(t) == H.ExtractPrice(Some(t))
  {
  }

  /** The three area readers give the same value for every text. */
  lemma AreaReadersAgree(t: string)
    ensures G.ExtractAreaSqft(t) == S.ExtractArea(t) == H.ExtractArea(Some(t))
  {
  }

  /** The map's area label and the simple predictor's area agree except on a DLF
      address that names no phase: the map reads it as phase 1, the predictor as
      plain "dlf". */
  lemma AreaLabelsDifferOnlyOnDlf(s: string)
    ensures G.AreaLabel(s) != S.AreaOf(s) <==> Contains(s, "dlf") && PhaseNumber(s).None?
    ensures Contains(s, "dlf") && PhaseNumber(s).None? ==> G.AreaLabel(s) == "dlf_phase_1" && S.AreaOf(s) == "dlf"
  {
    if Contains(s, "dlf") && PhaseNumber(s).None? {
      assert |G.AreaLabel(s)| != |S.AreaOf(s)|;
    } else if !Contains(s, "dlf") && !Contains(s, "sushant lok") {
      assert S.AreaOf(s) == SectorLabel(s);
    }
  }

  /** The map's city and the predictors' city agree exactly when the address names
      Gurgaon (or Gurugram) and neither Faridabad nor Delhi, or names no Gurgaon but
      Faridabad or Delhi. The map prefers Faridabad, then Delhi, and defaults to
      Gurgaon; the predictors prefer Gurgaon and default to "unknown". */
  lemma CityLabelsAgree(s: string)
    ensures var gurgaon := Contains(s, "gurgaon") || Contains(s, "gurugram");
      var faridabad, delhi := Contains(s, "faridabad"), Contains(s, "delhi");
      G.CityLabel(s) == CityOf(s) <==>
        (gurgaon && !faridabad && !delhi) || (!gurgaon && (faridabad || delhi))
  {
  }

  /** The housing predictor's area is the simple predictor's sector. */
  lemma HousingAreaIsSector(address: string)
    ensures H.ExtractLocationFeatures(Some(address)).area == S.ExtractLocationInfo(address).sector
  {
  }
}
