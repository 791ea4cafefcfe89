/** The domain predicates of `src/utils/domain/zoningRules.js`: status
    tests, the protected-area and PDU tests, and which result cards are
    shown.  Each takes the analysis record, or `None` for a missing one. */
module ZoningRules {
  import opened Wrappers
  import opened JsString
  import opened Classification

  predicate HasStatus(a: Option<Analysis>, s: Status) {
    a.Some? && a.value.status == s
  }

  predicate IsConservationSoil(a: Option<Analysis>) {
    HasStatus(a, ConservationSoil)
  }

  predicate IsUrbanSoil(a: Option<Analysis>) {
    HasStatus(a, UrbanSoil)
  }

  predicate IsOutsideCdmx(a: Option<Analysis>) {
    HasStatus(a, OutsideCdmx)
  }

  /** The protected-area flag, or the ANP zoning key. */
  predicate IsAnp(a: Option<Analysis>) {
    a.Some? && (a.value.isANP || a.value.zoningKey == Some("ANP"))
  }

  /** A non-empty zoning key other than NODATA. */
  predicate HasZoningData(a: Option<Analysis>) {
    !(a.None? || a.value.zoningKey.None? || a.value.zoningKey.value == ""
      || a.value.zoningKey.value == "NODATA")
  }

  /** A non-empty zoning key starting with `PDU_`. */
  predicate HasSpecificPdu(a: Option<Analysis>) {
    a.Some? && a.value.zoningKey.Some? && a.value.zoningKey.value != ""
    && StartsWith(a.value.zoningKey.value, "PDU_")
  }

  predicate ShouldShowNormativeInstrument(a: Option<Analysis>) {
    IsConservationSoil(a) || IsUrbanSoil(a)
  }

  predicate ShouldShowActivitiesCatalog(a: Option<Analysis>) {
    IsConservationSoil(a) && !a.value.isPDU && !a.value.noActivitiesCatalog
  }

  predicate ShouldShowZoningResult(a: Option<Analysis>) {
    if !IsConservationSoil(a) then false
    else if a.value.zoningKey == Some("ANP") then false
    else HasZoningData(a)
  }

  /** Each status test holds exactly for its status, never for `None`, and
      at most one of them holds. */
  lemma StatusTests(a: Option<Analysis>)
    ensures IsConservationSoil(a) <==> a.Some? && a.value.status == ConservationSoil
    ensures IsUrbanSoil(a) <==> a.Some? && a.value.status == UrbanSoil
    ensures IsOutsideCdmx(a) <==> a.Some? && a.value.status == OutsideCdmx
    ensures !(IsConservationSoil(a) && IsUrbanSoil(a))
    ensures !(IsConservationSoil(a) && IsOutsideCdmx(a))
    ensures !(IsUrbanSoil(a) && IsOutsideCdmx(a))
  {
  }

  /** The zoning card needs conservation soil and a key that is neither
      missing, empty, ANP nor NODATA; whenever it shows, the normative
      instrument shows too. */
  lemma ZoningResultShown(a: Option<Analysis>)
    ensures ShouldShowZoningResult(a) <==>
      a.Some? && a.value.status == ConservationSoil && a.value.zoningKey.Some?
      && a.value.zoningKey.value !in {"", "ANP", "NODATA"}
    ensures ShouldShowZoningResult(a) ==> ShouldShowNormativeInstrument(a)
  {
  }

  /** The catalogue shows only on conservation soil, and never for a PDU or
      a record marked as having no catalogue. */
  lemma CatalogShown(a: Option<Analysis>)
    ensures ShouldShowActivitiesCatalog(a) <==>
      a.Some? && a.value.status == ConservationSoil && !a.value.isPDU && !a.value.noActivitiesCatalog
    ensures ShouldShowActivitiesCatalog(a) ==> ShouldShowNormativeInstrument(a) && !IsOutsideCdmx(a)
  {
  }

  /** A specific PDU key is zoning data, and never ANP. */
  lemma SpecificPduHasData(a: Option<Analysis>)
    requires HasSpecificPdu(a)
    ensures HasZoningData(a)
    ensures a.value.zoningKey != Some("ANP")
  {
    var k := a.value.zoningKey.value;
    assert k[..4] == "PDU_";
    assert k[0] == 'P' && |k| >= 4;
  }
}
