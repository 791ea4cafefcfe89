/** How the records `analyzeLocation` builds meet the display rules: the
    card predicates of src/utils/domain/zoningRules.js, the citizen
    explanation of src/utils/analysisUtils.js and the header of the mobile
    sheet. */
module EngineViews {
  import opened Wrappers
  import opened JsValue
  import Geometry
  import opened Layers
  import opened Classification
  import opened Engine
  import opened EngineProperties
  import opened ZoningRules
  import opened AnalysisUtils
  import BottomSheet

  /** The record the display code receives for an outcome: none when the
      engine threw. */
  function Shown(o: Outcome): (a: Option<Analysis>)
    ensures a.Some? <==> o.Returned?
    ensures o.Returned? ==> a.value == o.analysis
  {
    if o.Returned? then Some(o.analysis) else None
  }

  /** A point outside the city gets the outside header and explanation,
      naming the neighbouring state that holds it when both neighbouring
      layers are loaded, and none of the soil cards. */
  lemma OutsideView(c: Geometry.Point, d: DataCache)
    requires d.cdmx.Collection? && IsOutside(c, d)
    ensures var a := Shown(Classify(c, Some(d)));
      var both := d.edomex.Collection? && d.morelos.Collection?;
      a.Some? && BottomSheet.Label(a) == BottomSheet.OutsideCityLabel
      && !ShouldShowNormativeInstrument(a) && !ShouldShowActivitiesCatalog(a)
      && !ShouldShowZoningResult(a)
      && (CitizenExplanation(a) == Some(InNeighbourState(EstadoDeMexico)) <==>
            both && Find(d.edomex, c).Some?)
      && (CitizenExplanation(a) == Some(InNeighbourState(Morelos)) <==>
            both && Find(d.edomex, c).None? && Find(d.morelos, c).Some?)
      && (CitizenExplanation(a) == Some(OutsideCity) <==>
            !both || (Find(d.edomex, c).None? && Find(d.morelos, c).None?))
  {
    OutsideRecord(c, d);
  }

  /** An incomplete data cache shows the no-data header, no explanation and
      no card. */
  lemma IncompleteCacheView(c: Geometry.Point, data: Option<DataCache>)
    requires data.None? || data.value.cdmx.Absent?
    ensures var a := Shown(Classify(c, data));
      a.Some? && BottomSheet.Label(a) == BottomSheet.NoDataLabel
      && CitizenExplanation(a).None? && !ShouldShowNormativeInstrument(a)
      && !ShouldShowActivitiesCatalog(a) && !ShouldShowZoningResult(a)
  {
    IncompleteCacheIsNoData(c, data);
  }

  /** A point in a protected area gets the protected-area header and the
      protected-area text of its soil: the conservation one exactly when a
      conservation-soil feature holds the point. */
  lemma ProtectedAreaView(c: Geometry.Point, data: Option<DataCache>)
    requires Classify(c, data).Returned? && Classify(c, data).analysis.isANP
    ensures var a := Shown(Classify(c, data));
      BottomSheet.Label(a) == BottomSheet.ProtectedAreaLabel && IsAnp(a)
      && ShouldShowNormativeInstrument(a)
      && (CitizenExplanation(a) == Some(ConservationProtectedArea) <==> Find(data.value.sc, c).Some?)
      && (CitizenExplanation(a) == Some(UrbanProtectedArea) <==> Find(data.value.sc, c).None?)
  {
    AnpDetection(c, data);
    SoilStatus(c, data);
  }

  /** Whether the record the engine returns has zoning data depends only on
      the zoning feature that holds the point: with one, on its `CLAVE`
      being neither empty nor NODATA (the placeholder keys are refined to
      PDU keys, which count); without one, on the point lying in a protected
      area, whose ANP key counts while the zoning card stays hidden. */
  lemma ZoningDataView(c: Geometry.Point, data: Option<DataCache>)
    requires ReachesZoning(c, data) && Classify(c, data).Returned?
    ensures var a := Shown(Classify(c, data));
      var z := ZoningOf(c, data.value);
      (z.Some? ==> (HasZoningData(a) <==> ZoneKey(z.value.properties) !in {"", "NODATA"}))
      && (z.None? ==> (HasZoningData(a) <==> a.value.isANP) && !ShouldShowZoningResult(a))
  {
    ZoningStageDecides(c, data);
  }

  /** The returned record's zoning key is the one stage 4 set. */
  lemma ZoningStageDecides(c: Geometry.Point, data: Option<DataCache>)
    requires ReachesZoning(c, data) && Classify(c, data).Returned?
    ensures var a := Classify(c, data).analysis;
      var k := a.zoningKey;
      var z := ZoningOf(c, data.value);
      (z.Some? ==> k.Some? && (k.value !in {"", "NODATA"} <==> ZoneKey(z.value.properties) !in {"", "NODATA"}))
      && (z.None? ==> (k.Some? && k.value !in {"", "NODATA"} <==> a.isANP) && (k.Some? ==> k.value in {"ANP", "NODATA"}))
  {
    ZoningStageFields(c, data);
    SoilAndAnpFields(c, data.value);
    ZoningOutcomeData(SoilAndAnp(c, data.value), ZoningOf(c, data.value));
  }

  /** Stage 4's key: with a zoning feature it has data exactly when the
      feature's `CLAVE` does; without one it is ANP, NODATA or missing, and
      has data exactly in a protected area. */
  lemma ZoningOutcomeData(r: Analysis, z: Option<Feature>)
    requires ZoningOutcome(r, z).Returned?
    requires r.zoningKey.None? && (r.status == ConservationSoil || r.status == UrbanSoil)
    ensures var k := ZoningOutcome(r, z).analysis.zoningKey;
      (z.Some? ==> k.Some? && (k.value !in {"", "NODATA"} <==> ZoneKey(z.value.properties) !in {"", "NODATA"}))
      && (z.None? ==> (k.Some? && k.value !in {"", "NODATA"} <==> r.isANP) && (k.Some? ==> k.value in {"ANP", "NODATA"}))
  {
    if z.Some? {
      ZoningHitKey(r, ZoneKey(z.value.properties), Lookup(z.value.properties, "PGOEDF"));
    }
  }

  /** The zoning key, soil and protected-area flag of the returned record
      are those stage 4 set. */
  lemma ZoningStageFields(c: Geometry.Point, data: Option<DataCache>)
    requires ReachesZoning(c, data) && Classify(c, data).Returned?
    ensures ZoningOutcome(SoilAndAnp(c, data.value), ZoningOf(c, data.value)).Returned?
    ensures var a := Classify(c, data).analysis;
      var r2 := ZoningOutcome(SoilAndAnp(c, data.value), ZoningOf(c, data.value)).analysis;
      a.zoningKey == r2.zoningKey && a.isANP == r2.isANP && a.status == r2.status
  {
    var d := data.value;
    var r := SoilAndAnp(c, d);
    var z := ZoningOf(c, d);
    ClassifyPastSoil(c, data);
    ZonedSteps(c, d, r);
    var r2 := ZoningOutcome(r, z).analysis;
    CatalogKeeps(r2, d.rules);
    InternalKeeps(c, d, CatalogStage(r2, d.rules));
  }

  /** A catalogue error always hides the catalogue card. */
  lemma CatalogErrorHidesCatalog(c: Geometry.Point, data: Option<DataCache>)
    requires Classify(c, data).Returned? && Classify(c, data).analysis.zoningCatalogError.Some?
    ensures !ShouldShowActivitiesCatalog(Shown(Classify(c, data)))
  {
    CatalogErrors(c, data);
  }

  /** The activities the rule pass computes on urban soil are never shown:
      the record gets the normative card but not the catalogue card. */
  lemma UrbanActivitiesHidden(c: Geometry.Point, data: Option<DataCache>)
    requires ReachesZoning(c, data) && Find(data.value.sc, c).None?
    requires ZoningOf(c, data.value).Some?
    requires var props := ZoningOf(c, data.value).value.properties;
      var k := ZoneKey(props);
      !IsSentinel(k) && k != "" && k != "ANP" && k != "NODATA"
      && !NamesPdu(Lookup(props, "PGOEDF")) && Truthy(Lookup(props, "PGOEDF"))
      && data.value.rules.Some? && |data.value.rules.value| > 0 && k in data.value.rules.value[0]
    ensures var a := Shown(Classify(c, data));
      var k := ZoneKey(ZoningOf(c, data.value).value.properties);
      a.Some? && a.value.allowedActivities == WithVerdict(data.value.rules.value, k, "A")
      && ShouldShowNormativeInstrument(a) && !ShouldShowActivitiesCatalog(a)
  {
    UrbanSoilCanCarryActivities(c, data);
  }
}
