/** What the classification procedure of src/utils/analysisEngine.js
    guarantees about the record it returns, proved about `Engine.Classify`
    (and so, through `Engine.AnalyzeLocation`'s contract, about the
    imperative engine). */
module EngineProperties {
  import opened Wrappers
  import opened JsString
  import opened JsValue
  import Geometry
  import opened Layers
  import opened Classification
  import opened Engine

  /** The status of a returned record. */
  function StatusOf(o: Outcome): Option<Status> {
    if o.Returned? then Some(o.analysis.status) else None
  }

  /** The cache has a city layer and the point was not excluded by it. */
  predicate PastCityCheck(c: Geometry.Point, data: Option<DataCache>) {
    data.Some? && data.value.cdmx.Collection? && !IsOutside(c, data.value)
  }

  /** The stages after the soil test reached the zoning stage. */
  predicate ReachesZoning(c: Geometry.Point, data: Option<DataCache>) {
    PastCityCheck(c, data) && HasFeatures(data.value.sc)
  }

  // ---------------------------------------------------------------------
  // The later stages only add to the record

  /** The fields stages 1 to 3 decide. */
  function Placement(r: Analysis): (Status, bool, Option<string>, bool, Option<AnpInfo>, Option<Value>,
                                    Option<Option<Neighbour>>, Geometry.Point) {
    (r.status, r.isRestricted, r.error, r.isANP, r.anp, r.alcaldia, r.outsideContext, r.coordinate)
  }

  /** The fields stage 4.1 decides, but for `noActivitiesCatalog`. */
  function CatalogFields(r: Analysis): (seq<Activity>, seq<Activity>, Option<CatalogError>, bool) {
    (r.allowedActivities, r.prohibitedActivities, r.zoningCatalogError, r.isPDU)
  }

  /** The fields stage 5 decides. */
  function InternalFields(r: Analysis): (bool, Option<Feature>, Option<Props>) {
    (r.hasInternalAnpZoning, r.anpInternalFeature, r.anpZoningData)
  }

  lemma ZoningHitKeeps(r: Analysis, k: string, pg: Option<Value>)
    ensures ZoningHit(r, k, pg).Returned? ==>
      var r' := ZoningHit(r, k, pg).analysis;
      Placement(r') == Placement(r) && CatalogFields(r') == CatalogFields(r)
      && InternalFields(r') == InternalFields(r)
  {
  }

  lemma ZoningFallbackKeeps(r: Analysis)
    ensures var r' := ZoningFallback(r);
      Placement(r') == Placement(r) && CatalogFields(r') == CatalogFields(r)
      && InternalFields(r') == InternalFields(r)
  {
  }

  /** Stage 4 touches only the zoning fields and `noActivitiesCatalog`. */
  lemma ZoningKeeps(r: Analysis, z: Option<Feature>)
    ensures ZoningOutcome(r, z).Returned? ==>
      var r' := ZoningOutcome(r, z).analysis;
      Placement(r') == Placement(r) && CatalogFields(r') == CatalogFields(r)
      && InternalFields(r') == InternalFields(r)
  {
    if z.Some? {
      ZoningHitKeeps(r, ZoneKey(z.value.properties), Lookup(z.value.properties, "PGOEDF"));
    } else {
      ZoningFallbackKeeps(r);
    }
  }

  lemma RuleStageKeeps(r: Analysis, key: string, rules: seq<Row>)
    requires |rules| > 0
    ensures var r' := RuleStage(r, key, rules);
      Placement(r') == Placement(r) && InternalFields(r') == InternalFields(r)
      && r'.zoningKey == r.zoningKey && r'.zoningName == r.zoningName
  {
  }

  /** Stage 4.1 touches only the catalogue fields. */
  lemma CatalogKeeps(r: Analysis, rules: Option<seq<Row>>)
    ensures var r' := CatalogStage(r, rules);
      Placement(r') == Placement(r) && InternalFields(r') == InternalFields(r)
      && r'.zoningKey == r.zoningKey && r'.zoningName == r.zoningName
  {
    if r.zoningKey.Some? && r.zoningKey.value != "" && rules.Some? && |rules.value| > 0 {
      RuleStageKeeps(r.(isPDU := NamesPdu(r.zoningName)), r.zoningKey.value, rules.value);
    }
  }

  /** Stage 5 touches only the internal-zoning fields. */
  lemma InternalKeeps(c: Geometry.Point, d: DataCache, r: Analysis)
    ensures var r' := AnpInternalStage(c, d, r);
      Placement(r') == Placement(r) && CatalogFields(r') == CatalogFields(r)
      && r'.zoningKey == r.zoningKey && r'.zoningName == r.zoningName
      && r'.noActivitiesCatalog == r.noActivitiesCatalog
  {
  }

  /** Stages 4 to 5 leave status, restriction, error, borough and the
      protected-area fields as stage 3 left them. */
  lemma ZonedKeeps(c: Geometry.Point, d: DataCache, r: Analysis)
    ensures Zoned(c, d, r).Returned? ==> Placement(Zoned(c, d, r).analysis) == Placement(r)
  {
    var zo := ZoningOutcome(r, ZoningOf(c, d));
    ZoningKeeps(r, ZoningOf(c, d));
    if zo.Returned? {
      CatalogKeeps(zo.analysis, d.rules);
      InternalKeeps(c, d, CatalogStage(zo.analysis, d.rules));
    }
  }

  // ---------------------------------------------------------------------
  // What each stage decides

  /** The record at the end of stage 3: borough, soil status and the
      protected-area fields set, nothing of stages 4 to 5 yet. */
  lemma SoilAndAnpFields(c: Geometry.Point, d: DataCache)
    requires HasFeatures(d.sc)
    ensures var r := SoilAndAnp(c, d);
      r.coordinate == c && r.error.None? && r.outsideContext.None?
      && r.alcaldia == BoroughName(Find(d.alcaldias, c))
      && (r.status == ConservationSoil <==> Find(d.sc, c).Some?)
      && (r.status == UrbanSoil <==> Find(d.sc, c).None?)
      && (r.isRestricted <==> r.status == ConservationSoil)
      && (r.isANP <==> HasFeatures(d.anp) && Find(d.anp, c).Some?)
      && (r.isANP <==> r.anp.Some?)
      && (r.isANP ==> r.anp == Some(AnpRecord(Find(d.anp, c).value.properties)))
      && r.zoningKey.None? && r.zoningName.None? && !r.noActivitiesCatalog
      && CatalogFields(r) == ([], [], None, false) && InternalFields(r) == (false, None, None)
  {
  }

  /** Past the soil test the outcome is that of stages 4 to 5 on the
      stage-3 record. */
  lemma ClassifyPastSoil(c: Geometry.Point, data: Option<DataCache>)
    requires ReachesZoning(c, data)
    ensures Classify(c, data) == Zoned(c, data.value, SoilAndAnp(c, data.value))
  {
  }

  /** How stages 4 to 5 compose. */
  lemma ZonedSteps(c: Geometry.Point, d: DataCache, r: Analysis)
    ensures Zoned(c, d, r).Threw? <==> ZoningOutcome(r, ZoningOf(c, d)).Threw?
    ensures ZoningOutcome(r, ZoningOf(c, d)).Returned? ==>
      Zoned(c, d, r)
      == Returned(AnpInternalStage(c, d, CatalogStage(ZoningOutcome(r, ZoningOf(c, d)).analysis, d.rules)))
  {
  }

  /** The gates and the rule pass: lists only when every gate passed, and
      the only error they set is the missing column. */
  lemma RuleStageOutcomes(r1: Analysis, key: string, rules: seq<Row>)
    requires |rules| > 0
    requires r1.allowedActivities == [] && r1.prohibitedActivities == [] && r1.zoningCatalogError.None?
    ensures var r' := RuleStage(r1, key, rules);
      ((r'.allowedActivities != [] || r'.prohibitedActivities != []) ==>
         key != "ANP" && key != "NODATA" && !r1.isPDU && key in rules[0]
         && r'.zoningCatalogError.None? && r'.isPDU == r1.isPDU
         && r'.allowedActivities == WithVerdict(rules, key, "A")
         && r'.prohibitedActivities == WithVerdict(rules, key, "P"))
      && (r'.zoningCatalogError.Some? ==>
            r'.zoningCatalogError == Some(MissingColumn(key)) && key !in rules[0]
            && r'.noActivitiesCatalog && r'.allowedActivities == [] && r'.prohibitedActivities == [])
  {
  }

  /** The catalogue stage on a record without activities: activities
      appear only through the rule pass. */
  lemma CatalogActivities(r: Analysis, rules: Option<seq<Row>>)
    requires r.allowedActivities == [] && r.prohibitedActivities == [] && r.zoningCatalogError.None?
    ensures var r' := CatalogStage(r, rules);
      (r'.allowedActivities != [] || r'.prohibitedActivities != []) ==>
         rules.Some? && |rules.value| > 0 && r.zoningKey.Some?
         && r.zoningKey.value != "" && r.zoningKey.value != "ANP" && r.zoningKey.value != "NODATA"
         && !r'.isPDU && r.zoningKey.value in rules.value[0] && r'.zoningCatalogError.None?
         && r'.allowedActivities == WithVerdict(rules.value, r.zoningKey.value, "A")
         && r'.prohibitedActivities == WithVerdict(rules.value, r.zoningKey.value, "P")
  {
    if r.zoningKey.Some? && r.zoningKey.value != "" && rules.Some? && |rules.value| > 0 {
      RuleStageOutcomes(r.(isPDU := NamesPdu(r.zoningName)), r.zoningKey.value, rules.value);
    }
  }

  /** The catalogue stage on a record without catalogue error: each error
      it sets names its cause, switches the catalogue off and comes with no
      activities. */
  lemma CatalogErrorCauses(r: Analysis, rules: Option<seq<Row>>)
    requires r.allowedActivities == [] && r.prohibitedActivities == [] && r.zoningCatalogError.None?
    ensures var r' := CatalogStage(r, rules);
      r'.zoningCatalogError.Some? ==>
        r'.noActivitiesCatalog && r'.allowedActivities == [] && r'.prohibitedActivities == []
        && r.zoningKey.Some? && r.zoningKey.value != ""
        && (r'.zoningCatalogError == Some(RulesLoadError) <==> rules.None?)
        && (r'.zoningCatalogError == Some(RulesEmpty) <==> rules == Some([]))
        && (r'.zoningCatalogError.value.MissingColumn? ==>
              r'.zoningCatalogError.value.key == r.zoningKey.value
              && rules.Some? && |rules.value| > 0 && r.zoningKey.value !in rules.value[0])
  {
    if r.zoningKey.Some? && r.zoningKey.value != "" && rules.Some? && |rules.value| > 0 {
      RuleStageOutcomes(r.(isPDU := NamesPdu(r.zoningName)), r.zoningKey.value, rules.value);
    }
  }

  /** The internal-zoning stage. */
  lemma InternalOutcomes(c: Geometry.Point, d: DataCache, r: Analysis)
    requires InternalFields(r) == (false, None, None)
    ensures var r' := AnpInternalStage(c, d, r);
      (r'.hasInternalAnpZoning <==>
         r.isANP && Truthy(AnpId(r)) && HasFeatures(d.anpInternal) && Find(d.anpInternal, c).Some?)
      && (r'.hasInternalAnpZoning ==>
            r'.anpInternalFeature == Find(d.anpInternal, c)
            && r'.anpZoningData == Some(r'.anpInternalFeature.value.properties))
      && (!r'.hasInternalAnpZoning ==> r'.anpInternalFeature.None? && r'.anpZoningData.None?)
  {
  }

  // ---------------------------------------------------------------------
  // Stage 1

  /** An incomplete cache yields NO_DATA with the cache error, and the
      error field is set on no other path. */
  lemma IncompleteCacheIsNoData(c: Geometry.Point, data: Option<DataCache>)
    ensures (data.None? || data.value.cdmx.Absent?) ==>
      Classify(c, data) == Returned(Initial(c).(error := Some(IncompleteCache)))
    ensures Classify(c, data).Returned? && Classify(c, data).analysis.error.Some?
            <==> data.None? || data.value.cdmx.Absent?
  {
    if ReachesZoning(c, data) {
      ClassifyPastSoil(c, data);
      SoilAndAnpFields(c, data.value);
      ZonedKeeps(c, data.value, SoilAndAnp(c, data.value));
    }
  }

  /** OUTSIDE_CDMX exactly when the city layer has features and none holds
      the point. */
  lemma OutsideIff(c: Geometry.Point, d: DataCache)
    requires d.cdmx.Collection?
    ensures StatusOf(Classify(c, Some(d))) == Some(OutsideCdmx) <==> IsOutside(c, d)
  {
    if ReachesZoning(c, Some(d)) {
      ClassifyPastSoil(c, Some(d));
      SoilAndAnpFields(c, d);
      ZonedKeeps(c, d, SoilAndAnp(c, d));
    }
  }

  /** The record of a point outside the city carries only the status and,
      when both neighbouring layers are loaded, the neighbour holding the
      point (the State of Mexico first). */
  lemma OutsideRecord(c: Geometry.Point, d: DataCache)
    requires d.cdmx.Collection? && IsOutside(c, d)
    ensures Classify(c, Some(d)).Returned?
    ensures var r := Classify(c, Some(d)).analysis;
      r.status == OutsideCdmx && !r.isRestricted && r.alcaldia.None? && r.zoningKey.None?
      && !r.isANP && r.allowedActivities == [] && r.prohibitedActivities == []
      && (r.outsideContext.Some? <==> d.edomex.Collection? && d.morelos.Collection?)
      && ((r.outsideContext == Some(Some(EstadoDeMexico))) <==>
            d.edomex.Collection? && d.morelos.Collection? && Find(d.edomex, c).Some?)
      && ((r.outsideContext == Some(Some(Morelos))) <==>
            d.edomex.Collection? && d.morelos.Collection? && Find(d.edomex, c).None?
            && Find(d.morelos, c).Some?)
  {
  }

  /** A city layer without features skips the boundary test: such a cache
      never yields OUTSIDE_CDMX. */
  lemma EmptyCityLayerSkipsCheck(c: Geometry.Point, d: DataCache)
    requires d.cdmx == Collection([])
    ensures Classify(c, Some(d)) == Inside(c, d)
    ensures StatusOf(Classify(c, Some(d))) != Some(OutsideCdmx)
  {
    OutsideIff(c, d);
  }

  // ---------------------------------------------------------------------
  // Stages 2 and 3

  /** Past the city check: the borough name (or "CDMX"), and NO_DATA with
      nothing else set when the soil layer has no features. */
  lemma BoroughAndMissingSoil(c: Geometry.Point, data: Option<DataCache>)
    requires PastCityCheck(c, data) && Classify(c, data).Returned?
    ensures Classify(c, data).analysis.alcaldia == BoroughName(Find(data.value.alcaldias, c))
    ensures !HasFeatures(data.value.sc) ==>
      Classify(c, data) == Returned(Initial(c).(alcaldia := BoroughName(Find(data.value.alcaldias, c))))
  {
    if HasFeatures(data.value.sc) {
      ClassifyPastSoil(c, data);
      SoilAndAnpFields(c, data.value);
      ZonedKeeps(c, data.value, SoilAndAnp(c, data.value));
    }
  }

  /** With a soil layer: CONSERVATION_SOIL exactly when a conservation
      feature holds the point, URBAN_SOIL otherwise. */
  lemma SoilStatus(c: Geometry.Point, data: Option<DataCache>)
    requires ReachesZoning(c, data) && Classify(c, data).Returned?
    ensures var r := Classify(c, data).analysis;
      (r.status == ConservationSoil <==> Find(data.value.sc, c).Some?)
      && (r.status == UrbanSoil <==> Find(data.value.sc, c).None?)
  {
    ClassifyPastSoil(c, data);
    SoilAndAnpFields(c, data.value);
    ZonedKeeps(c, data.value, SoilAndAnp(c, data.value));
  }

  /** `isRestricted` is set exactly on conservation soil, on every path. */
  lemma RestrictedIffConservation(c: Geometry.Point, data: Option<DataCache>)
    requires Classify(c, data).Returned?
    ensures Classify(c, data).analysis.isRestricted <==> Classify(c, data).analysis.status == ConservationSoil
  {
    if ReachesZoning(c, data) {
      ClassifyPastSoil(c, data);
      SoilAndAnpFields(c, data.value);
      ZonedKeeps(c, data.value, SoilAndAnp(c, data.value));
    }
  }

  /** The protected-area flag: set exactly when the point reached stage 3 and
      a protected-area feature holds it; the metadata then copies that
      feature's properties, with `null` for each missing one. */
  lemma AnpDetection(c: Geometry.Point, data: Option<DataCache>)
    requires Classify(c, data).Returned?
    ensures var r := Classify(c, data).analysis;
      (r.isANP <==> ReachesZoning(c, data) && HasFeatures(data.value.anp)
                    && Find(data.value.anp, c).Some?)
      && (r.isANP <==> r.anp.Some?)
      && (r.isANP ==> r.anp == Some(AnpRecord(Find(data.value.anp, c).value.properties)))
  {
    if ReachesZoning(c, data) {
      ClassifyPastSoil(c, data);
      SoilAndAnpFields(c, data.value);
      ZonedKeeps(c, data.value, SoilAndAnp(c, data.value));
    }
  }

  // ---------------------------------------------------------------------
  // Stage 4

  /** The only way the engine throws: a zoning feature holds the point, its
      key is a placeholder and its PGOEDF is a truthy number. */
  lemma ThrowsIff(c: Geometry.Point, data: Option<DataCache>)
    ensures Classify(c, data).Threw? <==>
      ReachesZoning(c, data) && ZoningOf(c, data.value).Some?
      && var props := ZoningOf(c, data.value).value.properties;
         IsSentinel(ZoneKey(props)) && Truthy(Lookup(props, "PGOEDF"))
         && Lookup(props, "PGOEDF").value.Number?
  {
    if ReachesZoning(c, data) {
      ClassifyPastSoil(c, data);
      ZonedSteps(c, data.value, SoilAndAnp(c, data.value));
    }
  }

  lemma RefineStep(desc: string, families: seq<(seq<string>, string)>, k: string)
    requires families != []
    ensures Refine(desc, families, k)
            == if MentionsAny(desc, families[0].0) then families[0].1 else Refine(desc, families[1..], k)
  {
  }

  lemma MentionsOne(desc: string, a: string)
    ensures MentionsAny(desc, [a]) <==> Includes(desc, a)
  {
    if Includes(desc, a) {
      assert a in [a];
    }
  }

  lemma MentionsThree(desc: string, a: string, b: string, c: string)
    ensures MentionsAny(desc, [a, b, c]) <==> Includes(desc, a) || Includes(desc, b) || Includes(desc, c)
  {
    if Includes(desc, a) {
      assert a in [a, b, c];
    } else if Includes(desc, b) {
      assert b in [a, b, c];
    } else if Includes(desc, c) {
      assert c in [a, b, c];
    }
  }

  lemma RefinementTail3(desc: string, k: string)
    ensures Refine(desc, Refinements[3..], k)
            == if MentionsAny(desc, ["equipamiento"]) then "PDU_ER" else k
  {
    var f := Refinements[3..];
    assert f == [(["equipamiento"], "PDU_ER")];
    RefineStep(desc, f, k);
    assert f[1..] == [];
  }

  lemma RefinementTail2(desc: string, k: string)
    ensures Refine(desc, Refinements[2..], k)
            == if MentionsAny(desc, ["urbana", "urbano", "barrio"]) then "PDU_ZU"
               else Refine(desc, Refinements[3..], k)
  {
    var f := Refinements[2..];
    assert f[0] == (["urbana", "urbano", "barrio"], "PDU_ZU");
    assert f[1..] == Refinements[3..];
    RefineStep(desc, f, k);
  }

  lemma RefinementTail1(desc: string, k: string)
    ensures Refine(desc, Refinements[1..], k)
            == if MentionsAny(desc, ["poblad", "rural", "habitacional"]) then "PDU_PR"
               else Refine(desc, Refinements[2..], k)
  {
    var f := Refinements[1..];
    assert f[0] == (["poblad", "rural", "habitacional"], "PDU_PR");
    assert f[1..] == Refinements[2..];
    RefineStep(desc, f, k);
  }

  lemma RefinementTail0(desc: string, k: string)
    ensures Disambiguate(desc, k)
            == if MentionsAny(desc, ["parcial"]) then "PDU_PP"
               else Refine(desc, Refinements[1..], k)
  {
    var f := Refinements;
    assert f[0] == (["parcial"], "PDU_PP");
    RefineStep(desc, f, k);
  }

  /** The refinement table unrolled into the source's `else if` chain. */
  lemma DisambiguateChain(desc: string, k: string)
    ensures Disambiguate(desc, k)
            == if MentionsAny(desc, ["parcial"]) then "PDU_PP"
               else if MentionsAny(desc, ["poblad", "rural", "habitacional"]) then "PDU_PR"
               else if MentionsAny(desc, ["urbana", "urbano", "barrio"]) then "PDU_ZU"
               else if MentionsAny(desc, ["equipamiento"]) then "PDU_ER"
               else k
  {
    RefinementTail0(desc, k);
    RefinementTail1(desc, k);
    RefinementTail2(desc, k);
    RefinementTail3(desc, k);
  }

  /** The description refinement is the source's `else if` chain: the
      first family with a word in the description decides. */
  lemma DisambiguateOrder(desc: string, k: string)
    ensures Includes(desc, "parcial") ==> Disambiguate(desc, k) == "PDU_PP"
    ensures !Includes(desc, "parcial")
            && (Includes(desc, "poblad") || Includes(desc, "rural") || Includes(desc, "habitacional"))
            ==> Disambiguate(desc, k) == "PDU_PR"
    ensures !Includes(desc, "parcial")
            && !Includes(desc, "poblad") && !Includes(desc, "rural") && !Includes(desc, "habitacional")
            && (Includes(desc, "urbana") || Includes(desc, "urbano") || Includes(desc, "barrio"))
            ==> Disambiguate(desc, k) == "PDU_ZU"
    ensures !Includes(desc, "parcial")
            && !Includes(desc, "poblad") && !Includes(desc, "rural") && !Includes(desc, "habitacional")
            && !Includes(desc, "urbana") && !Includes(desc, "urbano") && !Includes(desc, "barrio")
            && Includes(desc, "equipamiento")
            ==> Disambiguate(desc, k) == "PDU_ER"
    ensures !Includes(desc, "parcial")
            && !Includes(desc, "poblad") && !Includes(desc, "rural") && !Includes(desc, "habitacional")
            && !Includes(desc, "urbana") && !Includes(desc, "urbano") && !Includes(desc, "barrio")
            && !Includes(desc, "equipamiento")
            ==> Disambiguate(desc, k) == k
  {
    DisambiguateChain(desc, k);
    MentionsOne(desc, "parcial");
    MentionsThree(desc, "poblad", "rural", "habitacional");
    MentionsThree(desc, "urbana", "urbano", "barrio");
    MentionsOne(desc, "equipamiento");
  }

  /** A placeholder key (that does not throw) marks the point as having no
      activity catalogue and is replaced by a PDU code or kept as is; any
      other key is stored as read. */
  lemma ZoningHitKey(r: Analysis, k: string, pg: Option<Value>)
    requires ZoningHit(r, k, pg).Returned?
    ensures var r' := ZoningHit(r, k, pg).analysis;
      r'.zoningKey.Some?
      && (IsSentinel(k) ==>
            r'.noActivitiesCatalog && r'.zoningKey.value in {"PDU_PP", "PDU_PR", "PDU_ZU", "PDU_ER", k})
      && (!IsSentinel(k) ==> r'.zoningKey == Some(k) && r'.noActivitiesCatalog == r.noActivitiesCatalog)
      && (Truthy(pg) ==> r'.zoningName == pg)
      && (!Truthy(pg) ==> r'.zoningName == Some(Text(r'.zoningKey.value)))
  {
    if IsSentinel(k) {
      DisambiguateOrder(ToLower(TextOr(pg)), k);
    }
  }

  /** Without a zoning feature: conservation soil gets the ANP or NODATA
      key; urban soil gets no catalogue and the ANP key or no key at all. */
  lemma NoZoningFeature(c: Geometry.Point, data: Option<DataCache>)
    requires ReachesZoning(c, data) && ZoningOf(c, data.value).None?
    ensures Classify(c, data).Returned?
    ensures var r := Classify(c, data).analysis;
      (r.status == ConservationSoil ==> r.zoningKey == Some(if r.isANP then "ANP" else "NODATA"))
      && (r.status == UrbanSoil ==>
            r.noActivitiesCatalog && r.zoningKey == (if r.isANP then Some("ANP") else None))
      && r.allowedActivities == [] && r.prohibitedActivities == []
  {
    var d := data.value;
    var r := SoilAndAnp(c, d);
    ClassifyPastSoil(c, data);
    SoilAndAnpFields(c, d);
    ZonedSteps(c, d, r);
    var r2 := ZoningFallback(r);
    ZoningFallbackKeeps(r);
    assert r2.zoningKey.Some? ==> r2.zoningKey.value == "ANP" || r2.zoningKey.value == "NODATA";
    CatalogActivities(r2, d.rules);
    CatalogErrorCauses(r2, d.rules);
    CatalogKeeps(r2, d.rules);
    var r3 := CatalogStage(r2, d.rules);
    InternalKeeps(c, d, r3);
  }

  // ---------------------------------------------------------------------
  // Stage 4.1: the rule pass

  /** Each row lands in at most one of the two lists. */
  lemma {:induction false} VerdictsBounded(rules: seq<Row>, key: string)
    ensures |WithVerdict(rules, key, "A")| + |WithVerdict(rules, key, "P")| <= |rules|
    decreases |rules|
  {
    if rules != [] {
      VerdictsBounded(rules[..|rules| - 1], key);
    }
  }

  /** The images under `f` of the elements satisfying `keep`, in order: the
      shape of the rule pass with the row test and the row reading left
      open. */
  function Filtered<A, B>(xs: seq<A>, keep: A -> bool, f: A -> B): seq<B>
    decreases |xs|
  {
    if xs == [] then []
    else Filtered(xs[..|xs| - 1], keep, f) + (if keep(xs[|xs| - 1]) then [f(xs[|xs| - 1])] else [])
  }

  /** Every kept element has its image listed. */
  lemma {:induction false} FilteredListed<A, B>(xs: seq<A>, keep: A -> bool, f: A -> B, i: nat)
    requires i < |xs| && keep(xs[i])
    ensures f(xs[i]) in Filtered(xs, keep, f)
    decreases |xs|
  {
    var n := |xs| - 1;
    if i < n {
      assert xs[..n][i] == xs[i];
      FilteredListed(xs[..n], keep, f, i);
    }
  }

  /** Every listed value is the image of a kept element. */
  lemma {:induction false} FilteredSource<A, B>(xs: seq<A>, keep: A -> bool, f: A -> B, b: B)
    returns (i: nat)
    requires b in Filtered(xs, keep, f)
    ensures i < |xs| && keep(xs[i]) && f(xs[i]) == b
    decreases |xs|
  {
    var n := |xs| - 1;
    if b in Filtered(xs[..n], keep, f) {
      i := FilteredSource(xs[..n], keep, f, b);
      assert xs[..n][i] == xs[i];
    } else {
      i := n;
    }
  }

  /** The rule pass for one verdict is the filter by that verdict. */
  lemma {:induction false} VerdictIsFilter(rules: seq<Row>, key: string, verdict: string)
    ensures WithVerdict(rules, key, verdict) == Filtered(rules, row => Cell(row, key) == verdict, ActivityOf)
    decreases |rules|
  {
    if rules != [] {
      VerdictIsFilter(rules[..|rules| - 1], key, verdict);
    }
  }

  /** Whether a row's cell for `key` reads `verdict`. */
  predicate Marked(row: Row, key: string, verdict: string) {
    Cell(row, key) == verdict
  }

  /** An activity is listed under a verdict exactly when some row with that
      verdict describes it. */
  lemma VerdictMembership(rules: seq<Row>, key: string, verdict: string, a: Activity)
    ensures a in WithVerdict(rules, key, verdict) <==>
            exists i :: 0 <= i < |rules| && Marked(rules[i], key, verdict) && ActivityOf(rules[i]) == a
  {
    var keep := row => Cell(row, key) == verdict;
    VerdictIsFilter(rules, key, verdict);
    if a in WithVerdict(rules, key, verdict) {
      var i := FilteredSource(rules, keep, ActivityOf, a);
      assert Marked(rules[i], key, verdict);
    } else if exists i :: 0 <= i < |rules| && Marked(rules[i], key, verdict) && ActivityOf(rules[i]) == a {
      var i :| 0 <= i < |rules| && Marked(rules[i], key, verdict) && ActivityOf(rules[i]) == a;
      FilteredListed(rules, keep, ActivityOf, i);
    }
  }

  /** The record carries activities only when the rule pass ran: a
      non-empty key that is neither ANP nor NODATA, a name that is not a
      PDU, a non-empty catalogue whose first row has that column, and no
      catalogue error.  The lists are then exactly the rows marked A and P,
      and together they are no longer than the catalogue. */
  lemma ActivitiesNeedRulePass(c: Geometry.Point, data: Option<DataCache>)
    requires Classify(c, data).Returned?
    requires var r := Classify(c, data).analysis;
      r.allowedActivities != [] || r.prohibitedActivities != []
    ensures ReachesZoning(c, data)
    ensures var r := Classify(c, data).analysis;
      var rules := data.value.rules;
      rules.Some? && |rules.value| > 0 && r.zoningKey.Some?
      && r.zoningKey.value != "" && r.zoningKey.value != "ANP" && r.zoningKey.value != "NODATA"
      && !r.isPDU && r.zoningKey.value in rules.value[0] && r.zoningCatalogError.None?
      && r.allowedActivities == WithVerdict(rules.value, r.zoningKey.value, "A")
      && r.prohibitedActivities == WithVerdict(rules.value, r.zoningKey.value, "P")
      && |r.allowedActivities| + |r.prohibitedActivities| <= |rules.value|
  {
    assert ReachesZoning(c, data);
    var d := data.value;
    var r := SoilAndAnp(c, d);
    ClassifyPastSoil(c, data);
    SoilAndAnpFields(c, d);
    ZonedSteps(c, d, r);
    var r2 := ZoningOutcome(r, ZoningOf(c, d)).analysis;
    ZoningKeeps(r, ZoningOf(c, d));
    CatalogActivities(r2, d.rules);
    CatalogErrorCauses(r2, d.rules);
    CatalogKeeps(r2, d.rules);
    var r3 := CatalogStage(r2, d.rules);
    InternalKeeps(c, d, r3);
    VerdictsBounded(d.rules.value, r2.zoningKey.value);
  }

  /** Each catalogue error names its cause and switches the catalogue off,
      and a record with a catalogue error lists no activities. */
  lemma CatalogErrors(c: Geometry.Point, data: Option<DataCache>)
    requires Classify(c, data).Returned?
    requires Classify(c, data).analysis.zoningCatalogError.Some?
    ensures ReachesZoning(c, data)
    ensures var r := Classify(c, data).analysis;
      var rules := data.value.rules;
      r.noActivitiesCatalog && r.allowedActivities == [] && r.prohibitedActivities == []
      && r.zoningKey.Some? && r.zoningKey.value != ""
      && (r.zoningCatalogError == Some(RulesLoadError) <==> rules.None?)
      && (r.zoningCatalogError == Some(RulesEmpty) <==> rules == Some([]))
      && (r.zoningCatalogError.value.MissingColumn? ==>
            r.zoningCatalogError.value.key == r.zoningKey.value
            && rules.Some? && |rules.value| > 0 && r.zoningKey.value !in rules.value[0])
  {
    assert ReachesZoning(c, data);
    var d := data.value;
    var r := SoilAndAnp(c, d);
    ClassifyPastSoil(c, data);
    SoilAndAnpFields(c, d);
    ZonedSteps(c, d, r);
    var r2 := ZoningOutcome(r, ZoningOf(c, d)).analysis;
    ZoningKeeps(r, ZoningOf(c, d));
    CatalogActivities(r2, d.rules);
    CatalogErrorCauses(r2, d.rules);
    CatalogKeeps(r2, d.rules);
    var r3 := CatalogStage(r2, d.rules);
    InternalKeeps(c, d, r3);
  }

  /** Urban soil is not catalogue-free: a zoning feature with an ordinary
      key whose column exists yields the rows' verdicts on URBAN_SOIL too. */
  lemma UrbanSoilCanCarryActivities(c: Geometry.Point, data: Option<DataCache>)
    requires ReachesZoning(c, data) && Find(data.value.sc, c).None?
    requires ZoningOf(c, data.value).Some?
    requires var props := ZoningOf(c, data.value).value.properties;
      var k := ZoneKey(props);
      !IsSentinel(k) && k != "" && k != "ANP" && k != "NODATA"
      && !NamesPdu(Lookup(props, "PGOEDF")) && Truthy(Lookup(props, "PGOEDF"))
      && data.value.rules.Some? && |data.value.rules.value| > 0 && k in data.value.rules.value[0]
    ensures Classify(c, data).Returned?
    ensures var r := Classify(c, data).analysis;
      var k := ZoneKey(ZoningOf(c, data.value).value.properties);
      r.status == UrbanSoil && r.zoningKey == Some(k)
      && r.allowedActivities == WithVerdict(data.value.rules.value, k, "A")
      && r.prohibitedActivities == WithVerdict(data.value.rules.value, k, "P")
  {
    var d := data.value;
    var r := SoilAndAnp(c, d);
    var props := ZoningOf(c, d).value.properties;
    var k := ZoneKey(props);
    var pg := Lookup(props, "PGOEDF");
    ClassifyPastSoil(c, data);
    SoilAndAnpFields(c, d);
    ZonedSteps(c, d, r);
    ZoningKeeps(r, ZoningOf(c, d));
    var r2 := ZoningHit(r, k, pg).analysis;
    assert r2 == r.(zoningKey := Some(k), zoningName := pg);
    var r3 := CatalogStage(r2, d.rules);
    assert r3 == r2.(isPDU := false, allowedActivities := WithVerdict(d.rules.value, k, "A"),
                     prohibitedActivities := WithVerdict(d.rules.value, k, "P"));
    InternalKeeps(c, d, r3);
  }

  /** A placeholder key whose description names a partial programme is
      refined to PDU_PP and flagged as having no catalogue, yet the rule
      pass still runs on it when the name does not mention PDU or POBLAD:
      it lists the rows' verdicts when the catalogue has a PDU_PP column and
      reports the missing column otherwise. */
  lemma PartialProgrammeStillMatched(c: Geometry.Point, data: Option<DataCache>)
    requires ReachesZoning(c, data) && ZoningOf(c, data.value).Some?
    requires var props := ZoningOf(c, data.value).value.properties;
      var pg := Lookup(props, "PGOEDF");
      IsSentinel(ZoneKey(props)) && pg.Some? && pg.value.Text?
      && Includes(ToLower(pg.value.text), "parcial") && !NamesPdu(pg)
      && data.value.rules.Some? && |data.value.rules.value| > 0
    ensures Classify(c, data).Returned?
    ensures var r := Classify(c, data).analysis;
      var rules := data.value.rules.value;
      r.zoningKey == Some("PDU_PP") && r.noActivitiesCatalog
      && ("PDU_PP" in rules[0] ==>
            r.zoningCatalogError.None?
            && r.allowedActivities == WithVerdict(rules, "PDU_PP", "A")
            && r.prohibitedActivities == WithVerdict(rules, "PDU_PP", "P"))
      && ("PDU_PP" !in rules[0] ==> r.zoningCatalogError == Some(MissingColumn("PDU_PP")))
  {
    var d := data.value;
    var r := SoilAndAnp(c, d);
    var props := ZoningOf(c, d).value.properties;
    var pg := Lookup(props, "PGOEDF");
    ClassifyPastSoil(c, data);
    SoilAndAnpFields(c, d);
    ZonedSteps(c, d, r);
    PartialProgrammeHit(r, ZoneKey(props), pg);
    var r2 := ZoningHit(r, ZoneKey(props), pg).analysis;
    PartialProgrammeCatalog(r2, d.rules);
    InternalKeeps(c, d, CatalogStage(r2, d.rules));
  }

  /** Stage 4 on a placeholder key whose description names a partial
      programme. */
  lemma PartialProgrammeHit(r: Analysis, k: string, pg: Option<Value>)
    requires IsSentinel(k) && pg.Some? && pg.value.Text?
    requires Includes(ToLower(pg.value.text), "parcial")
    ensures ZoningHit(r, k, pg)
            == Returned(r.(noActivitiesCatalog := true, zoningKey := Some("PDU_PP"), zoningName := pg))
  {
    var i := IncludesWitness(ToLower(pg.value.text), "parcial");
    assert pg.value.text != "";
    DisambiguateOrder(ToLower(TextOr(pg)), k);
  }

  /** Stage 4.1 on the PDU_PP key with a non-PDU name. */
  lemma PartialProgrammeCatalog(r: Analysis, rules: Option<seq<Row>>)
    requires r.zoningKey == Some("PDU_PP") && !NamesPdu(r.zoningName) && r.noActivitiesCatalog
    requires CatalogFields(r) == ([], [], None, false)
    requires rules.Some? && |rules.value| > 0
    ensures var r' := CatalogStage(r, rules);
      r'.zoningKey == Some("PDU_PP") && r'.noActivitiesCatalog
      && ("PDU_PP" in rules.value[0] ==>
            r'.zoningCatalogError.None?
            && r'.allowedActivities == WithVerdict(rules.value, "PDU_PP", "A")
            && r'.prohibitedActivities == WithVerdict(rules.value, "PDU_PP", "P"))
      && ("PDU_PP" !in rules.value[0] ==> r'.zoningCatalogError == Some(MissingColumn("PDU_PP")))
  {
    var r1 := r.(isPDU := NamesPdu(r.zoningName));
    assert CatalogStage(r, rules) == RuleStage(r1, "PDU_PP", rules.value);
    assert "PDU_PP" != "ANP" && "PDU_PP" != "NODATA" && !r1.isPDU;
  }

  // ---------------------------------------------------------------------
  // Stage 5

  /** The internal zoning is attached exactly when the point lies in a
      protected area with a truthy ANP_ID, the internal layer has features
      and one of them holds the point; the feature and a copy of its
      properties are then stored. */
  lemma InternalZoning(c: Geometry.Point, data: Option<DataCache>)
    requires Classify(c, data).Returned?
    ensures var r := Classify(c, data).analysis;
      (r.hasInternalAnpZoning <==>
         r.isANP && Truthy(AnpId(r)) && HasFeatures(data.value.anpInternal)
         && Find(data.value.anpInternal, c).Some?)
      && (r.hasInternalAnpZoning ==>
            r.anpInternalFeature == Find(data.value.anpInternal, c)
            && r.anpZoningData == Some(r.anpInternalFeature.value.properties))
      && (!r.hasInternalAnpZoning ==> r.anpInternalFeature.None? && r.anpZoningData.None?)
  {
    if ReachesZoning(c, data) {
      var d := data.value;
      var r := SoilAndAnp(c, d);
      ClassifyPastSoil(c, data);
      SoilAndAnpFields(c, d);
      ZonedSteps(c, d, r);
      var r2 := ZoningOutcome(r, ZoningOf(c, d)).analysis;
      ZoningKeeps(r, ZoningOf(c, d));
      CatalogKeeps(r2, d.rules);
      var r3 := CatalogStage(r2, d.rules);
      InternalOutcomes(c, d, r3);
    }
  }
}
