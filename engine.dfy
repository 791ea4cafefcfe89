/** `analyzeLocation` (src/utils/analysisEngine.js): the staged decision
    procedure that classifies one point against the loaded layers and the
    activity catalogue.  `Classify` is the procedure as a value function,
    stage by stage; `AnalyzeLocation` is the step-by-step record building of
    the source, proved to produce exactly `Classify`'s outcome. */
module Engine {
  import opened Wrappers
  import opened JsString
  import opened JsValue
  import Geometry
  import opened Layers
  import opened Classification

  /** One parsed CSV row of the activity catalogue: header to cell text. */
  type Row = map<string, string>

  /** The loaded data: the eight feature layers and the catalogue rows,
      `None` when loading the catalogue failed. */
  datatype DataCache = DataCache(
    cdmx: Layer,
    alcaldias: Layer,
    sc: Layer,
    edomex: Layer,
    morelos: Layer,
    zoning: Layer,
    anp: Layer,
    anpInternal: Layer,
    rules: Option<seq<Row>>)

  /** `analyzeLocation` either returns a record or throws. */
  datatype Outcome = Returned(analysis: Analysis) | Threw

  function Members(l: Layer): set<Feature> {
    set f | f in FeaturesOf(l)
  }

  /** Every feature whose box cache the engine may fill. */
  function Footprint(data: Option<DataCache>): set<Feature> {
    if data.None? then {}
    else
      var d := data.value;
      Members(d.cdmx) + Members(d.alcaldias) + Members(d.sc) + Members(d.edomex)
      + Members(d.morelos) + Members(d.zoning) + Members(d.anp) + Members(d.anpInternal)
  }

  /** Every box cache of every layer is either empty or right. */
  predicate CachesReady(data: Option<DataCache>)
    reads Footprint(data)
  {
    data.Some? ==>
      var d := data.value;
      CachesValid(d.cdmx) && CachesValid(d.alcaldias) && CachesValid(d.sc) && CachesValid(d.edomex)
      && CachesValid(d.morelos) && CachesValid(d.zoning) && CachesValid(d.anp) && CachesValid(d.anpInternal)
  }

  // ---------------------------------------------------------------------
  // Stage 1: the city boundary

  /** The point lies outside the city: the city layer has features and none
      of them holds the point.  An empty city layer skips the test. */
  predicate IsOutside(c: Geometry.Point, d: DataCache) {
    HasFeatures(d.cdmx) && Find(d.cdmx, c).None?
  }

  /** `outsideContext`: the State of Mexico is tried first. */
  function NeighbourOf(inEM: bool, inMOR: bool): (r: Option<Neighbour>)
    ensures r == Some(EstadoDeMexico) <==> inEM
    ensures r == Some(Morelos) <==> !inEM && inMOR
    ensures r == None <==> !inEM && !inMOR
  {
    if inEM then Some(EstadoDeMexico) else if inMOR then Some(Morelos) else None
  }

  function OutsideContext(c: Geometry.Point, d: DataCache): Option<Option<Neighbour>> {
    if d.edomex.Collection? && d.morelos.Collection? then
      Some(NeighbourOf(Find(d.edomex, c).Some?, Find(d.morelos, c).Some?))
    else None
  }

  // ---------------------------------------------------------------------
  // Stages 2 and 3: borough, soil, protected area

  /** `alcaldia`: the NOMBRE property of the borough found, else "CDMX". */
  function BoroughName(alc: Option<Feature>): Option<Value> {
    if alc.Some? then Lookup(alc.value.properties, "NOMBRE") else Some(Text("CDMX"))
  }

  function SoilStage(c: Geometry.Point, d: DataCache, r: Analysis): Analysis {
    if Find(d.sc, c).None? then r.(status := UrbanSoil)
    else r.(status := ConservationSoil, isRestricted := true)
  }

  /** The protected-area metadata, each missing property read as `null`. */
  function AnpRecord(p: Props): (a: AnpInfo)
    ensures a.properties == p
    ensures a.id == OrNull(Lookup(p, "ANP_ID")) && a.name == OrNull(Lookup(p, "NOMBRE"))
    ensures a.decreeType == OrNull(Lookup(p, "TIPO_DECRETO"))
    ensures a.category == OrNull(Lookup(p, "CATEGORIA_PROTECCION"))
    ensures a.decreeDate == OrNull(Lookup(p, "FECHA_DECRETO"))
    ensures a.decreedArea == OrNull(Lookup(p, "SUP_DECRETADA"))
  {
    AnpInfo(p, OrNull(Lookup(p, "ANP_ID")), OrNull(Lookup(p, "NOMBRE")),
            OrNull(Lookup(p, "TIPO_DECRETO")), OrNull(Lookup(p, "CATEGORIA_PROTECCION")),
            OrNull(Lookup(p, "FECHA_DECRETO")), OrNull(Lookup(p, "SUP_DECRETADA")))
  }

  function AnpStage(c: Geometry.Point, d: DataCache, r: Analysis): Analysis {
    if HasFeatures(d.anp) && Find(d.anp, c).Some? then
      r.(isANP := true, anp := Some(AnpRecord(Find(d.anp, c).value.properties)))
    else r
  }

  // ---------------------------------------------------------------------
  // Stage 4: the zoning key

  /** The three placeholder keys that stand for "see the description". */
  predicate IsSentinel(k: string) {
    k == "PDU" || k == "PROGRAMAS" || k == "ZONA URBANA"
  }

  /** The keyword families tried, in order, on the lower-cased description
      of a placeholder key, with the key each one selects. */
  const Refinements: seq<(seq<string>, string)> := [
    (["parcial"], "PDU_PP"),
    (["poblad", "rural", "habitacional"], "PDU_PR"),
    (["urbana", "urbano", "barrio"], "PDU_ZU"),
    (["equipamiento"], "PDU_ER")
  ]

  predicate MentionsAny(desc: string, words: seq<string>) {
    exists w :: w in words && Includes(desc, w)
  }

  /** The key of the first family some word of which occurs in `desc`;
      `k` itself when none does. */
  function Refine(desc: string, families: seq<(seq<string>, string)>, k: string): (r: string)
    ensures (exists i :: 0 <= i < |families| && MentionsAny(desc, families[i].0))
              || r == k
    ensures forall i :: 0 <= i < |families| && MentionsAny(desc, families[i].0) ==>
              exists j :: 0 <= j <= i && r == families[j].1 && MentionsAny(desc, families[j].0)
  {
    if families == [] then k
    else if MentionsAny(desc, families[0].0) then families[0].1
    else
      var r := Refine(desc, families[1..], k);
      assert forall i :: 1 <= i < |families| ==> families[i] == families[1..][i - 1];
      r
  }

  function Disambiguate(desc: string, k: string): string {
    Refine(desc, Refinements, k)
  }

  const ProtectedAreaName: string := "ÁREA NATURAL PROTEGIDA"

  /** `(CLAVE || '').toString().trim().toUpperCase()`. */
  function ZoneKey(props: Props): string {
    ToUpper(Trim(TextOr(Lookup(props, "CLAVE"))))
  }

  /** The zoning stage when a zoning feature with key `k` and PGOEDF `pg`
      holds the point.  A placeholder key whose PGOEDF is a truthy number
      throws (`toLowerCase` of a number). */
  function ZoningHit(r: Analysis, k: string, pg: Option<Value>): Outcome {
    if IsSentinel(k) && Truthy(pg) && pg.value.Number? then Threw
    else
      var key := if IsSentinel(k) then Disambiguate(ToLower(TextOr(pg)), k) else k;
      var r1 := if IsSentinel(k) then r.(noActivitiesCatalog := true) else r;
      Returned(r1.(zoningKey := Some(key), zoningName := Some(if Truthy(pg) then pg.value else Text(key))))
  }

  /** The zoning stage when no zoning feature holds the point. */
  function ZoningFallback(r: Analysis): Analysis {
    if r.status == ConservationSoil then
      if r.isANP then r.(zoningName := Some(Text(ProtectedAreaName)), zoningKey := Some("ANP"))
      else r.(zoningName := Some(Text("Información no disponible")), zoningKey := Some("NODATA"))
    else if r.status == UrbanSoil then
      if r.isANP then
        r.(noActivitiesCatalog := true, zoningName := Some(Text(ProtectedAreaName)), zoningKey := Some("ANP"))
      else r.(noActivitiesCatalog := true, zoningName := Some(Text("Suelo Urbano")))
    else r
  }

  // ---------------------------------------------------------------------
  // Stage 4.1: the activity catalogue

  /** `(row[key] || '').trim().toUpperCase()`. */
  function Cell(row: Row, key: string): string {
    ToUpper(Trim(if key in row then row[key] else ""))
  }

  /** `row[a] || row[b] || ''`. */
  function Pick(row: Row, a: string, b: string): (r: string)
    ensures a in row && row[a] != "" ==> r == row[a]
    ensures !(a in row && row[a] != "") && b in row ==> r == row[b]
    ensures !(a in row && row[a] != "") && b !in row ==> r == ""
  {
    if a in row && row[a] != "" then row[a]
    else if b in row && row[b] != "" then row[b]
    else ""
  }

  function ActivityOf(row: Row): Activity {
    Activity(Trim(Pick(row, "Sector", "ector")),
             Trim(Pick(row, "Actividad general", "Act_general")),
             Trim(Pick(row, "Actividad específica", "Actividad especifica")))
  }

  /** The activities of the rows whose cell for `key` reads `verdict`, in
      row order. */
  function WithVerdict(rules: seq<Row>, key: string, verdict: string): seq<Activity>
    decreases |rules|
  {
    if rules == [] then []
    else
      var row := rules[|rules| - 1];
      WithVerdict(rules[..|rules| - 1], key, verdict)
      + (if Cell(row, key) == verdict then [ActivityOf(row)] else [])
  }

  /** The zoning name, upper-cased, mentions PDU or POBLAD. */
  predicate NamesPdu(name: Option<Value>) {
    var zn := ToUpper(TextOr(name));
    Includes(zn, "PDU") || Includes(zn, "POBLAD")
  }

  /** The gates after a non-empty catalogue was loaded, then the rule
      pass; `r1` already carries `isPDU`. */
  function RuleStage(r1: Analysis, key: string, rules: seq<Row>): Analysis
    requires |rules| > 0
  {
    if key == "ANP" || key == "NODATA" || r1.isPDU then r1.(noActivitiesCatalog := true)
    else if key !in rules[0] then
      r1.(zoningCatalogError := Some(MissingColumn(key)), noActivitiesCatalog := true)
    else
      r1.(allowedActivities := WithVerdict(rules, key, "A"),
          prohibitedActivities := WithVerdict(rules, key, "P"))
  }

  function CatalogStage(r: Analysis, rules: Option<seq<Row>>): Analysis {
    if !(r.zoningKey.Some? && r.zoningKey.value != "") then r
    else if rules.None? then
      r.(zoningCatalogError := Some(RulesLoadError), noActivitiesCatalog := true)
    else if |rules.value| == 0 then
      r.(zoningCatalogError := Some(RulesEmpty), noActivitiesCatalog := true)
    else RuleStage(r.(isPDU := NamesPdu(r.zoningName)), r.zoningKey.value, rules.value)
  }

  // ---------------------------------------------------------------------
  // Stage 5: the protected area's internal zoning

  function AnpInternalStage(c: Geometry.Point, d: DataCache, r: Analysis): Analysis {
    if r.isANP && Truthy(AnpId(r)) && HasFeatures(d.anpInternal) && Find(d.anpInternal, c).Some? then
      var z := Find(d.anpInternal, c).value;
      r.(anpInternalFeature := Some(z), anpZoningData := Some(z.properties), hasInternalAnpZoning := true)
    else r
  }

  // ---------------------------------------------------------------------
  // The whole procedure

  /** The record built up to the end of stage 3, for a point inside the city
      (or a city layer without features) with a soil layer. */
  function SoilAndAnp(c: Geometry.Point, d: DataCache): Analysis {
    var r := Initial(c).(alcaldia := BoroughName(Find(d.alcaldias, c)));
    AnpStage(c, d, SoilStage(c, d, r))
  }

  function ZoningOf(c: Geometry.Point, d: DataCache): Option<Feature> {
    if HasFeatures(d.zoning) then Find(d.zoning, c) else None
  }

  /** Stage 4 with or without a zoning feature. */
  function ZoningOutcome(r: Analysis, z: Option<Feature>): Outcome {
    if z.Some? then ZoningHit(r, ZoneKey(z.value.properties), Lookup(z.value.properties, "PGOEDF"))
    else Returned(ZoningFallback(r))
  }

  /** Stages 4 to 5 on the record built by stage 3. */
  function Zoned(c: Geometry.Point, d: DataCache, r: Analysis): Outcome {
    match ZoningOutcome(r, ZoningOf(c, d))
    case Threw => Threw
    case Returned(r2) => Returned(AnpInternalStage(c, d, CatalogStage(r2, d.rules)))
  }

  /** Stages 2 to 5, once the point is known not to lie outside the city. */
  function Inside(c: Geometry.Point, d: DataCache): Outcome {
    if !HasFeatures(d.sc) then
      Returned(Initial(c).(alcaldia := BoroughName(Find(d.alcaldias, c))))
    else Zoned(c, d, SoilAndAnp(c, d))
  }

  function Classify(c: Geometry.Point, data: Option<DataCache>): Outcome {
    if data.None? || data.value.cdmx.Absent? then
      Returned(Initial(c).(error := Some(IncompleteCache)))
    else if IsOutside(c, data.value) then
      Returned(Initial(c).(status := OutsideCdmx, outsideContext := OutsideContext(c, data.value)))
    else Inside(c, data.value)
  }

  // ---------------------------------------------------------------------
  // The imperative engine

  lemma WithVerdictStep(rules: seq<Row>, i: nat, key: string, verdict: string)
    requires i < |rules|
    ensures WithVerdict(rules[..i + 1], key, verdict)
            == WithVerdict(rules[..i], key, verdict)
               + (if Cell(rules[i], key) == verdict then [ActivityOf(rules[i])] else [])
  {
    assert rules[..i + 1][..i] == rules[..i];
  }

  /** The `rules.forEach` pass: push every row's activity onto the list its
      verdict cell names, skipping empty cells and other verdicts. */
  method MatchRules(rules: seq<Row>, key: string) returns (all: seq<Activity>, pro: seq<Activity>)
    ensures all == WithVerdict(rules, key, "A")
    ensures pro == WithVerdict(rules, key, "P")
  {
    all, pro := [], [];
    var i := 0;
    while i < |rules|
      invariant 0 <= i <= |rules|
      invariant all == WithVerdict(rules[..i], key, "A")
      invariant pro == WithVerdict(rules[..i], key, "P")
    {
      var row := rules[i];
      WithVerdictStep(rules, i, key, "A");
      WithVerdictStep(rules, i, key, "P");
      var val := Cell(row, key);
      if val != "" {
        var act := ActivityOf(row);
        if val == "A" {
          all := all + [act];
        } else if val == "P" {
          pro := pro + [act];
        }
      }
      i := i + 1;
    }
    assert rules[..i] == rules;
  }

  /** `l` is one of the cache's eight layers. */
  predicate LayerOf(d: DataCache, l: Layer) {
    l == d.cdmx || l == d.alcaldias || l == d.sc || l == d.edomex
    || l == d.morelos || l == d.zoning || l == d.anp || l == d.anpInternal
  }

  lemma LayerInFootprint(d: DataCache, l: Layer)
    requires LayerOf(d, l)
    ensures forall f :: f in FeaturesOf(l) ==> f in Footprint(Some(d))
  {
    assert forall f :: f in FeaturesOf(l) ==> f in Members(l);
  }

  /** `findFeature` on one layer of the cache: the caches of every layer
      stay valid. */
  method Locate(p: Geometry.Point, data: Option<DataCache>, l: Layer) returns (r: Option<Feature>)
    requires data.Some? && LayerOf(data.value, l) && CachesReady(data)
    modifies Footprint(data)
    ensures r == Find(l, p)
    ensures CachesReady(data)
  {
    LayerInFootprint(data.value, l);
    assert data == Some(data.value);
    r := FindFeature(p, l);
  }

  /** Stage 4 in the source's order of assignments. */
  method ZoningStep(r: Analysis, z: Option<Feature>) returns (outcome: Outcome)
    ensures outcome == ZoningOutcome(r, z)
  {
    var r := r;
    if z.Some? {
      var props := z.value.properties;
      var k := ToUpper(Trim(TextOr(Lookup(props, "CLAVE"))));
      var pg := Lookup(props, "PGOEDF");
      if IsSentinel(k) {
        if Truthy(pg) && pg.value.Number? {
          return Threw;
        }
        var desc := ToLower(TextOr(pg));
        k := Disambiguate(desc, k);
        r := r.(noActivitiesCatalog := true);
      }
      r := r.(zoningKey := Some(k));
      r := r.(zoningName := Some(if Truthy(pg) then pg.value else Text(k)));
    } else {
      if r.status == ConservationSoil {
        if r.isANP {
          r := r.(zoningName := Some(Text(ProtectedAreaName)), zoningKey := Some("ANP"));
        } else {
          r := r.(zoningName := Some(Text("Información no disponible")), zoningKey := Some("NODATA"));
        }
      } else if r.status == UrbanSoil {
        r := r.(noActivitiesCatalog := true);
        if r.isANP {
          r := r.(zoningName := Some(Text(ProtectedAreaName)), zoningKey := Some("ANP"));
        } else {
          r := r.(zoningName := Some(Text("Suelo Urbano")));
        }
      }
    }
    return Returned(r);
  }

  /** Stage 4.1: the catalogue gates, then the rule pass. */
  method CatalogStep(r: Analysis, rules: Option<seq<Row>>) returns (r': Analysis)
    ensures r' == CatalogStage(r, rules)
  {
    r' := r;
    if r'.zoningKey.Some? && r'.zoningKey.value != "" {
      var key := r'.zoningKey.value;
      if rules.None? {
        r' := r'.(zoningCatalogError := Some(RulesLoadError), noActivitiesCatalog := true);
      } else if |rules.value| == 0 {
        r' := r'.(zoningCatalogError := Some(RulesEmpty), noActivitiesCatalog := true);
      } else {
        var zn := ToUpper(TextOr(r'.zoningName));
        r' := r'.(isPDU := Includes(zn, "PDU") || Includes(zn, "POBLAD"));
        if key == "ANP" || key == "NODATA" || r'.isPDU {
          r' := r'.(noActivitiesCatalog := true);
        } else if key !in rules.value[0] {
          r' := r'.(zoningCatalogError := Some(MissingColumn(key)), noActivitiesCatalog := true);
        } else {
          var all, pro := MatchRules(rules.value, key);
          r' := r'.(allowedActivities := all, prohibitedActivities := pro);
        }
      }
    }
  }

  /** Stage 5: the internal zoning of the protected area found. */
  method InternalZoningStep(c: Geometry.Point, data: Option<DataCache>, r: Analysis) returns (r': Analysis)
    requires data.Some? && CachesReady(data)
    modifies Footprint(data)
    ensures r' == AnpInternalStage(c, data.value, r)
    ensures CachesReady(data)
  {
    r' := r;
    var d := data.value;
    if r'.isANP && Truthy(AnpId(r')) && HasFeatures(d.anpInternal) {
      var zInt := Locate(c, data, d.anpInternal);
      if zInt.Some? {
        r' := r'.(anpInternalFeature := Some(zInt.value), anpZoningData := Some(zInt.value.properties),
                  hasInternalAnpZoning := true);
      }
    }
  }

  /** The zoning feature holding the point, when the layer has features. */
  method ZoningFeature(c: Geometry.Point, data: Option<DataCache>) returns (z: Option<Feature>)
    requires data.Some? && CachesReady(data)
    modifies Footprint(data)
    ensures z == ZoningOf(c, data.value)
    ensures CachesReady(data)
  {
    z := None;
    if HasFeatures(data.value.zoning) {
      z := Locate(c, data, data.value.zoning);
    }
  }

  /** Stages 4 to 5: zoning key, catalogue, internal protected-area zoning. */
  method ZoneAndCatalog(c: Geometry.Point, data: Option<DataCache>, r: Analysis) returns (outcome: Outcome)
    requires data.Some? && CachesReady(data)
    modifies Footprint(data)
    ensures outcome == Zoned(c, data.value, r)
    ensures CachesReady(data)
  {
    var d := data.value;
    var z := ZoningFeature(c, data);
    var zoned := ZoningStep(r, z);
    if zoned.Threw? {
      return Threw;
    }
    var r' := CatalogStep(zoned.analysis, d.rules);
    r' := InternalZoningStep(c, data, r');
    return Returned(r');
  }

  /** Stages 2 to 5 for a point the city test did not exclude. */
  method InsideCity(c: Geometry.Point, data: Option<DataCache>) returns (outcome: Outcome)
    requires data.Some? && CachesReady(data)
    modifies Footprint(data)
    ensures outcome == Inside(c, data.value)
    ensures CachesReady(data)
  {
    var d := data.value;
    var r := Initial(c);
    var alc := Locate(c, data, d.alcaldias);
    r := r.(alcaldia := BoroughName(alc));

    if d.sc.Absent? || |d.sc.features| == 0 {
      r := r.(status := NoData);
      return Returned(r);
    }
    var sc := Locate(c, data, d.sc);
    if sc.None? {
      r := r.(status := UrbanSoil);
    } else {
      r := r.(status := ConservationSoil, isRestricted := true);
    }

    if HasFeatures(d.anp) {
      var anpFeat := Locate(c, data, d.anp);
      if anpFeat.Some? {
        r := r.(isANP := true, anp := Some(AnpRecord(anpFeat.value.properties)));
      }
    }
    outcome := ZoneAndCatalog(c, data, r);
  }

  /** `analyzeLocation`, stage by stage.  Filling box caches is its only
      effect on the layers, and the outcome is `Classify`'s. */
  method AnalyzeLocation(c: Geometry.Point, data: Option<DataCache>) returns (outcome: Outcome)
    requires CachesReady(data)
    modifies Footprint(data)
    ensures outcome == Classify(c, data)
    ensures CachesReady(data)
  {
    var r := Initial(c);
    if data.None? || data.value.cdmx.Absent? {
      r := r.(status := NoData, error := Some(IncompleteCache));
      return Returned(r);
    }
    var d := data.value;
    if |d.cdmx.features| > 0 {
      var city := Locate(c, data, d.cdmx);
      if city.None? {
        r := r.(status := OutsideCdmx);
        if d.edomex.Collection? && d.morelos.Collection? {
          var inEM := Locate(c, data, d.edomex);
          var inMOR := Locate(c, data, d.morelos);
          r := r.(outsideContext := Some(NeighbourOf(inEM.Some?, inMOR.Some?)));
        }
        return Returned(r);
      }
    }
    outcome := InsideCity(c, data);
  }
}
