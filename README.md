# Visor de zonificación: a Dafny model of the location classifier

The viewer answers one question for a point of Mexico City: which land-use
regime applies there, and which activities the ecological ordinance
(PGOEDF) allows or prohibits at that spot. Behind the map sits a
classification engine, `analyzeLocation`. It resolves the point against a
fixed sequence of feature layers:

1. the city boundary, and the neighbouring states when the point is outside;
2. the boroughs (alcaldías);
3. the conservation-soil mask;
4. the protected natural areas (ANP);
5. the ecological zoning, where the placeholder keys are refined from the description text;
6. the activity catalogue;
7. the ANP internal zoning.

Around the engine sit the domain predicates that decide which result cards
are shown, the display helpers (zoning label, text contrast, citizen
explanation, map colours), three stores (interface, map, analysis) and the
mobile bottom sheet.

The model follows the source file by file:

- **The geometry kernel** (`geometry.dfy`, `layers.dfy`).
  - The even-odd ray-casting test is a loop, proved equal to a crossing count.
  - The bounding box is cached on the feature object, and filling it is proved idempotent.
  - The reverse scan `findFeature` is proved to return the last feature that holds the point. The box pre-check never changes its answer.
- **The engine** (`engine.dfy`).
  - An imperative method (`AnalyzeLocation`) with its stage methods, proved equal to a pure, staged definition (`Classify`).
  - The analysis record is `classification.dfy`.
  - The record-level guarantees are lemmas about `Classify` (`engine_properties.dfy`), and so hold for the method.
- **Display rules** (`zoning_rules.dfy`, `analysis_utils.dfy`, `styles.dfy`).
  - These are pure functions over the record.
  - `engine_views.dfy` ties them to the records the engine can produce.
- **Stores and the sheet** (`ui_store.dfy`, `map_store.dfy`, `analysis_store.dfy`, `bottom_sheet.dfy`).
  - Each is a class whose methods state the whole new state.
  - The sheet's pure transitions are functions.
- **JavaScript semantics** (`js_string.dfy`, `js_value.dfy`).
  - Trimming, Latin-1 case mapping, `includes`, `parseInt(…, 16)`, and the truthiness of property values.

The category table and the catalogue rows come from modules outside this
model, so they are parameters. The same holds for the loaded layers. The
model follows the code, including where its behaviour differs from what its
own flags and comments suggest:

- A city layer with no features skips the outside test (`EngineProperties.EmptyCityLayerSkipsCheck`).
- Urban soil with an ordinary zoning key still runs the rule pass (`EngineProperties.UrbanSoilCanCarryActivities`). The catalogue card hides the resulting lists (`EngineViews.UrbanActivitiesHidden`).
- The placeholder keys set `noActivitiesCatalog`, but the rule pass does not consult that flag. The partial-programme key PDU_PP is therefore still matched against the catalogue. Without a column it gets the missing-column error rather than no error (`EngineProperties.PartialProgrammeStillMatched`).
- A city layer without features and an incomplete cache are different cases. Only a missing cache or a missing city layer gives the "Data cache incompleto" error.

## Model

| member | source | states |
|---|---|---|
| Geometry.PointInRing | src/utils/geoUtils.js:13-32 | `pointInRing` answers the even-odd rule: the parity of the edges that straddle the point's latitude (horizontal edges skipped) with the point left of the intercept |
| Geometry.AnyRingContains | src/utils/geoUtils.js:37 | `holes.some(pointInRing)` is true iff some hole ring holds the point |
| Geometry.ShapeContainsPoint | src/utils/geoUtils.js:34-39 | one polygon holds the point iff ring 0 does and no hole does |
| Geometry.IsPointInPolygon | src/utils/geoUtils.js:5-51 | Polygon: the outer/hole rule; MultiPolygon: some member polygon under that rule; any other geometry type: false |
| Geometry.EmptyRingIsOutside | src/utils/geoUtils.js:13-32 | an empty ring holds no point |
| Geometry.ShortRingIsOutside | src/utils/geoUtils.js:13-32 | a ring of fewer than three vertices holds no point |
| Geometry.InterceptSymmetric | src/utils/geoUtils.js:22-26 | the edge's x-intercept does not depend on which endpoint comes first |
| Geometry.CrossesSymmetric | src/utils/geoUtils.js:24-26 | the crossing test is the same for an edge and its reverse |
| Geometry.ClosedPrefixCrossings | src/utils/geoUtils.js:16-29 | the edges of a closed ring before the closing edge differ from those of the open ring only by the edge into vertex 0 |
| Geometry.ClosingRingPreservesTest | src/utils/geoUtils.js:13-32 | repeating the first vertex at the end (a closed versus an open ring) does not change the answer |
| Geometry.InterceptBetween | src/utils/geoUtils.js:24-26 | on a straddling edge the intercept lies between the endpoints' longitudes |
| Geometry.SomeEdgeCrosses | src/utils/geoUtils.js:16-29 | a positive crossing count has a crossing edge as witness |
| Geometry.StraddleParity | src/utils/geoUtils.js:16-29 | walking the ring, the straddles seen so far have the parity of whether the current vertex is on the other side of the line from vertex 0 |
| Geometry.StraddlesEven | src/utils/geoUtils.js:16-29 | a closed walk crosses any horizontal line an even number of times |
| Geometry.LeftPointCrossings | src/utils/geoUtils.js:24-26 | for a point left of every vertex, the crossing edges are exactly the straddling ones |
| Geometry.RingWitnesses | src/utils/geoUtils.js:13-32 | a point inside a ring has ring vertices on both sides of it in longitude and in latitude |
| Geometry.IncludeRingBounds | src/utils/geoUtils.js:59-67 | `processRing` widens a box to the smallest box holding the old box and every vertex of the ring |
| Geometry.OuterBoundsExact | src/utils/geoUtils.js:72-76 | the MultiPolygon box is the smallest box holding the ring-0 vertices of every member polygon |
| Geometry.GeometryBoundsExact | src/utils/geoUtils.js:54-81 | the computed box is empty iff the geometry has no ring-0 vertex, covers every ring-0 vertex and lies inside any box that does; holes never take part |
| Geometry.ContainedPointNotRejected | src/utils/geoUtils.js:93-100 | every point the ray-casting test accepts lies inside the feature's box (inclusive), so the fast reject never drops it |
| Layers.Feature.constructor | src/utils/geoUtils.js:55 | a new feature has no cached box |
| Layers.ProcessRing | src/utils/geoUtils.js:59-67 | the min/max loop computes the ring's box |
| Layers.GetFeatureBounds | src/utils/geoUtils.js:54-81 | returns the box of the feature's outer rings and caches it; a second call returns the cached box unchanged |
| Layers.LastIndex | src/utils/geoUtils.js:83-103 | the highest index whose geometry holds the point, or none when no feature does |
| Layers.BoxCheckKeepsAnswer | src/utils/geoUtils.js:93-100 | the scan with the bounding-box skip finds the same index as the plain reverse scan |
| Layers.FindFeature | src/utils/geoUtils.js:83-103 | `findFeature` returns null for a missing collection and otherwise the last feature holding the point; every box cache stays valid |
| Classification.Initial | src/utils/analysisEngine.js:9-16 | the record starts as NO_DATA, unrestricted, with empty activity lists |
| Engine.NeighbourOf | src/utils/analysisEngine.js:30 | the State of Mexico when its layer holds the point, else Morelos when that one does, else null |
| Engine.AnpRecord | src/utils/analysisEngine.js:57-66 | the ANP metadata copies the feature's properties and reads each of the six fields with a null default |
| Engine.Refine | src/utils/analysisEngine.js:76-86 | the refined key is that of the first keyword family mentioned in the description, or the key unchanged when none is |
| Engine.Pick | src/utils/analysisEngine.js:143-145 | a header field resolves to its first non-empty alias, else the second alias, else the empty string |
| Engine.MatchRules | src/utils/analysisEngine.js:139-151 | the `forEach` pass lists the rows marked A and the rows marked P, in row order |
| Engine.Locate | src/utils/analysisEngine.js:28-29 | one layer lookup answers `findFeature` and keeps every cache of the data valid |
| Engine.ZoningStep | src/utils/analysisEngine.js:70-110 | stage 4, in the source's order of assignments, equals its staged definition |
| Engine.CatalogStep | src/utils/analysisEngine.js:114-155 | stage 4.1 (the catalogue gates and the rule pass) equals its staged definition |
| Engine.InternalZoningStep | src/utils/analysisEngine.js:158-165 | stage 5 equals its staged definition |
| Engine.ZoningFeature | src/utils/analysisEngine.js:71 | the zoning lookup runs only when the zoning layer has features |
| Engine.ZoneAndCatalog | src/utils/analysisEngine.js:70-165 | stages 4 to 5 equal their staged definition |
| Engine.InsideCity | src/utils/analysisEngine.js:35-167 | stages 2 to 5 equal their staged definition |
| Engine.AnalyzeLocation | src/utils/analysisEngine.js:8-168 | the imperative engine returns exactly `Classify` of its inputs, and filling box caches is its only effect |
| EngineProperties.IncompleteCacheIsNoData | src/utils/analysisEngine.js:19-23 | a missing cache or city layer gives NO_DATA with the cache error and empty lists; no other path sets `error` |
| EngineProperties.OutsideIff | src/utils/analysisEngine.js:25-33 | OUTSIDE_CDMX exactly when the city layer has features and none holds the point |
| EngineProperties.OutsideRecord | src/utils/analysisEngine.js:25-33 | an outside record carries nothing further; `outsideContext` is set iff both neighbouring layers are loaded and names the State of Mexico first |
| EngineProperties.EmptyCityLayerSkipsCheck | src/utils/analysisEngine.js:25 | a city layer with zero features skips the boundary test and never yields OUTSIDE_CDMX |
| EngineProperties.BoroughAndMissingSoil | src/utils/analysisEngine.js:36-43 | `alcaldia` is the borough's NOMBRE or "CDMX"; without soil features the record is NO_DATA with only the borough set |
| EngineProperties.SoilStatus | src/utils/analysisEngine.js:45-51 | CONSERVATION_SOIL exactly when a soil feature holds the point, URBAN_SOIL otherwise |
| EngineProperties.RestrictedIffConservation | src/utils/analysisEngine.js:49-50 | `isRestricted` holds exactly on conservation soil, on every path |
| EngineProperties.AnpDetection | src/utils/analysisEngine.js:54-68 | `isANP` holds exactly when an ANP feature holds a point in the city on either soil; the metadata is then that feature's |
| EngineProperties.ThrowsIff | src/utils/analysisEngine.js:76-77 | the engine throws exactly when the zoning key is a placeholder and PGOEDF is a truthy number |
| EngineProperties.MentionsOne | src/utils/analysisEngine.js:78 | a one-word family is mentioned iff the description includes that word |
| EngineProperties.MentionsThree | src/utils/analysisEngine.js:80 | a three-word family is mentioned iff the description includes one of the three words |
| EngineProperties.DisambiguateOrder | src/utils/analysisEngine.js:76-86 | parcial gives PDU_PP; else poblad/rural/habitacional gives PDU_PR; else urbana/urbano/barrio gives PDU_ZU; else equipamiento gives PDU_ER; else the key is unchanged |
| EngineProperties.ZoningHitKey | src/utils/analysisEngine.js:73-91 | a placeholder key sets `noActivitiesCatalog` and becomes a PDU code or stays; any other key is kept; `zoningName` is PGOEDF, falling back to the key |
| EngineProperties.NoZoningFeature | src/utils/analysisEngine.js:92-110 | conservation soil gets the ANP or NODATA key; urban soil gets no catalogue and the ANP key or none; no activities either way |
| EngineProperties.VerdictsBounded | src/utils/analysisEngine.js:139-151 | each row lands in at most one list, so the two lists together are no longer than the catalogue |
| EngineProperties.FilteredListed | src/utils/analysisEngine.js:139-151 | every kept row has its activity in the filtered list |
| EngineProperties.FilteredSource | src/utils/analysisEngine.js:139-151 | every listed activity comes from a kept row |
| EngineProperties.VerdictIsFilter | src/utils/analysisEngine.js:139-151 | the rule pass for one verdict is the filter of the rows by their trimmed, upper-cased cell |
| EngineProperties.VerdictMembership | src/utils/analysisEngine.js:140-148 | an activity is listed under a verdict exactly when some row with that verdict describes it |
| EngineProperties.ActivitiesNeedRulePass | src/utils/analysisEngine.js:114-155 | activities appear only if every gate passed, and then the lists are exactly the rows marked A and P |
| EngineProperties.CatalogErrors | src/utils/analysisEngine.js:114-137 | the load, empty and missing-column errors arise exactly from a missing, empty or column-less catalogue; the missing-column error names the key |
| EngineProperties.UrbanSoilCanCarryActivities | src/utils/analysisEngine.js:114-151 | on urban soil an ordinary key whose column exists still gets the rows' verdicts |
| EngineProperties.PartialProgrammeHit | src/utils/analysisEngine.js:76-91 | a placeholder key whose description mentions "parcial" becomes PDU_PP with `noActivitiesCatalog` set |
| EngineProperties.PartialProgrammeCatalog | src/utils/analysisEngine.js:127-152 | the PDU_PP key with a non-PDU name is matched against the catalogue: verdicts with a column, the missing-column error without |
| EngineProperties.PartialProgrammeStillMatched | src/utils/analysisEngine.js:76-152 | the rule pass ignores the `noActivitiesCatalog` flag a placeholder key set |
| EngineProperties.InternalZoning | src/utils/analysisEngine.js:158-165 | the internal zoning is attached exactly for an ANP with a truthy ANP_ID and a matching internal feature, with a copy of that feature's properties |
| ZoningRules.StatusTests | src/utils/domain/zoningRules.js:6-16 | each status test holds exactly for its status, never for a missing record; at most one holds |
| ZoningRules.ZoningResultShown | src/utils/domain/zoningRules.js:46-55 | the zoning card needs conservation soil and a key that is neither empty, ANP nor NODATA; it implies the normative card |
| ZoningRules.CatalogShown | src/utils/domain/zoningRules.js:39-44 | the catalogue card is conservation soil without `isPDU` and without `noActivitiesCatalog` |
| ZoningRules.SpecificPduHasData | src/utils/domain/zoningRules.js:28-30 | a key starting with PDU_ is zoning data and is not ANP |
| AnalysisUtils.ZoningDisplay | src/utils/analysisUtils.js:4-14 | empty for no record; the fixed labels for ANP and NODATA; else the table's label, else `zoningName`, else "Sin información" |
| AnalysisUtils.EntryOfUniqueKey | src/utils/analysisUtils.js:10 | in a table with distinct keys, the lookup finds the entry stored under the key |
| AnalysisUtils.LabelBeforeName | src/utils/analysisUtils.js:10-13 | a non-empty table label wins over the zoning name |
| AnalysisUtils.ExpandShortHex | src/utils/analysisUtils.js:20 | a three-digit code becomes six digits by doubling each digit; other lengths are kept |
| AnalysisUtils.Verdict | src/utils/analysisUtils.js:24-25 | dark text exactly when all three channels parsed and 299r + 587g + 114b reaches 128000 |
| AnalysisUtils.ContrastYIQ | src/utils/analysisUtils.js:17-26 | "black" exactly for the empty input; otherwise one of the two text colours |
| AnalysisUtils.ParseTwoHexDigits | src/utils/analysisUtils.js:21-23 | two hex digits parse to their value |
| AnalysisUtils.SixDigitCode | src/utils/analysisUtils.js:21-25 | for six hex digits the verdict is the YIQ threshold on the three byte values |
| AnalysisUtils.HashIsOptional | src/utils/analysisUtils.js:19 | a leading `#` does not change the verdict |
| AnalysisUtils.SixDigitContrast | src/utils/analysisUtils.js:17-26 | `#rrggbb` gives dark text iff its YIQ luma reaches the threshold |
| AnalysisUtils.ThreeDigitContrast | src/utils/analysisUtils.js:20 | `#rgb` gets the verdict of its doubled six-digit form |
| AnalysisUtils.ShortCodeContrast | src/utils/analysisUtils.js:17-26 | `#rgb` gives dark text iff the YIQ luma of 17 times each digit reaches the threshold |
| AnalysisUtils.WhiteGetsDarkText | src/utils/analysisUtils.js:17-26 | the single input `#fff` gets dark text (an example) |
| AnalysisUtils.BlackGetsLightText | src/utils/analysisUtils.js:17-26 | the single input `#000` gets light text (an example) |
| AnalysisUtils.CitizenExplanation | src/utils/analysisUtils.js:29-82 | an explanation exists exactly outside the city and on the two soils; outside it is the neighbouring-state text carrying `outsideContext`'s state when that is set; the urban text carries `alcaldia` or "la alcaldía" when that is falsy; the ANP text takes priority on both soils |
| AnalysisUtils.ConservationKeyGroups | src/utils/analysisUtils.js:57-79 | FC/FCE/FP/FPE share one text, PR/PRA one, AE/AEE/AF/AFE one; RE, PDU_ER and PDU_PR have their own; every other key gets the general text |
| Styles.Entry | src/utils/analysisUtils.js:9-10 | a table lookup finds an entry exactly when the key is in the table |
| Styles.FirstPrefix | src/utils/geoUtils.js:108 | the first table key that is a prefix of the upper-cased key, or none |
| Styles.ZoningColor | src/utils/geoUtils.js:105-111 | '#ccc' for a falsy key; else the colour of the first category whose key prefixes the upper-cased key, unless that category's key is empty (falsy), which gives '#9ca3af' as no match does |
| Styles.ZoningColorIgnoresCase | src/utils/geoUtils.js:107 | a key and its upper-cased form get the same colour |
| Styles.SectorStyle | src/utils/geoUtils.js:158-176 | the keyword families are tried in order on the trimmed lower-cased name; the neutral palette exactly when none matches, the infra/equip branch included |
| JsString.Trim | src/utils/analysisEngine.js:74 | the result is an infix of the input with only whitespace before and after it, and itself neither starts nor ends with whitespace; a string without whitespace is unchanged |
| JsString.ToLower | src/utils/analysisEngine.js:77 | lower-cases each character, keeping the length |
| JsString.ToUpperAppend | src/utils/analysisEngine.js:74 | upper-casing distributes over concatenation |
| JsString.ToUpperIdempotent | src/utils/analysisEngine.js:74 | upper-casing twice is upper-casing once |
| JsString.IncludesAt | src/utils/analysisEngine.js:78-85 | an occurrence anywhere makes `includes` true |
| JsString.IncludesWitness | src/utils/analysisEngine.js:78-85 | `includes` is true only with an occurrence |
| JsValue.TextOr | src/utils/analysisEngine.js:74 | `(v \|\| '').toString()` is empty exactly for a falsy value; a truthy text is kept and a truthy number gives its digits |
| UiStore.Store.constructor | src/stores/useUIStore.js:4-9 | sidebar open, legend and help closed, sheet collapsed, no toasts, id counter 0 |
| UiStore.Store.ToggleSidebar | src/stores/useUIStore.js:12 | flips only the sidebar flag |
| UiStore.Store.SetSidebarOpen | src/stores/useUIStore.js:13 | sets only the sidebar flag |
| UiStore.Store.SetLegendOpen | src/stores/useUIStore.js:15 | sets only the legend flag |
| UiStore.Store.SetHelpOpen | src/stores/useUIStore.js:17 | sets only the help flag |
| UiStore.Store.SetMobileSheetState | src/stores/useUIStore.js:19 | sets only the sheet state |
| UiStore.Store.AddToast | src/stores/useUIStore.js:21-36 | appends a toast with id counter + 1 and kind 'info' by default, advances the counter, and keeps the ids increasing and bounded by the counter |
| UiStore.Store.RemoveToast | src/stores/useUIStore.js:38-40 | drops exactly the toasts with that id and keeps the ids increasing |
| UiStore.Store.ResetUI | src/stores/useUIStore.js:43-47 | sidebar open, legend closed, sheet collapsed; help and the toast queue unchanged |
| UiStore.WithoutId | src/stores/useUIStore.js:39 | the filter keeps exactly the toasts with another id |
| UiStore.WithoutIdKeepsOrder | src/stores/useUIStore.js:38-40 | removing keeps increasing ids increasing |
| UiStore.WithoutIdIdempotent | src/stores/useUIStore.js:38-40 | removing twice is removing once |
| UiStore.WithoutAbsentId | src/stores/useUIStore.js:38-40 | removing an id no toast carries changes nothing |
| UiStore.WithoutIdAppend | src/stores/useUIStore.js:28 | the filter distributes over concatenation |
| UiStore.AddedToastRemovable | src/stores/useUIStore.js:22-33 | removing the id a toast was just given restores the queue as it was before the toast was added |
| MapStore.Store.constructor | src/stores/useMapStore.js:4-16 | no location, zoom 12, 'SATELLITE', opacity 0.25, the seven overlays all visible |
| MapStore.Store.SetLocation | src/stores/useMapStore.js:22 | sets only the location |
| MapStore.Store.SetZoom | src/stores/useMapStore.js:24 | sets only the zoom |
| MapStore.Store.SetActiveBaseLayer | src/stores/useMapStore.js:26 | sets only the base layer |
| MapStore.Store.SetGlobalOpacity | src/stores/useMapStore.js:28 | sets only the opacity |
| MapStore.Store.SetVisibleMapLayers | src/stores/useMapStore.js:30-32 | a function argument is applied to the current map, a value replaces it |
| MapStore.Store.ToggleLayer | src/stores/useMapStore.js:34-39 | negates one overlay's flag and changes nothing else |
| MapStore.Store.ResetMap | src/stores/useMapStore.js:41-44 | clears only the location |
| Visibility.Toggled | src/stores/useMapStore.js:34-39 | the key's flag is negated (an absent key becomes true) and every other key keeps its presence and value |
| Visibility.ToggleTwice | src/stores/useMapStore.js:34-39 | toggling a present key twice restores the map; an absent key ends present and false |
| Visibility.TogglesCommute | src/stores/useMapStore.js:34-39 | toggles of distinct keys commute |
| AnalysisStore.NoticeFor | src/stores/useAnalysisStore.js:69-77 | 'info' for an outside result, 'success' for any other result, 'error' with the failure text when the engine threw |
| AnalysisStore.StoredAnalysis | src/stores/useAnalysisStore.js:53-67 | the stored result is the engine's, or none when it threw |
| AnalysisStore.ToastFor | src/stores/useAnalysisStore.js:69-77 | the reporting toast carries the notice's text and kind |
| AnalysisStore.Store.constructor | src/stores/useAnalysisStore.js:6-13 | no analysis, idle, no extra data, no address, no categories, not exporting, progress 0 |
| AnalysisStore.Store.SetAnalysis | src/stores/useAnalysisStore.js:16 | sets only the analysis |
| AnalysisStore.Store.SetAnalyzing | src/stores/useAnalysisStore.js:18 | sets only the busy flag |
| AnalysisStore.Store.SetExtraDataLoaded | src/stores/useAnalysisStore.js:20 | sets only the extra-data flag |
| AnalysisStore.Store.SetApproximateAddress | src/stores/useAnalysisStore.js:22 | sets only the address |
| AnalysisStore.Store.SetExporting | src/stores/useAnalysisStore.js:24 | sets only the export flag |
| AnalysisStore.Store.SetExportProgress | src/stores/useAnalysisStore.js:26 | sets only the export progress |
| AnalysisStore.Store.SetVisibleZoningCats | src/stores/useAnalysisStore.js:28-30 | a function argument is applied to the current categories, a value replaces them |
| AnalysisStore.Store.ToggleZoningCat | src/stores/useAnalysisStore.js:32-37 | negates one category's flag and changes nothing else |
| AnalysisStore.Store.ResetAnalysis | src/stores/useAnalysisStore.js:39-43 | clears the analysis and the address and the busy flag; categories and export state unchanged |
| AnalysisStore.Store.PerformAnalysis | src/stores/useAnalysisStore.js:46-81 | a NaN coordinate changes nothing; otherwise the engine's result for the point is stored (none when it threw), one toast reports it, and the store ends idle |
| AnalysisStore.Store.Report | src/stores/useAnalysisStore.js:65-80 | stores the outcome, raises its toast and clears the busy flag, leaving the layer caches valid |
| AnalysisStore.Store.GeocodingResolved | src/stores/useAnalysisStore.js:59-61 | a non-empty address from the geocoder is stored |
| BottomSheet.GoUp | src/components/layout/BottomSheetMobile.jsx:23 | one step higher, full being a fixed point |
| BottomSheet.GoDown | src/components/layout/BottomSheetMobile.jsx:24 | one step lower, collapsed being a fixed point |
| BottomSheet.UpThenDown | src/components/layout/BottomSheetMobile.jsx:23-24 | going down undoes going up except from full, and going up undoes going down except from collapsed |
| BottomSheet.TapToggle | src/components/layout/BottomSheetMobile.jsx:25 | mid goes to full, every other state to mid |
| BottomSheet.Swipe | src/components/layout/BottomSheetMobile.jsx:31-37 | under 60 px nothing changes; an upward swipe goes up, any other goes down |
| BottomSheet.SwipeUpThenDown | src/components/layout/BottomSheetMobile.jsx:31-37 | a swipe up and an equal swipe down return to the start unless the sheet was full |
| BottomSheet.HeightSvh | src/components/layout/BottomSheetMobile.jsx:39-43 | the height is 18, 45 or 85 svh |
| BottomSheet.HeightFollowsRank | src/components/layout/BottomSheetMobile.jsx:39-43 | a higher state is a taller sheet |
| BottomSheet.StateForAnalysis | src/components/layout/BottomSheetMobile.jsx:16-21 | the results body shows after the effect exactly when there is an analysis |
| BottomSheet.Label | src/components/layout/BottomSheetMobile.jsx:45-54 | no analysis, then OUTSIDE_CDMX, then `isANP`, then NO_DATA, then the default, in that order |
| BottomSheet.Sheet.TouchStart | src/components/layout/BottomSheetMobile.jsx:27-29 | a touch on the header records its start |
| BottomSheet.Sheet.TouchEnd | src/components/layout/BottomSheetMobile.jsx:31-37 | the state becomes the swipe of the recorded travel |
| BottomSheet.Sheet.Tap | src/components/layout/BottomSheetMobile.jsx:66 | a tap toggles the sheet only while there is an analysis |
| BottomSheet.Sheet.AnalysisChanged | src/components/layout/BottomSheetMobile.jsx:16-21 | a new analysis opens the sheet to mid, no analysis collapses it |
| EngineViews.Shown | src/stores/useAnalysisStore.js:67 | the display code receives the returned record, or none when the engine threw |
| EngineViews.OutsideView | src/utils/analysisUtils.js:34-41 | an outside point gets the outside header, naming the neighbouring state that holds it, and none of the soil cards |
| EngineViews.IncompleteCacheView | src/components/layout/BottomSheetMobile.jsx:52-53 | an incomplete cache shows the no-data header, no explanation and no card |
| EngineViews.ProtectedAreaView | src/utils/analysisUtils.js:43-53 | an ANP point gets the protected-area header and the ANP text of its soil |
| EngineViews.ZoningDataView | src/utils/domain/zoningRules.js:22-26 | for a record the engine returns, `hasZoningData` holds iff the zoning feature's key is neither empty nor NODATA; with no zoning feature it holds iff the point is in a protected area, and the zoning card stays hidden |
| EngineViews.CatalogErrorHidesCatalog | src/utils/domain/zoningRules.js:39-44 | a catalogue error always hides the catalogue card |
| EngineViews.UrbanActivitiesHidden | src/utils/domain/zoningRules.js:39-44 | the activities computed on urban soil are never shown in the catalogue card |

## Left out

- Floating point: coordinates and the sheet's swipe travel are exact `real`s. The x-intercept's rounding, NaN and infinities are not modelled. The `typeof … 'number'` guard of `isPointInPolygon` is the type of the point.
- Geometry.IsPointInPolygon: a feature without `geometry`, `type` or `coordinates`, and an empty coordinate array, cannot be written in the model's geometry type. So the early `false` for missing geometry and the TypeError that `getFeatureBounds` raises on such features are not modelled.
- Property values are text, a number carried as its JavaScript string form, or null. `Number("")` counts as falsy. A property object missing on a feature is an empty map.
- Case mapping is exact for Latin-1 and the identity elsewhere. Unicode normalisation is not modelled.
- The `timestamp` field (the clock and `toLocaleString`) is not part of the record.
- The engine's `async` declaration is dropped; it never awaits. The only throw kept is `toLowerCase` on a numeric PGOEDF. The thrown error carries no payload.
- Engine.Classify: a loaded city object without a `features` list passes the incomplete-cache test and then throws a TypeError at `dataCache.cdmx?.features.length` (src/utils/analysisEngine.js:25), which `performAnalysis` reports with the error toast. A layer in the model is either absent or a feature collection, so this throw is not modelled; an absent city layer is the incomplete cache.
- Engine.Classify: a hit feature whose `properties` is null throws a TypeError in the source at `alc.properties.NOMBRE` (src/utils/analysisEngine.js:37) and at `z.properties.CLAVE` / `z.properties.PGOEDF` (lines 74, 77 and 91), and `performAnalysis` then shows the error toast. The model reads such a feature's properties as an empty map, so these throws become returned records.
- AnalysisUtils.ContrastYIQ: the source's `length === 3` and `split('')` count UTF-16 code units; `ExpandShortHex` counts characters. A three-unit input holding a character outside the Basic Multilingual Plane is expanded by the source and not by the model.
- `Engine.Classify` and its stages: the `alcaldia` of a borough feature without NOMBRE (`undefined`) and an unset field are both `None`.
- The zoning-category table is a parameter: a sequence of key and entry pairs. The integer-key ordering of `Object.keys` and inherited properties of the table object are not modelled.
- AnalysisStore.Store.PerformAnalysis: the reverse geocoding promise is not awaited in the source. Its answer is the separate `GeocodingResolved` call. The `analyzing = true` set at the start is overwritten before the call returns, so the contract states only the end state. `console.error` is dropped. The NaN test on `Number(coord?.lat)` is the `None` case of the coordinate. Concurrent calls are not modelled.
- UiStore.Store.AddToast: the 5-second timer that removes the toast is an explicit `RemoveToast` call (`AddedToastRemovable`).
- The `setTimeout(…, 0)` of the sheet's analysis effect and the `onStateChange` callback are not modelled.
- `getAnpZoningColor`, `getZoningStyle`, `parseCoordinateInput`, the search and geocoding helpers, date formatting and folio generation are not part of this model. They depend on float hashing, string-to-number coercion, regular expressions, the network or the clock.
- The data loading of `useAppData`, all rendering components and the legacy `useVisorState` hook are not part of this model.
