/** The analysis record that `analyzeLocation` (src/utils/analysisEngine.js)
    builds for one clicked point, and the texts it carries. */
module Classification {
  import opened Wrappers
  import opened JsValue
  import opened Geometry
  import opened Layers

  /** `status`: NO_DATA, OUTSIDE_CDMX, URBAN_SOIL or CONSERVATION_SOIL. */
  datatype Status = NoData | OutsideCdmx | UrbanSoil | ConservationSoil

  /** `outsideContext` when it names a neighbouring state. */
  datatype Neighbour = EstadoDeMexico | Morelos

  /** One row of the activity catalogue, with its three trimmed labels. */
  datatype Activity = Activity(sector: string, general: string, specific: string)

  /** The protected-area fields: a copy of the feature's properties and the
      six metadata values, each `null` when the property is missing. */
  datatype AnpInfo = AnpInfo(
    properties: Props,
    id: Value,
    name: Value,
    decreeType: Value,
    category: Value,
    decreeDate: Value,
    decreedArea: Value)

  /** `zoningCatalogError`. */
  datatype CatalogError = RulesLoadError | RulesEmpty | MissingColumn(key: string)

  function CatalogMessage(e: CatalogError): string {
    match e
    case RulesLoadError => "Error cargando archivo de reglas (CSV)."
    case RulesEmpty => "El archivo de reglas está vacío."
    case MissingColumn(k) => "La columa '" + k + "' no existe en la tabla de actividades."
  }

  /** The `error` text of an incomplete data cache. */
  const IncompleteCache: string := "Data cache incompleto"

  /** The analysis record.  `None` stands for a field the engine never set;
      the flags the engine only ever sets to `true` are `false` when unset.
      `outsideContext` is `Some(None)` for the `null` the engine writes when
      the point lies in neither neighbouring state. */
  datatype Analysis = Analysis(
    status: Status,
    isRestricted: bool,
    allowedActivities: seq<Activity>,
    prohibitedActivities: seq<Activity>,
    coordinate: Point,
    error: Option<string>,
    outsideContext: Option<Option<Neighbour>>,
    alcaldia: Option<Value>,
    isANP: bool,
    anp: Option<AnpInfo>,
    zoningKey: Option<string>,
    zoningName: Option<Value>,
    noActivitiesCatalog: bool,
    zoningCatalogError: Option<CatalogError>,
    isPDU: bool,
    hasInternalAnpZoning: bool,
    anpInternalFeature: Option<Feature>,
    anpZoningData: Option<Props>)

  /** The record as first built: NO_DATA, unrestricted, empty lists. */
  function Initial(c: Point): (r: Analysis)
    ensures r.status == NoData && !r.isRestricted && r.coordinate == c
    ensures r.allowedActivities == [] && r.prohibitedActivities == []
  {
    Analysis(NoData, false, [], [], c, None, None, None, false, None,
             None, None, false, None, false, false, None, None)
  }

  /** `r.anpId`, or `undefined` when no protected area was found. */
  function AnpId(r: Analysis): Option<Value> {
    if r.anp.Some? then Some(r.anp.value.id) else None
  }
}
