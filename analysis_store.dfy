/** The analysis store of `src/stores/useAnalysisStore.js`: the current
    result, the busy and export flags, the approximate address, the
    visible zoning categories, and `performAnalysis`, which runs the engine
    and reports the outcome as a toast in the interface store. */
module AnalysisStore {
  import opened Wrappers
  import opened Geometry
  import opened Classification
  import opened Visibility
  import opened Engine
  import UiStore

  const OutsideMessage: string := "El punto seleccionado está fuera de la CDMX"
  const FoundMessage: string := "¡Información encontrada!"
  const FailureMessage: string := "Hubo un inconveniente al consultar este punto."

  /** A toast's text and kind. */
  datatype Notice = Notice(message: string, kind: string)

  /** The toast an engine outcome raises: information for a point outside
      the city, success for any other result, an error when the engine
      threw. */
  function NoticeFor(o: Outcome): (r: Notice)
    ensures r.kind == "error" <==> o.Threw?
    ensures r.kind == "info" <==> o.Returned? && o.analysis.status.OutsideCdmx?
    ensures r.kind == "success" <==> o.Returned? && !o.analysis.status.OutsideCdmx?
    ensures r.message == FailureMessage <==> o.Threw?
  {
    match o
    case Threw => Notice(FailureMessage, "error")
    case Returned(a) =>
      if a.status == OutsideCdmx then Notice(OutsideMessage, "info")
      else Notice(FoundMessage, "success")
  }

  /** The `analysis` field after an engine outcome: the result, or nothing
      when the engine threw (the field was cleared before the call). */
  function StoredAnalysis(o: Outcome): (r: Option<Analysis>)
    ensures r.Some? <==> o.Returned?
    ensures o.Returned? ==> r.value == o.analysis
  {
    match o
    case Threw => None
    case Returned(a) => Some(a)
  }

  /** The toast with this id that reports an outcome. */
  function ToastFor(id: nat, o: Outcome): (r: UiStore.Toast)
    ensures r.id == id && r.message == NoticeFor(o).message && r.kind == NoticeFor(o).kind
  {
    UiStore.Toast(id, NoticeFor(o).message, NoticeFor(o).kind)
  }

  class Store {
    var analysis: Option<Analysis>
    var analyzing: bool
    var extraDataLoaded: bool
    var approximateAddress: Option<string>
    var visibleZoningCats: Flags
    var isExporting: bool
    var exportProgress: real

    constructor ()
      ensures analysis.None? && !analyzing && !extraDataLoaded
      ensures approximateAddress.None? && visibleZoningCats == map[]
      ensures !isExporting && exportProgress == 0.0
    {
      analysis := None;
      analyzing := false;
      extraDataLoaded := false;
      approximateAddress := None;
      visibleZoningCats := map[];
      isExporting := false;
      exportProgress := 0.0;
    }

    method SetAnalysis(a: Option<Analysis>)
      modifies this
      ensures analysis == a
      ensures analyzing == old(analyzing) && extraDataLoaded == old(extraDataLoaded)
      ensures approximateAddress == old(approximateAddress)
      ensures visibleZoningCats == old(visibleZoningCats)
      ensures isExporting == old(isExporting) && exportProgress == old(exportProgress)
    {
      analysis := a;
    }

    method SetAnalyzing(isAnalyzing: bool)
      modifies this
      ensures analyzing == isAnalyzing
      ensures analysis == old(analysis) && extraDataLoaded == old(extraDataLoaded)
      ensures approximateAddress == old(approximateAddress)
      ensures visibleZoningCats == old(visibleZoningCats)
      ensures isExporting == old(isExporting) && exportProgress == old(exportProgress)
    {
      analyzing := isAnalyzing;
    }

    method SetExtraDataLoaded(loaded: bool)
      modifies this
      ensures extraDataLoaded == loaded
      ensures analysis == old(analysis) && analyzing == old(analyzing)
      ensures approximateAddress == old(approximateAddress)
      ensures visibleZoningCats == old(visibleZoningCats)
      ensures isExporting == old(isExporting) && exportProgress == old(exportProgress)
    {
      extraDataLoaded := loaded;
    }

    method SetApproximateAddress(address: Option<string>)
      modifies this
      ensures approximateAddress == address
      ensures analysis == old(analysis) && analyzing == old(analyzing)
      ensures extraDataLoaded == old(extraDataLoaded)
      ensures visibleZoningCats == old(visibleZoningCats)
      ensures isExporting == old(isExporting) && exportProgress == old(exportProgress)
    {
      approximateAddress := address;
    }

    method SetExporting(exporting: bool)
      modifies this
      ensures isExporting == exporting
      ensures analysis == old(analysis) && analyzing == old(analyzing)
      ensures extraDataLoaded == old(extraDataLoaded)
      ensures approximateAddress == old(approximateAddress)
      ensures visibleZoningCats == old(visibleZoningCats) && exportProgress == old(exportProgress)
    {
      isExporting := exporting;
    }

    method SetExportProgress(progress: real)
      modifies this
      ensures exportProgress == progress
      ensures analysis == old(analysis) && analyzing == old(analyzing)
      ensures extraDataLoaded == old(extraDataLoaded)
      ensures approximateAddress == old(approximateAddress)
      ensures visibleZoningCats == old(visibleZoningCats) && isExporting == old(isExporting)
    {
      exportProgress := progress;
    }

    /** `setVisibleZoningCats`: a new map, or a function of the current one. */
    method SetVisibleZoningCats(u: Update)
      modifies this
      ensures visibleZoningCats == Applied(u, old(visibleZoningCats))
      ensures analysis == old(analysis) && analyzing == old(analyzing)
      ensures extraDataLoaded == old(extraDataLoaded)
      ensures approximateAddress == old(approximateAddress)
      ensures isExporting == old(isExporting) && exportProgress == old(exportProgress)
    {
      visibleZoningCats := Applied(u, visibleZoningCats);
    }

    /** `toggleZoningCat`: negate one category's flag, leaving the others. */
    method ToggleZoningCat(k: string)
      modifies this
      ensures visibleZoningCats == Toggled(old(visibleZoningCats), k)
      ensures analysis == old(analysis) && analyzing == old(analyzing)
      ensures extraDataLoaded == old(extraDataLoaded)
      ensures approximateAddress == old(approximateAddress)
      ensures isExporting == old(isExporting) && exportProgress == old(exportProgress)
    {
      visibleZoningCats := Toggled(visibleZoningCats, k);
    }

    /** `resetAnalysis`: clear the result, the busy flag and the address;
        the data, category and export state are kept. */
    method ResetAnalysis()
      modifies this
      ensures analysis.None? && !analyzing && approximateAddress.None?
      ensures extraDataLoaded == old(extraDataLoaded)
      ensures visibleZoningCats == old(visibleZoningCats)
      ensures isExporting == old(isExporting) && exportProgress == old(exportProgress)
    {
      analysis := None;
      analyzing := false;
      approximateAddress := None;
    }

    /** `performAnalysis`. `coord` is `None` when the latitude or the
        longitude is not a number: then nothing happens. Otherwise the
        busy flag is raised, the result and the address are cleared, the
        engine runs (touching only the layers' box caches) and `Report`
        records its outcome. */
    method PerformAnalysis(coord: Option<Point>, data: Option<DataCache>, ui: UiStore.Store)
      requires CachesReady(data) && ui.Valid()
      modifies this, ui, Footprint(data)
      ensures CachesReady(data) && ui.Valid()
      ensures coord.None? ==>
        analysis == old(analysis) && analyzing == old(analyzing)
        && approximateAddress == old(approximateAddress)
        && ui.toasts == old(ui.toasts) && ui.toastIdRef == old(ui.toastIdRef)
      ensures coord.Some? ==>
        analysis == StoredAnalysis(Classify(coord.value, data))
        && !analyzing && approximateAddress.None?
        && ui.toastIdRef == old(ui.toastIdRef) + 1
        && ui.toasts == old(ui.toasts) + [ToastFor(ui.toastIdRef, Classify(coord.value, data))]
      ensures extraDataLoaded == old(extraDataLoaded)
      ensures visibleZoningCats == old(visibleZoningCats)
      ensures isExporting == old(isExporting) && exportProgress == old(exportProgress)
      ensures ui.isSidebarOpen == old(ui.isSidebarOpen) && ui.isLegendOpen == old(ui.isLegendOpen)
      ensures ui.isHelpOpen == old(ui.isHelpOpen) && ui.mobileSheetState == old(ui.mobileSheetState)
    {
      if coord.Some? {
        analyzing := true;
        analysis := None;
        approximateAddress := None;
        label cleared:
        var outcome := AnalyzeLocation(coord.value, data);
        assert unchanged@cleared(this, ui);
        Report(outcome, data, ui);
      }
    }

    /** The end of `performAnalysis` once the engine has answered: the
        result is stored (or the field stays cleared when the engine threw),
        exactly one toast reports the outcome, and the store ends idle. */
    method Report(o: Outcome, ghost data: Option<DataCache>, ui: UiStore.Store)
      requires CachesReady(data) && ui.Valid()
      modifies this, ui
      ensures CachesReady(data) && ui.Valid()
      ensures analysis == StoredAnalysis(o) && !analyzing
      ensures approximateAddress == old(approximateAddress)
      ensures ui.toastIdRef == old(ui.toastIdRef) + 1
      ensures ui.toasts == old(ui.toasts) + [ToastFor(ui.toastIdRef, o)]
      ensures extraDataLoaded == old(extraDataLoaded)
      ensures visibleZoningCats == old(visibleZoningCats)
      ensures isExporting == old(isExporting) && exportProgress == old(exportProgress)
      ensures ui.isSidebarOpen == old(ui.isSidebarOpen) && ui.isLegendOpen == old(ui.isLegendOpen)
      ensures ui.isHelpOpen == old(ui.isHelpOpen) && ui.mobileSheetState == old(ui.mobileSheetState)
    {
      analysis := StoredAnalysis(o);
      var notice := NoticeFor(o);
      ui.AddToast(notice.message, Some(notice.kind));
      analyzing := false;
    }

    /** The geocoder's answer arriving: a non-empty address is stored. */
    method GeocodingResolved(address: Option<string>)
      modifies this
      ensures approximateAddress ==
        (if address.Some? && address.value != "" then address else old(approximateAddress))
      ensures analysis == old(analysis) && analyzing == old(analyzing)
      ensures extraDataLoaded == old(extraDataLoaded)
      ensures visibleZoningCats == old(visibleZoningCats)
      ensures isExporting == old(isExporting) && exportProgress == old(exportProgress)
    {
      if address.Some? && address.value != "" {
        approximateAddress := address;
      }
    }
  }
}
