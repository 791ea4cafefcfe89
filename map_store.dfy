/** The map store of `src/stores/useMapStore.js`: the selected location,
    zoom, base layer, overlay opacity and the visibility of each overlay. */
module MapStore {
  import opened Wrappers
  import opened Geometry
  import opened Visibility

  /** The overlay keys; every one starts visible. */
  const LayerKeys: set<string> :=
    {"sc", "anp", "zoning", "alcaldias", "edomex", "morelos", "selectedAnpZoning"}

  const InitialLayers: Flags := map k | k in LayerKeys :: true

  const InitialZoom: real := 12.0
  const InitialBaseLayer: string := "SATELLITE"
  const InitialOpacity: real := 0.25

  class Store {
    var location: Option<Point>
    var currentZoom: real
    var activeBaseLayer: string
    var globalOpacity: real
    var visibleMapLayers: Flags

    constructor ()
      ensures location.None? && currentZoom == InitialZoom
      ensures activeBaseLayer == InitialBaseLayer && globalOpacity == InitialOpacity
      ensures visibleMapLayers.Keys == LayerKeys
      ensures forall k :: k in visibleMapLayers ==> visibleMapLayers[k]
    {
      location := None;
      currentZoom := InitialZoom;
      activeBaseLayer := InitialBaseLayer;
      globalOpacity := InitialOpacity;
      visibleMapLayers := InitialLayers;
    }

    method SetLocation(p: Option<Point>)
      modifies this
      ensures location == p
      ensures currentZoom == old(currentZoom) && activeBaseLayer == old(activeBaseLayer)
      ensures globalOpacity == old(globalOpacity) && visibleMapLayers == old(visibleMapLayers)
    {
      location := p;
    }

    method SetZoom(zoom: real)
      modifies this
      ensures currentZoom == zoom
      ensures location == old(location) && activeBaseLayer == old(activeBaseLayer)
      ensures globalOpacity == old(globalOpacity) && visibleMapLayers == old(visibleMapLayers)
    {
      currentZoom := zoom;
    }

    method SetActiveBaseLayer(layer: string)
      modifies this
      ensures activeBaseLayer == layer
      ensures location == old(location) && currentZoom == old(currentZoom)
      ensures globalOpacity == old(globalOpacity) && visibleMapLayers == old(visibleMapLayers)
    {
      activeBaseLayer := layer;
    }

    method SetGlobalOpacity(opacity: real)
      modifies this
      ensures globalOpacity == opacity
      ensures location == old(location) && currentZoom == old(currentZoom)
      ensures activeBaseLayer == old(activeBaseLayer) && visibleMapLayers == old(visibleMapLayers)
    {
      globalOpacity := opacity;
    }

    /** `setVisibleMapLayers`: a new map, or a function of the current one. */
    method SetVisibleMapLayers(u: Update)
      modifies this
      ensures visibleMapLayers == Applied(u, old(visibleMapLayers))
      ensures location == old(location) && currentZoom == old(currentZoom)
      ensures activeBaseLayer == old(activeBaseLayer) && globalOpacity == old(globalOpacity)
    {
      visibleMapLayers := Applied(u, visibleMapLayers);
    }

    /** `toggleLayer`: negate one overlay's flag, leaving the others. */
    method ToggleLayer(k: string)
      modifies this
      ensures visibleMapLayers == Toggled(old(visibleMapLayers), k)
      ensures location == old(location) && currentZoom == old(currentZoom)
      ensures activeBaseLayer == old(activeBaseLayer) && globalOpacity == old(globalOpacity)
    {
      visibleMapLayers := Toggled(visibleMapLayers, k);
    }

    /** `resetMap`: forget the location; zoom, base layer, opacity and the
        overlay flags are kept. */
    method ResetMap()
      modifies this
      ensures location.None?
      ensures currentZoom == old(currentZoom) && activeBaseLayer == old(activeBaseLayer)
      ensures globalOpacity == old(globalOpacity) && visibleMapLayers == old(visibleMapLayers)
    {
      location := None;
    }
  }
}
