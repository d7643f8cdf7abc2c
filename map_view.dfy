/**
 * The map component's part in the session: what it does with a finished
 * polygon, which mode it puts the drawing control in, how it consumes a
 * fly-to target and how it shows or hides the imagery layer. The map and
 * the drawing control themselves are foreign objects; the model keeps
 * only whether they exist and the values last handed to them.
 */
module MapComponent {
  import opened AoiTypes
  import opened AoiStore

  const DrawPolygonMode := "draw_polygon"
  const SimpleSelectMode := "simple_select"

  /** Drawing on means the polygon tool; drawing off means plain selection. */
  function DrawModeFor(isDrawing: bool): (mode: string)
    ensures mode == DrawPolygonMode <==> isDrawing
    ensures mode == SimpleSelectMode <==> !isDrawing
  {
    if isDrawing then DrawPolygonMode else SimpleSelectMode
  }

  const VisibleLayer := "visible"
  const HiddenLayer := "none"

  /** The layout visibility of the imagery layer for the store's flag. */
  function VisibilityFor(layerVisible: bool): (visibility: string)
    ensures visibility == VisibleLayer <==> layerVisible
    ensures visibility == HiddenLayer <==> !layerVisible
  {
    if layerVisible then VisibleLayer else HiddenLayer
  }

  /** A feature as the drawing control reports it: its id and its geometry. */
  datatype DrawFeature = DrawFeature(id: string, geometry: Geometry)

  class MapView {
    const store: AOIStore
    var mapReady: bool             // the map object exists
    var styleLoaded: bool          // the map's style has finished loading
    var hasLayer: bool             // the imagery layer is present in the style
    var drawReady: bool            // the drawing control exists
    var drawMode: string           // the mode last given to the drawing control
    var layerVisibility: string    // the layout visibility last given to the layer
    var lastFlyTo: Option<FlyTo>   // the target of the last flight the map was sent on

    /**
     * The component over a store, with the map and drawing control in the
     * given condition; the drawing control starts in plain selection and the
     * layer as the store's flag says.
     */
    constructor (store: AOIStore, mapReady: bool, styleLoaded: bool, hasLayer: bool, drawReady: bool)
      ensures this.store == store
      ensures this.mapReady == mapReady && this.styleLoaded == styleLoaded
      ensures this.hasLayer == hasLayer && this.drawReady == drawReady
      ensures drawMode == SimpleSelectMode && layerVisibility == VisibilityFor(store.layerVisible)
      ensures lastFlyTo.None?
    {
      this.store := store;
      this.mapReady := mapReady;
      this.styleLoaded := styleLoaded;
      this.hasLayer := hasLayer;
      this.drawReady := drawReady;
      drawMode := SimpleSelectMode;
      layerVisibility := VisibilityFor(store.layerVisible);
      lastFlyTo := None;
    }

    /**
     * A polygon was finished: the first reported feature becomes the pending
     * area and drawing is switched off. Nothing is added to the list here.
     */
    method OnDrawCreate(features: seq<DrawFeature>)
      requires |features| > 0
      modifies store
      ensures store.State() ==
        old(store.State()).(pendingAoi := Some(PendingAoi(features[0].id, features[0].geometry)), isDrawing := false)
      ensures store.aois == old(store.aois)
    {
      var feature := features[0];
      store.SetPendingAoi(Some(PendingAoi(feature.id, feature.geometry)));
      store.SetDrawing(false);
    }

    /** A drawn feature was changed on the map: the store is left alone. */
    method OnDrawUpdate()
      ensures store.State() == old(store.State())
    {
    }

    /** A drawn feature was deleted on the map: the store is left alone. */
    method OnDrawDelete()
      ensures store.State() == old(store.State())
    {
    }

    /** Puts the drawing control in the mode matching `isDrawing`, once the control exists. */
    method SyncDrawMode()
      modifies this
      ensures drawMode == if old(drawReady) then DrawModeFor(store.isDrawing) else old(drawMode)
      ensures mapReady == old(mapReady) && styleLoaded == old(styleLoaded) && hasLayer == old(hasLayer)
      ensures drawReady == old(drawReady) && layerVisibility == old(layerVisibility) && lastFlyTo == old(lastFlyTo)
    {
      if !drawReady {
        return;
      }
      drawMode := DrawModeFor(store.isDrawing);
    }

    /** Flies to a pending target, if the map exists, and then clears the target. */
    method FlyToEffect()
      modifies this, store
      ensures if old(mapReady) && old(store.flyToLocation).Some? then
          lastFlyTo == old(store.flyToLocation) && store.State() == old(store.State()).(flyToLocation := None)
        else
          lastFlyTo == old(lastFlyTo) && store.State() == old(store.State())
      ensures mapReady == old(mapReady) && styleLoaded == old(styleLoaded) && hasLayer == old(hasLayer)
      ensures drawReady == old(drawReady) && drawMode == old(drawMode) && layerVisibility == old(layerVisibility)
    {
      if mapReady && store.flyToLocation.Some? {
        lastFlyTo := store.flyToLocation;
        store.SetFlyToLocation(None);
      }
    }

    /** Shows or hides the imagery layer, once the map, its style and the layer exist. */
    method SyncLayerVisibility()
      modifies this
      ensures layerVisibility ==
        if old(mapReady && styleLoaded && hasLayer) then VisibilityFor(store.layerVisible) else old(layerVisibility)
      ensures mapReady == old(mapReady) && styleLoaded == old(styleLoaded) && hasLayer == old(hasLayer)
      ensures drawReady == old(drawReady) && drawMode == old(drawMode) && lastFlyTo == old(lastFlyTo)
    {
      if !mapReady {
        return;
      }
      if !styleLoaded {
        return;
      }
      if hasLayer {
        layerVisibility := VisibilityFor(store.layerVisible);
      }
    }
  }
}
