/**
 * The two ways an area enters the list, run end to end against a fresh
 * store through the components' handlers: draw a polygon, name it and
 * save it; or pick a search result and apply its preview. The pending
 * area never reaches the list unless it is named and saved.
 */
module SessionFlows {
  import opened AoiTypes
  import opened AoiStore
  import opened AoiPanel
  import opened DrawingTools
  import opened MapComponent
  import opened SearchPreview

  /** "draw area on map", finish a polygon, type a name, "Save". */
  method DrawNameSave(feature: DrawFeature, name: string, createdAt: string) returns (s: StoreState)
    requires name != []
    ensures s.aois == [Aoi(feature.id, name, feature.geometry, createdAt)]
    ensures s.pendingAoi.None? && !s.isDrawing && s.viewMode == List && s.activeTool == Draw
  {
    var store := new AOIStore();
    var panel := new AreaOfInterestPanel(store);
    var mapView := new MapView(store, true, true, true, true);
    panel.HandleDrawClick();
    mapView.SyncDrawMode();
    assert mapView.drawMode == DrawPolygonMode;
    mapView.OnDrawCreate([feature]);
    mapView.SyncDrawMode();
    assert mapView.drawMode == SimpleSelectMode && store.aois == [];
    panel.HandleNameInput(name);
    panel.HandleSaveAoi(createdAt);
    s := store.State();
  }

  /** Finish a polygon with the draw tool, type a name, then "Cancel": the list stays empty. */
  method DrawThenCancel(feature: DrawFeature, name: string, createdAt: string) returns (s: StoreState)
    ensures s.aois == [] && s.pendingAoi.None? && !s.isDrawing
  {
    var store := new AOIStore();
    var panel := new AreaOfInterestPanel(store);
    var mapView := new MapView(store, true, true, true, true);
    HandleToolClick(store, Draw);
    mapView.OnDrawCreate([feature]);
    panel.HandleNameInput(name);
    panel.HandleCancel();
    assert panel.aoiName == [];
    panel.HandleSaveAoi(createdAt);
    s := store.State();
  }

  /** Pick a search result, then "Apply outline": the preview square becomes an AOI under the short name. */
  method SearchApply(displayName: string, lat: real, lon: real, newId: string, createdAt: string)
    returns (s: StoreState)
    ensures FirstSegment(displayName) != [] ==>
      s.aois == [Aoi(newId, FirstSegment(displayName), PreviewGeometry(lon, lat), createdAt)] &&
      s.tempGeometry.None? && s.viewMode == List
    ensures FirstSegment(displayName) == [] ==>
      s.aois == [] && s.tempGeometry == Some(PreviewGeometry(lon, lat)) && s.viewMode == SearchResult
  {
    var store := new AOIStore();
    var panel := new AreaOfInterestPanel(store);
    panel.HandleSearchClick();
    panel.HandleSearchResult(displayName, lat, lon);
    panel.HandleApply(newId, createdAt);
    s := store.State();
  }
}
