/**
 * The AOI store: the list of saved areas plus the single-valued session
 * fields, and the actions that overwrite them. Every action computes the
 * new field values from the old state and writes them back; no action
 * touches a field it does not name.
 */
module AoiStore {
  import opened AoiTypes
  import opened AoiList

  /** A snapshot of every field of the store. */
  datatype StoreState = StoreState(
    aois: seq<Aoi>,
    selectedAoiId: Option<string>,
    isDrawing: bool,
    layerVisible: bool,
    pendingAoi: Option<PendingAoi>,
    flyToLocation: Option<FlyTo>,
    viewMode: ViewMode,
    tempGeometry: Option<Geometry>,
    activeTool: ActiveTool)

  /** The state a fresh store starts in. */
  const InitialState := StoreState([], None, false, true, None, None, Initial, None, NoTool)

  /** The selection after `removeAoi(id)`: cleared when it was `id`, kept otherwise. */
  function SelectionAfterRemove(selected: Option<string>, id: string): (r: Option<string>)
    ensures r.None? <==> selected.None? || selected == Some(id)
    ensures r.Some? ==> r == selected
  {
    if selected == Some(id) then None else selected
  }

  /** The whole state after `removeAoi(id)`. */
  function StateAfterRemove(s: StoreState, id: string): (r: StoreState)
    ensures r == s.(aois := r.aois, selectedAoiId := r.selectedAoiId)
    ensures forall a :: a in r.aois <==> a in s.aois && a.id != id
    ensures IsSubsequence(r.aois, s.aois)
    ensures |r.aois| == |s.aois| - CountId(s.aois, id)
    ensures r.selectedAoiId.None? <==> s.selectedAoiId.None? || s.selectedAoiId == Some(id)
    ensures s.selectedAoiId != Some(id) ==> r.selectedAoiId == s.selectedAoiId
  {
    RemovedIsSubsequence(s.aois, id);
    RemovedLength(s.aois, id);
    s.(aois := Removed(s.aois, id), selectedAoiId := SelectionAfterRemove(s.selectedAoiId, id))
  }

  /** The whole state after `toggleLayer()`. */
  function StateAfterToggle(s: StoreState): (r: StoreState)
    ensures r.layerVisible != s.layerVisible
    ensures r == s.(layerVisible := r.layerVisible)
  {
    s.(layerVisible := !s.layerVisible)
  }

  /** Toggling the layer twice restores the state it started from. */
  lemma ToggleLayerTwice(s: StoreState)
    ensures StateAfterToggle(StateAfterToggle(s)) == s
  {
  }

  class AOIStore {
    var aois: seq<Aoi>
    var selectedAoiId: Option<string>
    var isDrawing: bool
    var layerVisible: bool
    var pendingAoi: Option<PendingAoi>
    var flyToLocation: Option<FlyTo>
    // The three fields below are read and set by the components but are
    // not declared by the store's state interface; each is modelled as a
    // plain field with an overwriting setter.
    var viewMode: ViewMode
    var tempGeometry: Option<Geometry>
    var activeTool: ActiveTool

    function State(): StoreState
      reads this
    {
      StoreState(aois, selectedAoiId, isDrawing, layerVisible, pendingAoi,
                 flyToLocation, viewMode, tempGeometry, activeTool)
    }

    /** Empty list, no selection, not drawing, layer visible, nothing pending, no fly-to target. */
    constructor ()
      ensures State() == InitialState
      ensures aois == [] && selectedAoiId.None? && !isDrawing && layerVisible
      ensures pendingAoi.None? && flyToLocation.None?
    {
      aois := [];
      selectedAoiId := None;
      isDrawing := false;
      layerVisible := true;
      pendingAoi := None;
      flyToLocation := None;
      viewMode := Initial;
      tempGeometry := None;
      activeTool := NoTool;
    }

    /** Appends the record as the last entry; ids are not checked. */
    method AddAoi(aoi: Aoi)
      modifies this
      ensures aois == old(aois) + [aoi]
      ensures State() == old(State()).(aois := aois)
    {
      aois := aois + [aoi];
    }

    /** Spreads `updates` over every entry whose id is `id`. */
    method UpdateAoi(id: string, updates: AoiUpdate)
      modifies this
      ensures aois == Updated(old(aois), id, updates)
      ensures State() == old(State()).(aois := aois)
    {
      aois := Updated(aois, id, updates);
    }

    /** Drops every entry with id `id`; clears the selection if it was `id`. */
    method RemoveAoi(id: string)
      modifies this
      ensures State() == StateAfterRemove(old(State()), id)
      ensures aois == Removed(old(aois), id)
    {
      aois, selectedAoiId := Removed(aois, id), SelectionAfterRemove(selectedAoiId, id);
    }

    /** Stores the id (or none) as given, without looking it up in the list. */
    method SelectAoi(id: Option<string>)
      modifies this
      ensures State() == old(State()).(selectedAoiId := id)
    {
      selectedAoiId := id;
    }

    method SetDrawing(drawing: bool)
      modifies this
      ensures State() == old(State()).(isDrawing := drawing)
    {
      isDrawing := drawing;
    }

    method ToggleLayer()
      modifies this
      ensures State() == StateAfterToggle(old(State()))
    {
      layerVisible := !layerVisible;
    }

    method SetPendingAoi(pending: Option<PendingAoi>)
      modifies this
      ensures State() == old(State()).(pendingAoi := pending)
    {
      pendingAoi := pending;
    }

    method SetFlyToLocation(location: Option<FlyTo>)
      modifies this
      ensures State() == old(State()).(flyToLocation := location)
    {
      flyToLocation := location;
    }

    method SetViewMode(mode: ViewMode)
      modifies this
      ensures State() == old(State()).(viewMode := mode)
    {
      viewMode := mode;
    }

    method SetTempGeometry(geometry: Option<Geometry>)
      modifies this
      ensures State() == old(State()).(tempGeometry := geometry)
    {
      tempGeometry := geometry;
    }

    method SetActiveTool(tool: ActiveTool)
      modifies this
      ensures State() == old(State()).(activeTool := tool)
    {
      activeTool := tool;
    }
  }
}
