/**
 * The area-of-interest panel: its own component state (the name typed
 * for a pending area, the name taken from the last search result, and
 * which sections are expanded) and the handlers that move the session
 * through draw -> name -> save and search -> apply.
 */
module AoiPanel {
  import opened AoiTypes
  import opened AoiStore
  import opened SearchPreview

  /** The three collapsible sections of the list view. */
  datatype Section = BaseImage | AoiSection | Objects

  /** Which sections are expanded. */
  datatype Sections = Sections(baseImage: bool, aoi: bool, objects: bool)

  /** Only the "Define Area of Interest" section starts expanded. */
  const InitialSections := Sections(false, true, false)

  function IsOpen(s: Sections, section: Section): bool
  {
    match section
    case BaseImage => s.baseImage
    case AoiSection => s.aoi
    case Objects => s.objects
  }

  /** The sections with the one named flipped and the others kept. */
  function Toggled(s: Sections, section: Section): (r: Sections)
    ensures IsOpen(r, section) == !IsOpen(s, section)
    ensures forall other :: other != section ==> IsOpen(r, other) == IsOpen(s, other)
  {
    match section
    case BaseImage => s.(baseImage := !s.baseImage)
    case AoiSection => s.(aoi := !s.aoi)
    case Objects => s.(objects := !s.objects)
  }

  /** Toggling a section twice restores the sections as they were. */
  lemma ToggledTwice(s: Sections, section: Section)
    ensures Toggled(Toggled(s, section), section) == s
  {
  }

  /** Toggling two sections gives the same result in either order. */
  lemma ToggledCommute(s: Sections, a: Section, b: Section)
    ensures Toggled(Toggled(s, a), b) == Toggled(Toggled(s, b), a)
  {
  }

  class AreaOfInterestPanel {
    const store: AOIStore
    var aoiName: string
    var searchResultName: string
    var sections: Sections

    constructor (store: AOIStore)
      ensures this.store == store
      ensures aoiName == [] && searchResultName == [] && sections == InitialSections
    {
      this.store := store;
      aoiName := [];
      searchResultName := [];
      sections := InitialSections;
    }

    /** Flips only the given section. */
    method ToggleSection(section: Section)
      modifies this
      ensures sections == Toggled(old(sections), section)
      ensures aoiName == old(aoiName) && searchResultName == old(searchResultName)
    {
      sections := Toggled(sections, section);
    }

    /** The "draw area on map" button: drawing on, drawing view, draw tool. */
    method HandleDrawClick()
      modifies store
      ensures store.State() == old(store.State()).(isDrawing := true, viewMode := Drawing, activeTool := Draw)
    {
      store.SetDrawing(true);
      store.SetViewMode(Drawing);
      store.SetActiveTool(Draw);
    }

    /** A row's delete button: removes the AOI through the store. */
    method HandleDelete(id: string)
      modifies store
      ensures store.State() == StateAfterRemove(old(store.State()), id)
    {
      store.RemoveAoi(id);
    }

    /** Clicking a listed row selects its id. */
    method HandleRowClick(id: string)
      modifies store
      ensures store.State() == old(store.State()).(selectedAoiId := Some(id))
    {
      store.SelectAoi(Some(id));
    }

    /**
     * A search result was chosen: keep the place name up to its first comma,
     * show the result view and preview the square around the point.
     */
    method HandleSearchResult(displayName: string, lat: real, lon: real)
      modifies this, store
      ensures searchResultName == FirstSegment(displayName)
      ensures aoiName == old(aoiName) && sections == old(sections)
      ensures store.State() == old(store.State()).(viewMode := SearchResult, tempGeometry := Some(PreviewGeometry(lon, lat)))
    {
      searchResultName := FirstSegment(displayName);
      store.SetViewMode(SearchResult);
      store.SetTempGeometry(Some(PreviewGeometry(lon, lat)));
    }

    /**
     * "Apply outline": with a preview geometry and a non-empty result name,
     * save them as a new AOI, drop the preview and show the list; otherwise
     * do nothing. The AOI's id and timestamp are supplied by the caller.
     */
    method HandleApply(newId: string, createdAt: string)
      modifies store
      ensures var s := old(store.State());
        if s.tempGeometry.Some? && searchResultName != [] then
          store.State() == s.(aois := s.aois + [Aoi(newId, searchResultName, s.tempGeometry.value, createdAt)],
                              tempGeometry := None, viewMode := List)
        else
          store.State() == s
    {
      if store.tempGeometry.Some? && searchResultName != [] {
        var newAoi := Aoi(newId, searchResultName, store.tempGeometry.value, createdAt);
        store.AddAoi(newAoi);
        store.SetTempGeometry(None);
        store.SetViewMode(List);
      }
    }

    /** "Confirm Area of Interest": back to the list view. */
    method HandleConfirm()
      modifies store
      ensures store.State() == old(store.State()).(viewMode := List)
    {
      store.SetViewMode(List);
    }

    /** The back arrow: the initial view. */
    method HandleBack()
      modifies store
      ensures store.State() == old(store.State()).(viewMode := Initial)
    {
      store.SetViewMode(Initial);
    }

    /** The "Search for a city" option: the search input view. */
    method HandleSearchClick()
      modifies store
      ensures store.State() == old(store.State()).(viewMode := SearchInput)
    {
      store.SetViewMode(SearchInput);
    }

    /** Typing in the name box. */
    method HandleNameInput(text: string)
      modifies this
      ensures aoiName == text
      ensures searchResultName == old(searchResultName) && sections == old(sections)
    {
      aoiName := text;
    }

    /**
     * "Save": with a pending area and a non-empty typed name, append exactly
     * one AOI with the pending id and geometry and the typed name, clear the
     * pending area and the name, and show the list; otherwise do nothing.
     */
    method HandleSaveAoi(createdAt: string)
      modifies this, store
      ensures var s := old(store.State());
        if s.pendingAoi.Some? && old(aoiName) != [] then
          store.State() == s.(aois := s.aois + [Aoi(s.pendingAoi.value.id, old(aoiName), s.pendingAoi.value.geometry, createdAt)],
                              pendingAoi := None, viewMode := List)
          && aoiName == []
        else
          store.State() == s && aoiName == old(aoiName)
      ensures searchResultName == old(searchResultName) && sections == old(sections)
    {
      if store.pendingAoi.Some? && aoiName != [] {
        var pending := store.pendingAoi.value;
        store.AddAoi(Aoi(pending.id, aoiName, pending.geometry, createdAt));
        store.SetPendingAoi(None);
        aoiName := [];
        store.SetViewMode(List);
      }
    }

    /** "Cancel" in the naming dialog: discard the pending area and the typed name. */
    method HandleCancel()
      modifies this, store
      ensures store.State() == old(store.State()).(pendingAoi := None)
      ensures aoiName == []
      ensures searchResultName == old(searchResultName) && sections == old(sections)
    {
      store.SetPendingAoi(None);
      aoiName := [];
    }
  }
}
