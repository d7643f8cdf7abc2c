# AOI session model

A Dafny model of the session state of a map application in which a user
defines areas of interest (AOIs). It covers the AOI store (an ordered list
of `{id, name, geometry, createdAt}` records plus the single-valued fields
`selectedAoiId`, `isDrawing`, `layerVisible`, `pendingAoi`,
`flyToLocation`, `viewMode`, `tempGeometry` and `activeTool`) and the event
handlers of the three components that drive it:

- the area-of-interest panel: draw click, delete, row click, search result,
  apply, confirm, back, name input, save, cancel and section toggling;
- the drawing-tools palette: tool click and the per-button highlight;
- the map view: polygon finished, the no-op update and delete events, the
  drawing-control mode, the fly-to reset and the layer visibility.

Layout, one module per source file or concern:

- `types.dfy` (`AoiTypes`): the records and enumerations.
- `aoi_list.dfy` (`AoiList`): `Updated` (the `map` of `updateAoi`) and
  `Removed` (the `filter` of `removeAoi`) as pure functions, with their lemmas.
- `store.dfy` (`AoiStore`): the `AOIStore` class, one field per state entry,
  one method per action. `State()` snapshots all fields. Each method states
  the whole new state as `old(State())` with only its own fields replaced.
- `search_preview.dfy` (`SearchPreview`): the short name taken from a search
  result and the square preview ring.
- `area_labels.dfy` (`AreaLabels`): the "Area n" fallback label.
- `panel.dfy` (`AoiPanel`): the panel's component state and handlers.
- `drawing_tools.dfy` (`DrawingTools`): the tool click and the button highlight.
- `map_view.dfy` (`MapComponent`): the map component's effects and draw events.
- `session_flows.dfy` (`SessionFlows`): the draw → name → save, cancel and
  search → apply flows, run end to end on a fresh store.

Modelling decisions:

- Geometry is opaque (`Geometry.Drawn`) except for the search preview, which
  is a GeoJSON polygon of longitude/latitude pairs (`Geometry.Polygon`).
- Ids, names, timestamps, the chosen search result's coordinates and the
  features reported by the drawing control are parameters.
- `Partial<AOI>` is `AoiUpdate`, one `Option` per field. A present field
  replaces the record's field, as the object spread does.
- Assumption: the components read and set `viewMode`, `tempGeometry` and
  `activeTool` through the store, but the store's state interface does not
  declare them. Each is modelled as a plain store field with an overwriting
  setter, like `setPendingAoi`. Their initial values are also assumptions:
  `viewMode` starts as `Initial` (the view the back button returns to), `tempGeometry` as
  none and `activeTool` as `NoTool`.
- React component state (`aoiName`, `searchResultName`, `sections`) lives in
  fields of the `AreaOfInterestPanel` class. The map and drawing-control
  references are boolean fields of `MapView`. The calls made on those foreign
  objects are recorded as the last value handed over: `drawMode`,
  `layerVisibility`, `lastFlyTo`.
- Each handler runs its setter calls in source order. Every handler reads its
  inputs before its first setter call, so modelling each call as an immediate
  update gives the same result as React's batched updates.

Where the specification and the code disagree, the model follows the code:

- The code has no boundary-cut or splitting engine, no snapping, slicing,
  ring cleaning or area comparison.
- `addAoi` does not reject a duplicate id. It appends anyway (`AoiList.AppendKeepsDuplicates`).
- A finished polygon does not move the session into an editing/cutting
  state. It sets the pending AOI and switches drawing off. The active tool
  is not changed.
- The map's update and delete events change nothing in the store.
- Selecting a feature with the erase tool does not delete it. Choosing
  'edit' or 'erase' only switches drawing off.

## Model

| member | source | states |
|---|---|---|
| `AoiList.Overlay` | src/store/useAOIStore.ts:40 | field by field, a field present in the update replaces the record's value and an absent field keeps it |
| `AoiList.OverlayEmptyUpdate` | src/store/useAOIStore.ts:40 | an update that carries no field leaves the record unchanged |
| `AoiList.OverlayIdempotent` | src/store/useAOIStore.ts:40 | spreading the same update twice equals spreading it once |
| `AoiList.Updated` | src/store/useAOIStore.ts:38-41 | the list keeps its length and order; entries with the id get the overlay, all other entries are unchanged |
| `AoiList.UpdatedUnknownId` | src/store/useAOIStore.ts:38-41 | an update for an id no entry carries leaves the list as it was |
| `AoiList.UpdatedKeepsIds` | src/store/useAOIStore.ts:38-41 | an update without an id field keeps every entry's id and the number of entries with the target id |
| `AoiList.Removed` | src/store/useAOIStore.ts:44 | an entry is in the result iff it was in the list and its id differs from the removed id |
| `AoiList.RemovedHasNoId` | src/store/useAOIStore.ts:44 | after removal no entry carries the id |
| `AoiList.RemovedLength` | src/store/useAOIStore.ts:44 | the list shrinks by exactly the number of entries that carried the id |
| `AoiList.RemovedIsSubsequence` | src/store/useAOIStore.ts:44 | the remaining entries are a subsequence of the old list (relative order kept) |
| `AoiList.RemovedConcat` | src/store/useAOIStore.ts:44 | removal distributes over concatenation, so it works entry by entry in order |
| `AoiList.RemovedUnknownId` | src/store/useAOIStore.ts:44 | removing an id no entry carries leaves the list as it was |
| `AoiList.RemovedIdempotent` | src/store/useAOIStore.ts:44 | removing the same id twice equals removing it once |
| `AoiList.AppendKeepsPrefix` | src/store/useAOIStore.ts:37 | appending grows the list by one, keeps the earlier entries in place and puts the record last |
| `AoiList.AppendKeepsDuplicates` | src/store/useAOIStore.ts:37 | appending a record whose id is already listed yields one more entry with that id (at least two); no duplicate check |
| `AoiStore.SelectionAfterRemove` | src/store/useAOIStore.ts:45 | the selection becomes none iff it was none or equal to the removed id; otherwise it is unchanged |
| `AoiStore.StateAfterRemove` | src/store/useAOIStore.ts:42-46 | only `aois` and `selectedAoiId` change; membership, order, the number of entries removed (exactly those with the id) and the selection rule as above |
| `AoiStore.StateAfterToggle` | src/store/useAOIStore.ts:49 | only `layerVisible` changes, and it is negated |
| `AoiStore.ToggleLayerTwice` | src/store/useAOIStore.ts:49 | toggling the layer twice restores the original state |
| `AoiStore.AOIStore.constructor` | src/store/useAOIStore.ts:30-36 | empty list, no selection, not drawing, layer visible, no pending AOI, no fly-to target |
| `AoiStore.AOIStore.AddAoi` | src/store/useAOIStore.ts:37 | `aois` becomes the old list plus the record at the end; every other field unchanged |
| `AoiStore.AOIStore.UpdateAoi` | src/store/useAOIStore.ts:38-41 | `aois` becomes `Updated(old aois, id, updates)`; every other field unchanged |
| `AoiStore.AOIStore.RemoveAoi` | src/store/useAOIStore.ts:42-46 | the new state is `StateAfterRemove` of the old one: only the list and the selection change |
| `AoiStore.AOIStore.SelectAoi` | src/store/useAOIStore.ts:47 | stores the given id or none verbatim, without a lookup; nothing else changes |
| `AoiStore.AOIStore.SetDrawing` | src/store/useAOIStore.ts:48 | overwrites `isDrawing` only |
| `AoiStore.AOIStore.ToggleLayer` | src/store/useAOIStore.ts:49 | the new state is `StateAfterToggle` of the old one |
| `AoiStore.AOIStore.SetPendingAoi` | src/store/useAOIStore.ts:50 | overwrites `pendingAoi` only |
| `AoiStore.AOIStore.SetFlyToLocation` | src/store/useAOIStore.ts:51 | overwrites `flyToLocation` only |
| `AoiStore.AOIStore.SetViewMode` | src/components/area-of-interest-panel.tsx:23-24 | overwrites `viewMode` only (assumed setter) |
| `AoiStore.AOIStore.SetTempGeometry` | src/components/area-of-interest-panel.tsx:25-26 | overwrites `tempGeometry` only (assumed setter) |
| `AoiStore.AOIStore.SetActiveTool` | src/components/drawing-tools.tsx:5 | overwrites `activeTool` only (assumed setter) |
| `SearchPreview.FirstSegment` | src/components/area-of-interest-panel.tsx:55 | the result has no comma, is a prefix of the display name, is followed by a comma when shorter, and is the whole name when it has no comma |
| `SearchPreview.FirstSegmentUnique` | src/components/area-of-interest-panel.tsx:55 | any comma-free prefix followed by a comma or the end equals the result, so those properties define it |
| `SearchPreview.PreviewRing` | src/components/area-of-interest-panel.tsx:60-73 | five points, first equal to last, every corner at lon ± 0.05 and lat ± 0.05, the four corners pairwise distinct |
| `SearchPreview.PreviewGeometry` | src/components/area-of-interest-panel.tsx:62-73 | a polygon whose single ring is the preview ring |
| `SearchPreview.PreviewRingIsSquare` | src/components/area-of-interest-panel.tsx:60-73 | each side is axis-aligned with length 0.1, and the shoelace sum is 2 × 0.1², so the ring is counter-clockwise with area 0.01 |
| `SearchPreview.PreviewRingCentre` | src/components/area-of-interest-panel.tsx:62-73 | both diagonals have (lon, lat) as their midpoint |
| `AreaLabels.DecimalString` | src/components/area-of-interest-panel.tsx:156 | the numeral is non-empty, all digits, with no leading zero |
| `AreaLabels.DecimalRoundTrip` | src/components/area-of-interest-panel.tsx:156 | reading the numeral back gives the number |
| `AreaLabels.DecimalStringInjective` | src/components/area-of-interest-panel.tsx:156 | different numbers give different numerals |
| `AreaLabels.DisplayName` | src/components/area-of-interest-panel.tsx:156 | the label is never empty; it is the name when the name is non-empty, else "Area " followed by the canonical decimal numeral of index + 1: only digits, value index + 1, no leading zero |
| `AreaLabels.UnnamedLabelsDistinct` | src/components/area-of-interest-panel.tsx:156 | unnamed entries at different positions get different labels |
| `AoiPanel.Toggled` | src/components/area-of-interest-panel.tsx:39-41 | the toggled section flips; every other section keeps its state |
| `AoiPanel.ToggledTwice` | src/components/area-of-interest-panel.tsx:39-41 | toggling a section twice restores the sections |
| `AoiPanel.ToggledCommute` | src/components/area-of-interest-panel.tsx:39-41 | toggles of two sections commute |
| `AoiPanel.AreaOfInterestPanel.constructor` | src/components/area-of-interest-panel.tsx:32-37 | empty result name and typed name (the typed name's state is declared at line 275 of the same file); sections baseImage closed, aoi open, objects closed |
| `AoiPanel.AreaOfInterestPanel.ToggleSection` | src/components/area-of-interest-panel.tsx:39-41 | `sections` becomes `Toggled(old sections, s)`; names unchanged |
| `AoiPanel.AreaOfInterestPanel.HandleDrawClick` | src/components/area-of-interest-panel.tsx:43-47 | drawing on, view 'drawing', tool 'draw'; nothing else in the store changes |
| `AoiPanel.AreaOfInterestPanel.HandleDelete` | src/components/area-of-interest-panel.tsx:49-52 | the store's new state is `StateAfterRemove(old, id)` |
| `AoiPanel.AreaOfInterestPanel.HandleRowClick` | src/components/area-of-interest-panel.tsx:137 | selects the row's id; nothing else changes |
| `AoiPanel.AreaOfInterestPanel.HandleSearchResult` | src/components/area-of-interest-panel.tsx:54-75 | result name is the first comma segment; view 'search_result'; temp geometry is the preview square; nothing else changes |
| `AoiPanel.AreaOfInterestPanel.HandleApply` | src/components/area-of-interest-panel.tsx:77-89 | with a temp geometry and a non-empty result name: one AOI with that name and geometry appended, temp geometry cleared, view 'list'; otherwise the store is unchanged |
| `AoiPanel.AreaOfInterestPanel.HandleConfirm` | src/components/area-of-interest-panel.tsx:91-93 | view 'list'; nothing else changes |
| `AoiPanel.AreaOfInterestPanel.HandleBack` | src/components/area-of-interest-panel.tsx:294-298 | view 'initial'; nothing else changes |
| `AoiPanel.AreaOfInterestPanel.HandleSearchClick` | src/components/area-of-interest-panel.tsx:243-245 | view 'search_input'; nothing else changes |
| `AoiPanel.AreaOfInterestPanel.HandleNameInput` | src/components/area-of-interest-panel.tsx:314-315 | the typed name becomes the input text |
| `AoiPanel.AreaOfInterestPanel.HandleSaveAoi` | src/components/area-of-interest-panel.tsx:277-289 | with a pending AOI and a non-empty name: exactly one AOI with the pending id and geometry and the typed name appended, pending and name cleared, view 'list'; otherwise nothing changes |
| `AoiPanel.AreaOfInterestPanel.HandleCancel` | src/components/area-of-interest-panel.tsx:321-324 | pending AOI and typed name cleared; the list and every other field unchanged |
| `DrawingTools.ToolClicked` | src/components/drawing-tools.tsx:7-14 | the active tool becomes the clicked one, drawing is on iff it is 'draw', nothing else changes |
| `DrawingTools.ToolClickIdempotent` | src/components/drawing-tools.tsx:7-14 | clicking the same tool twice gives the state of clicking it once |
| `DrawingTools.ToolClickForgetsPrevious` | src/components/drawing-tools.tsx:7-14 | a click's outcome does not depend on the tool chosen before it |
| `DrawingTools.EditEraseOnlyStopDrawing` | src/components/drawing-tools.tsx:9-13 | 'edit' and 'erase' switch drawing off and keep the list and the selection |
| `DrawingTools.HandleToolClick` | src/components/drawing-tools.tsx:7-14 | the store's new state is `ToolClicked(old, tool)` |
| `DrawingTools.AtMostOneButtonActive` | src/components/drawing-tools.tsx:19-36 | a button is highlighted when the active tool equals its tool; no two of the three buttons are highlighted together, and some button is iff a tool has been chosen |
| `MapComponent.DrawModeFor` | src/components/map-view.tsx:117-121 | 'draw_polygon' iff drawing, 'simple_select' iff not |
| `MapComponent.VisibilityFor` | src/components/map-view.tsx:108 | 'visible' iff the layer flag is set, 'none' iff not |
| `MapComponent.MapView.constructor` | src/components/map-view.tsx:38-69 | the drawing control starts in 'simple_select'; the layer starts with the visibility of the store's flag |
| `MapComponent.MapView.OnDrawCreate` | src/components/map-view.tsx:124-131 | the first feature's id and geometry become the pending AOI and drawing is switched off; the list is untouched |
| `MapComponent.MapView.OnDrawUpdate` | src/components/map-view.tsx:133-135 | the store is unchanged |
| `MapComponent.MapView.OnDrawDelete` | src/components/map-view.tsx:137-139 | the store is unchanged |
| `MapComponent.MapView.SyncDrawMode` | src/components/map-view.tsx:114-122 | one run of the effect: with the drawing control present, sets its mode to `DrawModeFor(isDrawing)`; without it, leaves the mode as it was. It does not say when the effect runs |
| `MapComponent.MapView.FlyToEffect` | src/components/map-view.tsx:89-98 | with a map and a target: the map flies to it and the target is reset to none; otherwise nothing changes |
| `MapComponent.MapView.SyncLayerVisibility` | src/components/map-view.tsx:101-111 | one run of the effect: with the map, its style and the layer present, sets the layer's visibility to `VisibilityFor(layerVisible)`; otherwise leaves it as it was. It does not say when the effect runs |
| `SessionFlows.DrawNameSave` | tests/e2e.spec.ts:34-96 | draw click, finished polygon, typed name, save: the list holds exactly that one AOI, nothing is pending, drawing is off, view 'list' |
| `SessionFlows.DrawThenCancel` | src/components/area-of-interest-panel.tsx:321-324 | a finished polygon that is cancelled never reaches the list, and a later save does nothing |
| `SessionFlows.SearchApply` | src/components/area-of-interest-panel.tsx:54-89 | a search result with a non-empty short name, then apply: the list holds the preview square under that name; with an empty short name apply does nothing |

## Left out

- Boundary cutting, snapping, line slicing, ring cleaning and area comparison: no code for them exists in the modelled files.
- Map construction, the WMS tile source, the controls, the zoom buttons and the wiring of the drawing control's events (src/components/map-view.tsx:20-86, 141-147): foreign library calls. The map's state is reduced to the flags of `MapComponent.MapView`.
- The place search over HTTP and its result list (src/components/search-bar.tsx): network I/O and UI. Its setting of the fly-to target on selection is not modelled either. The chosen result enters the model as `HandleSearchResult`'s parameters.
- `parseFloat` of the coordinates and floating-point arithmetic: coordinates are exact reals, and 0.05 is the exact rational rather than the nearest double.
- `crypto.randomUUID()` and `new Date().toISOString()`: nondeterministic, passed in as `newId` and `createdAt`.
- The `persist` middleware and its local storage: I/O.
- JSX rendering, the choice of view to render for each `viewMode`, the icons, the sidebar (it only calls `toggleLayer`), the application shell and the DOM tests.
- The Save button's `!aoiName.trim()` disable check and the Apply and Confirm buttons' disable checks: UI guards. The handlers themselves are modelled, and `HandleSaveAoi` tests only that the name is non-empty.
- AoiList.Overlay: a key present in the update with the value `undefined` would overwrite the field with `undefined`. The model has no `undefined`, so a field is either present with a value or absent.
- MapComponent.MapView.SyncDrawMode: when the effect runs is not modelled. React reruns it only when `isDrawing` changes (src/components/map-view.tsx:122), and the drawing control is created later, in the map's load handler (src/components/map-view.tsx:56-67), in plain selection. So a draw click before the map has loaded leaves the control in 'simple_select' while `isDrawing` is true. In the model the map's flags are fixed at construction, and any caller may run the effect at any time.
- MapComponent.MapView.SyncLayerVisibility: when the effect runs is not modelled. React reruns it only when `layerVisible` changes (src/components/map-view.tsx:111). A toggle made while the style is still loading returns early (src/components/map-view.tsx:105) and is never applied later, so the layer can show the opposite of `layerVisible`. The model does not capture this, since any caller may run the effect at any time.
- MapComponent.MapView.FlyToEffect: the flight animation and the camera are not modelled, only the target handed to the map.
- MapComponent.MapView.OnDrawCreate: requires at least one reported feature. The drawing control always reports the finished polygon, and the code dereferences the first feature without a check.
