/**
 * Values shared by the AOI store and the components that drive it:
 * the AOI record, its partial update, the pending (drawn but unnamed)
 * area, the fly-to target, and the view and tool enumerations the
 * components keep in the store.
 */
module AoiTypes {

  datatype Option<+T> = None | Some(value: T)

  /** A longitude/latitude pair, in that order, as GeoJSON writes it. */
  datatype Point = Point(lon: real, lat: real)

  /**
   * A geometry as the store keeps it. The store never looks inside one:
   * a geometry handed over by the drawing control stays opaque (`Drawn`);
   * the search preview is a GeoJSON polygon whose coordinates are rings.
   */
  datatype Geometry =
    | Drawn(handle: nat)
    | Polygon(coordinates: seq<seq<Point>>)

  /** One saved area of interest. */
  datatype Aoi = Aoi(id: string, name: string, geometry: Geometry, createdAt: string)

  /** A partial AOI: each present field overrides the record's own. */
  datatype AoiUpdate = AoiUpdate(
    id: Option<string>,
    name: Option<string>,
    geometry: Option<Geometry>,
    createdAt: Option<string>)

  /** A drawn polygon waiting for a name. */
  datatype PendingAoi = PendingAoi(id: string, geometry: Geometry)

  /** Where the map should fly next: a centre and a zoom level. */
  datatype FlyTo = FlyTo(center: Point, zoom: real)

  /** The panel's views: 'initial', 'search_input', 'search_result', 'drawing', 'list'. */
  datatype ViewMode = Initial | SearchInput | SearchResult | Drawing | List

  /** The drawing tools: none chosen yet, 'draw', 'edit', 'erase'. */
  datatype ActiveTool = NoTool | Draw | Edit | Erase
}
