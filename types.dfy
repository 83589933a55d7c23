/** Optional values: `None` stands for an absent key or a null reference. */
module Wrappers {
  datatype Option<+T> = None | Some(value: T)
}

/**
 * The records the application passes around: the map view, the telemetry
 * attached to grid cells, the visualisation filters and the application
 * configuration, together with the "partial record" merges the two state
 * stores perform (`{ ...current, ...partial }`).
 */
module Types {
  import opened Wrappers

  /** A latitude/longitude pair. */
  datatype LatLng = LatLng(lat: real, lng: real)

  /** A rectangle given by its four edges. */
  datatype Bounds = Bounds(north: real, south: real, east: real, west: real)

  /** The view of the map; `bounds` and `forceFit` are optional keys. */
  datatype MapViewState = MapViewState(
    center: LatLng,
    zoom: real,
    bounds: Option<Bounds>,
    forceFit: Option<bool>)

  datatype AppConfig = AppConfig(defaultMapCenter: LatLng, defaultMapZoom: real)

  /** One telemetry record of one vehicle inside one cell. */
  datatype Entry = Entry(vehicleId: string, kpis: map<string, real>)

  /** A hexagonal cell index, opaque to this application. */
  type CellId = string

  /** Telemetry keyed by cell index. */
  type H3Data = map<CellId, seq<Entry>>

  datatype Aggregation = Sum | Average

  datatype Filters = Filters(kpi: string, aggregation: Aggregation)

  datatype AppState = AppState(
    mapViewState: MapViewState,
    h3Data: H3Data,
    currentResolution: int,
    filters: Filters,
    appConfig: AppConfig)

  datatype StateEventType = MapViewUpdated | H3DataUpdated | FiltersUpdated | ResolutionUpdated

  /** Defaults shared by both state stores. */
  const DefaultCenter := LatLng(40.7128, -74.006)
  const DefaultZoom: real := 10.0
  const DefaultResolution: int := 8
  const DefaultFilters := Filters("speed", Sum)
  const DefaultAppConfig := AppConfig(DefaultCenter, DefaultZoom)
  const InitialMapView := MapViewState(DefaultCenter, DefaultZoom, None, None)

  /**
   * A partial record: `None` is a key the caller left out, `Some(v)` a key
   * present with value `v`.
   */
  datatype PartialMapViewState = PartialMapViewState(
    center: Option<LatLng>,
    zoom: Option<real>,
    bounds: Option<Bounds>,
    forceFit: Option<bool>)

  datatype PartialFilters = PartialFilters(kpi: Option<string>, aggregation: Option<Aggregation>)

  datatype PartialAppConfig = PartialAppConfig(defaultMapCenter: Option<LatLng>, defaultMapZoom: Option<real>)

  /** A partial that supplies only `forceFit`. */
  function ForceFitOnly(b: bool): PartialMapViewState {
    PartialMapViewState(None, None, None, Some(b))
  }

  /** A key of the partial overrides the current value; a missing key keeps it. */
  function Pick<T>(current: T, supplied: Option<T>): T {
    if supplied.Some? then supplied.value else current
  }

  /** `{ ...current, ...p }` on view states. */
  function MergeMapView(current: MapViewState, p: PartialMapViewState): MapViewState {
    MapViewState(
      Pick(current.center, p.center),
      Pick(current.zoom, p.zoom),
      if p.bounds.Some? then p.bounds else current.bounds,
      if p.forceFit.Some? then p.forceFit else current.forceFit)
  }

  function MergeFilters(current: Filters, p: PartialFilters): Filters {
    Filters(Pick(current.kpi, p.kpi), Pick(current.aggregation, p.aggregation))
  }

  function MergeAppConfig(current: AppConfig, p: PartialAppConfig): AppConfig {
    AppConfig(Pick(current.defaultMapCenter, p.defaultMapCenter), Pick(current.defaultMapZoom, p.defaultMapZoom))
  }

  /** A whole view state spread as a partial: its absent optional keys stay absent. */
  function AsPartial(s: MapViewState): PartialMapViewState {
    PartialMapViewState(Some(s.center), Some(s.zoom), s.bounds, s.forceFit)
  }

  function FiltersAsPartial(f: Filters): PartialFilters {
    PartialFilters(Some(f.kpi), Some(f.aggregation))
  }

  function AppConfigAsPartial(c: AppConfig): PartialAppConfig {
    PartialAppConfig(Some(c.defaultMapCenter), Some(c.defaultMapZoom))
  }

  /** `{ ...p, ...q }` on partials: the keys of `q` win. */
  function CombineMapView(p: PartialMapViewState, q: PartialMapViewState): PartialMapViewState {
    PartialMapViewState(
      if q.center.Some? then q.center else p.center,
      if q.zoom.Some? then q.zoom else p.zoom,
      if q.bounds.Some? then q.bounds else p.bounds,
      if q.forceFit.Some? then q.forceFit else p.forceFit)
  }

  /**
   * The merge overwrites exactly the keys the partial supplies: a supplied
   * key ends up with the supplied value and every other key is unchanged.
   */
  lemma MergeMapViewFrame(s: MapViewState, p: PartialMapViewState)
    ensures var r := MergeMapView(s, p);
      && (p.center.Some? ==> r.center == p.center.value) && (p.center.None? ==> r.center == s.center)
      && (p.zoom.Some? ==> r.zoom == p.zoom.value) && (p.zoom.None? ==> r.zoom == s.zoom)
      && (p.bounds.Some? ==> r.bounds == p.bounds) && (p.bounds.None? ==> r.bounds == s.bounds)
      && (p.forceFit.Some? ==> r.forceFit == p.forceFit) && (p.forceFit.None? ==> r.forceFit == s.forceFit)
  {
  }

  /** Merging the same partial twice is the same as merging it once. */
  lemma MergeMapViewIdempotent(s: MapViewState, p: PartialMapViewState)
    ensures MergeMapView(MergeMapView(s, p), p) == MergeMapView(s, p)
  {
  }

  /** Two merges in a row are one merge of the combined partial. */
  lemma MergeMapViewCompose(s: MapViewState, p: PartialMapViewState, q: PartialMapViewState)
    ensures MergeMapView(MergeMapView(s, p), q) == MergeMapView(s, CombineMapView(p, q))
  {
  }

  /**
   * Writing a whole view state through the merge yields that state only
   * where it carries both optional keys; an absent `bounds` or `forceFit`
   * keeps the previous value instead of being cleared.
   */
  lemma MergeWholeViewState(s: MapViewState, t: MapViewState)
    ensures MergeMapView(s, AsPartial(t)).center == t.center
    ensures MergeMapView(s, AsPartial(t)).zoom == t.zoom
    ensures MergeMapView(s, AsPartial(t)).bounds == (if t.bounds.Some? then t.bounds else s.bounds)
    ensures MergeMapView(s, AsPartial(t)).forceFit == (if t.forceFit.Some? then t.forceFit else s.forceFit)
    ensures t.bounds.Some? && t.forceFit.Some? ==> MergeMapView(s, AsPartial(t)) == t
  {
  }

  /** A merge never removes `bounds` once they are present. */
  lemma MergeKeepsBounds(s: MapViewState, p: PartialMapViewState)
    ensures s.bounds.Some? ==> MergeMapView(s, p).bounds.Some?
  {
  }

  /** Merging a whole filters record replaces the filters. */
  lemma MergeWholeFilters(f: Filters, g: Filters)
    ensures MergeFilters(f, FiltersAsPartial(g)) == g
  {
  }
}
