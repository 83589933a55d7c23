/**
 * The signal-based application state of the Angular front end: five state
 * cells replaced by update/set/reset methods, and two derived values (the
 * hexagon count and the per-cell KPI values).
 */
module AngularState {
  import opened Wrappers
  import opened Types
  import opened Kpi

  /** The cells that `currentKpiData` reports: those with at least one entry. */
  function NonEmptyCells(data: H3Data): set<CellId> {
    set k | k in data && |data[k]| > 0
  }

  /** A reduced-value table has no more keys than the data it came from. */
  lemma NonEmptyCellsWithinCount(data: H3Data)
    ensures |NonEmptyCells(data)| <= |data|
  {
    assert NonEmptyCells(data) <= data.Keys;
    SubsetCardinality(NonEmptyCells(data), data.Keys);
  }

  lemma {:induction false} SubsetCardinality<T>(a: set<T>, b: set<T>)
    requires a <= b
    ensures |a| <= |b|
    decreases |b|
  {
    if a != {} {
      var x :| x in a;
      SubsetCardinality(a - {x}, b - {x});
    }
  }

  class StateService {
    var mapViewState: MapViewState
    var h3Data: H3Data
    var currentResolution: int
    var filters: Filters
    var appConfig: AppConfig

    /** The initial signal values. */
    constructor ()
      ensures mapViewState == MapViewState(LatLng(40.7128, -74.006), 10.0, None, None)
      ensures h3Data == map[] && currentResolution == 8
      ensures filters == Filters("speed", Sum)
      ensures appConfig == AppConfig(LatLng(40.7128, -74.006), 10.0)
    {
      mapViewState := InitialMapView;
      h3Data := map[];
      currentResolution := DefaultResolution;
      filters := DefaultFilters;
      appConfig := DefaultAppConfig;
    }

    /**
     * `Object.keys(h3Data).length`: cells with an empty entry list are
     * counted too, so the count is never below the number of cells that
     * `currentKpiData` reports.
     */
    function HexagonCount(): (n: nat)
      reads this
      ensures n >= |NonEmptyCells(h3Data)|
      ensures h3Data == map[] ==> n == 0
    {
      NonEmptyCellsWithinCount(h3Data);
      |h3Data|
    }

    /** The complete state, as `getState` returns it. */
    function GetState(): AppState
      reads this
    {
      AppState(mapViewState, h3Data, currentResolution, filters, appConfig)
    }

    /**
     * The computed `currentKpiData`: one key per cell with a non-empty entry
     * list, holding that cell's reduced value under the current filters. It
     * never has more keys than `HexagonCount()`.
     */
    method CurrentKpiData() returns (result: map<CellId, real>)
      ensures result.Keys == NonEmptyCells(h3Data)
      ensures forall k :: k in result ==> result[k] == CellValue(h3Data[k], filters)
      ensures |result| <= HexagonCount()
    {
      result := map[];
      var rest := h3Data.Keys;
      while rest != {}
        invariant rest <= h3Data.Keys
        invariant result.Keys == NonEmptyCells(h3Data) - rest
        invariant forall k :: k in result ==> result[k] == CellValue(h3Data[k], filters)
        decreases rest
      {
        var k :| k in rest;
        var entries := h3Data[k];
        if |entries| > 0 {
          result := result[k := CellValue(entries, filters)];
        }
        rest := rest - {k};
      }
      NonEmptyCellsWithinCount(h3Data);
    }

    /** Merges the supplied keys into the view state. */
    method UpdateMapViewState(p: PartialMapViewState)
      modifies this
      ensures mapViewState == MergeMapView(old(mapViewState), p)
      ensures h3Data == old(h3Data) && currentResolution == old(currentResolution)
      ensures filters == old(filters) && appConfig == old(appConfig)
    {
      mapViewState := MergeMapView(mapViewState, p);
    }

    /** Replaces the view state wholesale: keys absent from `s` are absent afterwards. */
    method SetMapViewState(s: MapViewState)
      modifies this
      ensures mapViewState == s
      ensures h3Data == old(h3Data) && currentResolution == old(currentResolution)
      ensures filters == old(filters) && appConfig == old(appConfig)
    {
      mapViewState := s;
    }

    method UpdateH3Data(data: H3Data)
      modifies this
      ensures h3Data == data
      ensures mapViewState == old(mapViewState) && currentResolution == old(currentResolution)
      ensures filters == old(filters) && appConfig == old(appConfig)
    {
      h3Data := data;
    }

    /** Merges the supplied keys into the filters. */
    method UpdateFilters(p: PartialFilters)
      modifies this
      ensures filters == MergeFilters(old(filters), p)
      ensures mapViewState == old(mapViewState) && h3Data == old(h3Data)
      ensures currentResolution == old(currentResolution) && appConfig == old(appConfig)
    {
      filters := MergeFilters(filters, p);
    }

    method SetFilters(f: Filters)
      modifies this
      ensures filters == f
      ensures mapViewState == old(mapViewState) && h3Data == old(h3Data)
      ensures currentResolution == old(currentResolution) && appConfig == old(appConfig)
    {
      filters := f;
    }

    /** The resolution is only ever set explicitly; no value is derived from the zoom. */
    method UpdateCurrentResolution(resolution: int)
      modifies this
      ensures currentResolution == resolution
      ensures mapViewState == old(mapViewState) && h3Data == old(h3Data)
      ensures filters == old(filters) && appConfig == old(appConfig)
    {
      currentResolution := resolution;
    }

    method UpdateAppConfig(p: PartialAppConfig)
      modifies this
      ensures appConfig == MergeAppConfig(old(appConfig), p)
      ensures mapViewState == old(mapViewState) && h3Data == old(h3Data)
      ensures currentResolution == old(currentResolution) && filters == old(filters)
    {
      appConfig := MergeAppConfig(appConfig, p);
    }

    /**
     * Restores the defaults: the view is centred and zoomed from the
     * configuration with no bounds and no `forceFit`; the configuration
     * itself is kept.
     */
    method ResetToDefaults()
      modifies this
      ensures mapViewState == MapViewState(old(appConfig).defaultMapCenter, old(appConfig).defaultMapZoom, None, None)
      ensures h3Data == map[] && currentResolution == 8
      ensures filters == Filters("speed", Sum)
      ensures appConfig == old(appConfig)
      ensures HexagonCount() == 0
    {
      var config := appConfig;
      mapViewState := MapViewState(config.defaultMapCenter, config.defaultMapZoom, None, None);
      h3Data := map[];
      currentResolution := DefaultResolution;
      filters := DefaultFilters;
    }
  }
}
