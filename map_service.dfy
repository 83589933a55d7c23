/**
 * The Angular map controller: it owns the map widget, debounces the widget's
 * move/zoom events into view-state updates, renders the hexagon layer from
 * the state service's data and filters, and fits the map to the data once on
 * the first load or on request.
 *
 * The Angular effects that call it are modelled as the three `On…` methods;
 * the map widget's viewport is the field `leaflet`.
 */
module AngularMap {
  import opened Wrappers
  import opened Types
  import opened Kpi
  import opened Render
  import opened Timing
  import opened AngularState

  class MapService {
    const state: StateService
    const grid: Grid
    /** The map widget (`this.map`) with its current viewport, once created. */
    var leaflet: Option<MapView>
    /** The contents of the hexagon layer. */
    var layer: map<CellId, Polygon>
    /** The colour-scale domain the drawn polygons were coloured with. */
    var domain: Option<seq<real>>
    /** The timers of this controller still pending in the browser. */
    var timers: seq<Timer>
    /** `this.mapUpdateTimer`: the id of the last timer scheduled, never reset. */
    var mapUpdateTimer: Option<nat>
    /** The id the browser gives the next timer (ids are positive). */
    var nextTimerId: nat
    var initialDataLoaded: bool
    var initialized: bool
    /** The boxes handed to the widget's `fitBounds`, oldest first. */
    var fits: seq<BBox>

    ghost predicate Valid()
      reads this
    {
      AtMostOnePending(timers, mapUpdateTimer) && nextTimerId >= 1
    }

    constructor (state: StateService, grid: Grid)
      ensures Valid()
      ensures this.state == state && this.grid == grid
      ensures leaflet.None? && layer == map[] && domain.None?
      ensures timers == [] && mapUpdateTimer.None?
      ensures !initialDataLoaded && !initialized && fits == []
    {
      this.state := state;
      this.grid := grid;
      leaflet := None;
      layer := map[];
      domain := None;
      timers := [];
      mapUpdateTimer := None;
      nextTimerId := 1;
      initialDataLoaded := false;
      initialized := false;
      fits := [];
    }

    /**
     * Creates the map at the configured centre and zoom (the widget reports
     * `bounds` for it), records that view in the state and marks the service
     * initialized. Does nothing without a container or when already
     * initialized.
     */
    method InitMap(containerPresent: bool, bounds: Bounds)
      requires Valid()
      modifies this`leaflet, this`layer, this`initialized, state
      ensures Valid()
      ensures !containerPresent || old(initialized) ==>
        && leaflet == old(leaflet) && initialized == old(initialized) && layer == old(layer)
        && state.mapViewState == old(state.mapViewState)
      ensures containerPresent && !old(initialized) ==>
        && leaflet == Some(MapView(old(state.appConfig).defaultMapCenter, old(state.appConfig).defaultMapZoom, bounds))
        && initialized && layer == map[]
        && state.mapViewState == MapViewState(leaflet.value.center, leaflet.value.zoom, Some(bounds), None)
      ensures state.h3Data == old(state.h3Data) && state.filters == old(state.filters)
      ensures state.appConfig == old(state.appConfig) && state.currentResolution == old(state.currentResolution)
      ensures timers == old(timers) && mapUpdateTimer == old(mapUpdateTimer) && fits == old(fits)
      ensures initialDataLoaded == old(initialDataLoaded) && domain == old(domain)
    {
      if !containerPresent || initialized {
        return;
      }
      var config := state.appConfig;
      leaflet := Some(MapView(config.defaultMapCenter, config.defaultMapZoom, bounds));
      layer := map[];
      UpdateMapState();
      initialized := true;
    }

    /** The user pans or zooms: the widget's viewport becomes `v`. */
    method ViewportChanged(v: MapView)
      modifies this
      ensures leaflet == if old(leaflet).Some? then Some(v) else None
      ensures timers == old(timers) && mapUpdateTimer == old(mapUpdateTimer) && nextTimerId == old(nextTimerId)
      ensures layer == old(layer) && domain == old(domain) && fits == old(fits)
      ensures initialized == old(initialized) && initialDataLoaded == old(initialDataLoaded)
    {
      if leaflet.Some? {
        leaflet := Some(v);
      }
    }

    /**
     * A `moveend`/`zoomend` event at time `now`: cancels the pending timer
     * and schedules a new one 500 ms later, so exactly one timer is pending.
     */
    method HandleMapChange(now: nat)
      requires Valid()
      modifies this
      ensures Valid()
      ensures old(leaflet).None? ==> timers == old(timers) && mapUpdateTimer == old(mapUpdateTimer) && nextTimerId == old(nextTimerId)
      ensures old(leaflet).Some? ==>
        && timers == [Timer(old(nextTimerId), now + MapUpdateDebounce)]
        && mapUpdateTimer == Some(old(nextTimerId))
        && nextTimerId == old(nextTimerId) + 1
      ensures leaflet == old(leaflet) && layer == old(layer) && domain == old(domain) && fits == old(fits)
      ensures initialized == old(initialized) && initialDataLoaded == old(initialDataLoaded)
    {
      if leaflet.None? {
        return;
      }
      ghost var before := timers;
      if mapUpdateTimer.Some? {
        timers := ClearTimeout(timers, mapUpdateTimer.value);
      }
      var id := nextTimerId;
      nextTimerId := nextTimerId + 1;
      timers := timers + [Timer(id, now + MapUpdateDebounce)];
      mapUpdateTimer := Some(id);
      CancelAndReplaceLeavesOne(before, old(mapUpdateTimer), Timer(id, now + MapUpdateDebounce));
    }

    /** The browser at time `now`: a due timer fires and runs `updateMapState`. */
    method TimerElapsed(now: nat)
      requires Valid()
      modifies this`timers, state
      ensures Valid()
      ensures old(|timers| == 1 && timers[0].deadline <= now) ==>
        && timers == []
        && (leaflet.Some? ==> state.mapViewState == MapViewState(leaflet.value.center, leaflet.value.zoom, Some(leaflet.value.bounds), None))
      ensures !old(|timers| == 1 && timers[0].deadline <= now) ==>
        timers == old(timers) && state.mapViewState == old(state.mapViewState)
      ensures leaflet == old(leaflet) && mapUpdateTimer == old(mapUpdateTimer) && nextTimerId == old(nextTimerId)
      ensures layer == old(layer) && domain == old(domain) && fits == old(fits)
      ensures initialized == old(initialized) && initialDataLoaded == old(initialDataLoaded)
      ensures state.h3Data == old(state.h3Data) && state.filters == old(state.filters)
      ensures state.appConfig == old(state.appConfig) && state.currentResolution == old(state.currentResolution)
    {
      if |timers| == 1 && timers[0].deadline <= now {
        timers := [];
        UpdateMapState();
      }
    }

    /** Replaces the view state with the widget's centre, zoom and bounds (no `forceFit`). */
    method UpdateMapState()
      modifies state
      ensures leaflet.None? ==> state.mapViewState == old(state.mapViewState)
      ensures leaflet.Some? ==>
        state.mapViewState == MapViewState(leaflet.value.center, leaflet.value.zoom, Some(leaflet.value.bounds), None)
      ensures state.h3Data == old(state.h3Data) && state.filters == old(state.filters)
      ensures state.appConfig == old(state.appConfig) && state.currentResolution == old(state.currentResolution)
    {
      if leaflet.None? {
        return;
      }
      var v := leaflet.value;
      state.SetMapViewState(MapViewState(v.center, v.zoom, Some(v.bounds), None));
    }

    /**
     * Fits the widget to the box around every known boundary vertex of the
     * state's data and clears `forceFit`; with no map or no data it returns
     * early and leaves `forceFit` as it was.
     */
    method FitToHexagons()
      modifies this`fits, state
      ensures leaflet.None? || |old(state.h3Data)| == 0 ==>
        fits == old(fits) && state.mapViewState == old(state.mapViewState)
      ensures leaflet.Some? && |old(state.h3Data)| > 0 ==>
        && |fits| == |old(fits)| + 1 && fits[..|old(fits)|] == old(fits)
        && BoxOfData(fits[|old(fits)|], old(state.h3Data), grid)
        && state.mapViewState == MergeMapView(old(state.mapViewState), ForceFitOnly(false))
        && state.mapViewState.forceFit == Some(false)
      ensures state.h3Data == old(state.h3Data) && state.filters == old(state.filters)
      ensures state.appConfig == old(state.appConfig) && state.currentResolution == old(state.currentResolution)
    {
      if leaflet.None? {
        return;
      }
      var data := state.h3Data;
      if |data| == 0 {
        return;
      }
      var box := BoundingBox(data, grid);
      fits := fits + [box];
      state.UpdateMapViewState(ForceFitOnly(false));
    }

    /**
     * Clears the layer; fits to the data on the very first load (when the
     * view has no bounds); colours by a domain built from the raw KPI sums of
     * the non-empty cells whose centre is in view; and, when there is at least
     * one such cell, draws every cell whose boundary is known.
     */
    method RenderHexagons(data: H3Data)
      requires Valid()
      modifies this`layer, this`domain, this`fits, this`initialDataLoaded, state
      ensures Valid()
      ensures leaflet.None? ==>
        && layer == old(layer) && domain == old(domain) && fits == old(fits)
        && initialDataLoaded == old(initialDataLoaded) && state.mapViewState == old(state.mapViewState)
      ensures leaflet.Some? ==>
        && initialDataLoaded == (old(initialDataLoaded) || TakesFirstFit(old(initialDataLoaded), data, old(state.mapViewState)))
        && Rendered(layer, domain, data, grid, leaflet.value.bounds, state.filters)
      ensures leaflet.Some? && TakesFirstFit(old(initialDataLoaded), data, old(state.mapViewState)) && |old(state.h3Data)| > 0 ==>
        && |fits| == |old(fits)| + 1 && fits[..|old(fits)|] == old(fits)
        && BoxOfData(fits[|old(fits)|], old(state.h3Data), grid)
        && state.mapViewState == MergeMapView(old(state.mapViewState), ForceFitOnly(false))
      ensures !(TakesFirstFit(old(initialDataLoaded), data, old(state.mapViewState)) && |old(state.h3Data)| > 0) ==>
        fits == old(fits) && state.mapViewState == old(state.mapViewState)
      ensures state.h3Data == old(state.h3Data) && state.filters == old(state.filters)
      ensures state.appConfig == old(state.appConfig) && state.currentResolution == old(state.currentResolution)
    {
      if leaflet.None? {
        return;
      }
      layer := map[];
      domain := None;
      FirstLoadFit(data);
      DrawLayer(data);
    }

    /** The fit on the first non-empty data, taken only while the view has no bounds. */
    method FirstLoadFit(data: H3Data)
      requires leaflet.Some?
      modifies this`fits, this`initialDataLoaded, state
      ensures initialDataLoaded == (old(initialDataLoaded) || TakesFirstFit(old(initialDataLoaded), data, old(state.mapViewState)))
      ensures TakesFirstFit(old(initialDataLoaded), data, old(state.mapViewState)) && |old(state.h3Data)| > 0 ==>
        && |fits| == |old(fits)| + 1 && fits[..|old(fits)|] == old(fits)
        && BoxOfData(fits[|old(fits)|], old(state.h3Data), grid)
        && state.mapViewState == MergeMapView(old(state.mapViewState), ForceFitOnly(false))
      ensures !(TakesFirstFit(old(initialDataLoaded), data, old(state.mapViewState)) && |old(state.h3Data)| > 0) ==>
        fits == old(fits) && state.mapViewState == old(state.mapViewState)
      ensures state.h3Data == old(state.h3Data) && state.filters == old(state.filters)
      ensures state.appConfig == old(state.appConfig) && state.currentResolution == old(state.currentResolution)
    {
      if !initialDataLoaded && |data| > 0 && state.mapViewState.bounds.None? {
        FitToHexagons();
        initialDataLoaded := true;
      }
    }

    /**
     * The two drawing passes: the colour domain from the raw KPI sums of the
     * visible non-empty cells and, when there is at least one, every cell
     * whose boundary is known.
     */
    method DrawLayer(data: H3Data)
      requires leaflet.Some? && layer == map[] && domain.None?
      modifies this`layer, this`domain
      ensures Rendered(layer, domain, data, grid, leaflet.value.bounds, state.filters)
    {
      var f := state.filters;
      var bounds := leaflet.value.bounds;
      var values, cells := CollectDomainValues(data, grid, f.kpi, bounds);
      if |values| == 0 {
        assert forall k :: !InDomain(data, grid, bounds, k);
        return;
      }
      ghost var seen := cells[0];
      assert InDomain(data, grid, bounds, seen);
      domain := Some(ScaleDomain(values));
      layer := DrawCells(data, grid, f);
      ScaleDomainFits(values, cells, data, grid, bounds, f.kpi);
      assert InDomain(data, grid, leaflet.value.bounds, seen);
    }

    /** The effect on data changes: re-render the state's data once initialized. */
    method OnH3DataChanged()
      requires Valid()
      modifies this`layer, this`domain, this`fits, this`initialDataLoaded, state
      ensures Valid()
      ensures !initialized || leaflet.None? ==>
        && layer == old(layer) && domain == old(domain) && fits == old(fits)
        && initialDataLoaded == old(initialDataLoaded) && state.mapViewState == old(state.mapViewState)
      ensures initialized && leaflet.Some? ==>
        && initialDataLoaded == (old(initialDataLoaded) || TakesFirstFit(old(initialDataLoaded), state.h3Data, old(state.mapViewState)))
        && Rendered(layer, domain, state.h3Data, grid, leaflet.value.bounds, state.filters)
      ensures initialized && leaflet.Some? && TakesFirstFit(old(initialDataLoaded), state.h3Data, old(state.mapViewState)) ==>
        && |fits| == |old(fits)| + 1 && fits[..|old(fits)|] == old(fits)
        && BoxOfData(fits[|old(fits)|], state.h3Data, grid)
        && state.mapViewState == MergeMapView(old(state.mapViewState), ForceFitOnly(false))
      ensures !(initialized && TakesFirstFit(old(initialDataLoaded), state.h3Data, old(state.mapViewState))) ==>
        fits == old(fits) && state.mapViewState == old(state.mapViewState)
      ensures state.h3Data == old(state.h3Data) && state.filters == old(state.filters)
      ensures state.appConfig == old(state.appConfig) && state.currentResolution == old(state.currentResolution)
    {
      if initialized {
        RenderHexagons(state.h3Data);
      }
    }

    /** The effect on view-state changes: a pending `forceFit` makes an initialized service fit. */
    method OnMapViewStateChanged()
      requires Valid()
      modifies this`fits, state
      ensures Valid()
      ensures initialized && old(state.mapViewState.forceFit) == Some(true) && leaflet.Some? && |state.h3Data| > 0 ==>
        && |fits| == |old(fits)| + 1 && fits[..|old(fits)|] == old(fits)
        && BoxOfData(fits[|old(fits)|], state.h3Data, grid)
        && state.mapViewState == MergeMapView(old(state.mapViewState), ForceFitOnly(false))
        && state.mapViewState.forceFit == Some(false)
      ensures !(initialized && old(state.mapViewState.forceFit) == Some(true) && leaflet.Some? && |state.h3Data| > 0) ==>
        state.mapViewState == old(state.mapViewState) && fits == old(fits)
      ensures state.h3Data == old(state.h3Data) && state.filters == old(state.filters)
      ensures state.appConfig == old(state.appConfig) && state.currentResolution == old(state.currentResolution)
      ensures layer == old(layer) && domain == old(domain) && timers == old(timers)
    {
      if state.mapViewState.forceFit == Some(true) && initialized {
        FitToHexagons();
      }
    }

    /** The effect on filter changes: re-render the state's data once initialized. */
    method OnFiltersChanged()
      requires Valid()
      modifies this`layer, this`domain, this`fits, this`initialDataLoaded, state
      ensures Valid()
      ensures !initialized || leaflet.None? ==>
        && layer == old(layer) && domain == old(domain) && fits == old(fits)
        && initialDataLoaded == old(initialDataLoaded) && state.mapViewState == old(state.mapViewState)
      ensures initialized && leaflet.Some? ==>
        && initialDataLoaded == (old(initialDataLoaded) || TakesFirstFit(old(initialDataLoaded), state.h3Data, old(state.mapViewState)))
        && Rendered(layer, domain, state.h3Data, grid, leaflet.value.bounds, state.filters)
      ensures initialized && leaflet.Some? && TakesFirstFit(old(initialDataLoaded), state.h3Data, old(state.mapViewState)) ==>
        && |fits| == |old(fits)| + 1 && fits[..|old(fits)|] == old(fits)
        && BoxOfData(fits[|old(fits)|], state.h3Data, grid)
        && state.mapViewState == MergeMapView(old(state.mapViewState), ForceFitOnly(false))
      ensures !(initialized && TakesFirstFit(old(initialDataLoaded), state.h3Data, old(state.mapViewState))) ==>
        fits == old(fits) && state.mapViewState == old(state.mapViewState)
      ensures state.h3Data == old(state.h3Data) && state.filters == old(state.filters)
      ensures state.appConfig == old(state.appConfig) && state.currentResolution == old(state.currentResolution)
    {
      if initialized {
        RenderHexagons(state.h3Data);
      }
    }

    /** Requests a fit: sets `forceFit`, leaving the rest of the view state as it was. */
    method FitToData()
      modifies state
      ensures state.mapViewState == MergeMapView(old(state.mapViewState), ForceFitOnly(true))
      ensures state.mapViewState.forceFit == Some(true)
      ensures state.h3Data == old(state.h3Data) && state.filters == old(state.filters)
      ensures state.appConfig == old(state.appConfig) && state.currentResolution == old(state.currentResolution)
    {
      state.UpdateMapViewState(ForceFitOnly(true));
    }

    /** Cancels the pending timer and marks the service uninitialized. */
    method Destroy()
      requires Valid()
      modifies this`timers, this`initialized
      ensures Valid()
      ensures timers == [] && !initialized
      ensures leaflet == old(leaflet) && layer == old(layer) && domain == old(domain)
      ensures mapUpdateTimer == old(mapUpdateTimer) && nextTimerId == old(nextTimerId)
      ensures initialDataLoaded == old(initialDataLoaded) && fits == old(fits)
    {
      if mapUpdateTimer.Some? {
        timers := ClearTimeout(timers, mapUpdateTimer.value);
      }
      initialized := false;
    }
  }
}
