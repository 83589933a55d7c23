/**
 * The map controller of the plain front end: the same rendering and fitting
 * as the Angular controller, but bound to the event store. It writes the view
 * state through the store's merging `set`, registers three handlers when it
 * is built, and removes them again when it is destroyed.
 *
 * The store delivers an event by calling the handler registered under the
 * event's type; the three `On…` methods are those handlers' bodies.
 */
module PlainMap {
  import opened Wrappers
  import opened Types
  import opened Kpi
  import opened Render
  import opened Timing
  import opened Stores

  /** The zoom used when the configured one is falsy (zero). */
  const FallbackZoom: real := 10.0

  /** The zoom the map is created with: the configured one, unless it is zero. */
  function InitialZoom(config: AppConfig): (z: real)
    ensures config.defaultMapZoom != 0.0 ==> z == config.defaultMapZoom
    ensures config.defaultMapZoom == 0.0 ==> z == FallbackZoom
    ensures z != 0.0
  {
    if config.defaultMapZoom != 0.0 then config.defaultMapZoom else FallbackZoom
  }

  /**
   * The updater `fitToHexagons` passes to `mapViewState.update`: merged
   * back into the store it has the effect of the partial `{ forceFit: false }`.
   */
  function ClearForceFit(s: MapViewState): (r: MapViewState)
    ensures MergeMapView(s, AsPartial(r)) == MergeMapView(s, ForceFitOnly(false))
    ensures r.center == s.center && r.zoom == s.zoom && r.bounds == s.bounds
  {
    s.(forceFit := Some(false))
  }

  class MapManager {
    const sm: StateManager
    const grid: Grid
    const containerPresent: bool
    /** The map widget with its current viewport, once created. */
    var leaflet: Option<MapView>
    /** The contents of the hexagon layer. */
    var layer: map<CellId, Polygon>
    /** The colour-scale domain the drawn polygons were coloured with. */
    var domain: Option<seq<real>>
    var timers: seq<Timer>
    var mapUpdateTimer: Option<nat>
    var nextTimerId: nat
    var initialDataLoaded: bool
    /** The handles of the three store subscriptions (`unsubscribeFunctions`). */
    var unsubscribes: seq<nat>
    /** The boxes handed to the widget's `fitBounds`, oldest first. */
    var fits: seq<BBox>

    ghost predicate Valid()
      reads this, sm
    {
      AtMostOnePending(timers, mapUpdateTimer) && nextTimerId >= 1 && sm.Valid()
    }

    /**
     * Creates the map, then subscribes to the data, the view state and the
     * filters in that order. Each subscription first runs its callback on the
     * current value, so a manager built on a store with data renders it twice
     * before any handler is registered.
     */
    constructor (sm: StateManager, grid: Grid, containerPresent: bool, bounds: Bounds)
      requires sm.Valid()
      modifies sm
      ensures Valid()
      ensures this.sm == sm && this.grid == grid && this.containerPresent == containerPresent
      ensures containerPresent <==> leaflet.Some?
      ensures containerPresent ==>
        leaflet.value == MapView(old(sm.appConfig).defaultMapCenter, InitialZoom(old(sm.appConfig)), bounds)
      ensures |unsubscribes| == 3
      ensures sm.listeners == old(sm.listeners) + [
        Listener(unsubscribes[0], H3DataUpdated),
        Listener(unsubscribes[1], MapViewUpdated),
        Listener(unsubscribes[2], FiltersUpdated)]
      ensures sm.h3Data == old(sm.h3Data) && sm.filters == old(sm.filters) && sm.appConfig == old(sm.appConfig)
      ensures sm.currentResolution == old(sm.currentResolution)
      ensures timers == [] && mapUpdateTimer.None?
      ensures !containerPresent ==>
        && layer == map[] && domain.None? && !initialDataLoaded
        && sm.mapViewState == old(sm.mapViewState) && sm.dispatched == old(sm.dispatched)
      ensures containerPresent ==>
        && sm.mapViewState.center == old(sm.appConfig).defaultMapCenter
        && sm.mapViewState.zoom == InitialZoom(old(sm.appConfig))
        && sm.mapViewState.bounds == Some(bounds)
        && (sm.mapViewState.forceFit == old(sm.mapViewState).forceFit || sm.mapViewState.forceFit == Some(false))
        && |sm.dispatched| > |old(sm.dispatched)| && sm.dispatched[..|old(sm.dispatched)|] == old(sm.dispatched)
        && sm.dispatched[|old(sm.dispatched)|].eventType == MapViewUpdated
        && sm.dispatched[|old(sm.dispatched)|].detail == ViewPayload(MapViewState(
             old(sm.appConfig).defaultMapCenter, InitialZoom(old(sm.appConfig)), Some(bounds), old(sm.mapViewState).forceFit))
        && !initialDataLoaded
        && Rendered(layer, domain, sm.h3Data, grid, bounds, sm.filters)
    {
      this.sm := sm;
      this.grid := grid;
      this.containerPresent := containerPresent;
      leaflet := None;
      layer := map[];
      domain := None;
      timers := [];
      mapUpdateTimer := None;
      nextTimerId := 1;
      initialDataLoaded := false;
      unsubscribes := [];
      fits := [];
      new;
      InitMap(bounds);
      ghost var afterInit := sm.dispatched;
      SetupSubscriptions();
      if containerPresent {
        assert afterInit <= sm.dispatched;
        assert sm.dispatched[|old(sm.dispatched)|] == afterInit[|old(sm.dispatched)|];
        assert sm.dispatched[..|old(sm.dispatched)|] == afterInit[..|old(sm.dispatched)|];
      }
    }

    /**
     * Creates the map at the configured centre and zoom (zoom 10 when the
     * configured zoom is zero) and writes its view into the store; without a
     * container it does nothing.
     */
    method InitMap(bounds: Bounds)
      requires Valid()
      modifies this`leaflet, this`layer, sm
      ensures Valid()
      ensures !containerPresent ==>
        && leaflet == old(leaflet) && layer == old(layer)
        && sm.mapViewState == old(sm.mapViewState) && sm.dispatched == old(sm.dispatched)
      ensures containerPresent ==>
        && leaflet == Some(MapView(old(sm.appConfig).defaultMapCenter, InitialZoom(old(sm.appConfig)), bounds))
        && layer == map[]
        && sm.mapViewState == MapViewState(leaflet.value.center, leaflet.value.zoom, Some(bounds), old(sm.mapViewState).forceFit)
        && sm.dispatched == old(sm.dispatched) + [Dispatch(MapViewUpdated, ViewPayload(sm.mapViewState), Recipients(sm.listeners, MapViewUpdated))]
      ensures sm.h3Data == old(sm.h3Data) && sm.filters == old(sm.filters) && sm.appConfig == old(sm.appConfig)
      ensures sm.currentResolution == old(sm.currentResolution)
      ensures sm.listeners == old(sm.listeners) && sm.nextHandle == old(sm.nextHandle)
    {
      if !containerPresent {
        return;
      }
      var config := sm.appConfig;
      leaflet := Some(MapView(config.defaultMapCenter, InitialZoom(config), bounds));
      layer := map[];
      UpdateMapState();
    }

    /**
     * The three subscriptions, each as its wrapper performs it: the callback
     * runs on the current value, then the handler is registered.
     */
    method SetupSubscriptions()
      requires Valid()
      modifies this, sm
      ensures Valid()
      ensures |unsubscribes| == |old(unsubscribes)| + 3 && unsubscribes[..|old(unsubscribes)|] == old(unsubscribes)
      ensures sm.listeners == old(sm.listeners) + [
        Listener(unsubscribes[|old(unsubscribes)|], H3DataUpdated),
        Listener(unsubscribes[|old(unsubscribes)| + 1], MapViewUpdated),
        Listener(unsubscribes[|old(unsubscribes)| + 2], FiltersUpdated)]
      ensures sm.h3Data == old(sm.h3Data) && sm.filters == old(sm.filters) && sm.appConfig == old(sm.appConfig)
      ensures sm.currentResolution == old(sm.currentResolution)
      ensures leaflet == old(leaflet) && timers == old(timers) && mapUpdateTimer == old(mapUpdateTimer)
      ensures leaflet.None? ==>
        && layer == old(layer) && domain == old(domain) && initialDataLoaded == old(initialDataLoaded)
        && sm.mapViewState == old(sm.mapViewState) && sm.dispatched == old(sm.dispatched)
      ensures leaflet.Some? ==> Rendered(layer, domain, sm.h3Data, grid, leaflet.value.bounds, sm.filters)
      ensures sm.mapViewState == old(sm.mapViewState) || sm.mapViewState == ClearForceFit(old(sm.mapViewState))
      ensures old(sm.mapViewState).bounds.Some? ==> initialDataLoaded == old(initialDataLoaded)
      ensures old(sm.dispatched) <= sm.dispatched
    {
      var data := sm.h3Data;
      OnH3DataUpdated(data);
      var unsubData := sm.Subscribe(H3DataUpdated);
      var view := sm.mapViewState;
      OnMapViewUpdated(view);
      var unsubView := sm.Subscribe(MapViewUpdated);
      OnFiltersUpdated();
      var unsubFilters := sm.Subscribe(FiltersUpdated);
      unsubscribes := unsubscribes + [unsubData, unsubView, unsubFilters];
    }

    /** The user pans or zooms: the widget's viewport becomes `v`. */
    method ViewportChanged(v: MapView)
      modifies this`leaflet
      ensures leaflet == if old(leaflet).Some? then Some(v) else None
    {
      if leaflet.Some? {
        leaflet := Some(v);
      }
    }

    /**
     * A `moveend`/`zoomend` event at time `now`: cancels the pending timer
     * and schedules a new one 500 ms later, so exactly one timer is pending.
     */
    method HandleMapChange(now: nat)
      requires Valid()
      modifies this`timers, this`mapUpdateTimer, this`nextTimerId
      ensures Valid()
      ensures leaflet.None? ==> timers == old(timers) && mapUpdateTimer == old(mapUpdateTimer) && nextTimerId == old(nextTimerId)
      ensures leaflet.Some? ==>
        && timers == [Timer(old(nextTimerId), now + MapUpdateDebounce)]
        && mapUpdateTimer == Some(old(nextTimerId))
        && nextTimerId == old(nextTimerId) + 1
    {
      if leaflet.None? {
        return;
      }
      ghost var before := timers;
      if mapUpdateTimer.Some? {
        timers := ClearTimeout(timers, mapUpdateTimer.value);
      }
      var id := nextTimerId;
      nextTimerId := nextTimerId + 1;
      timers := timers + [Timer(id, now + MapUpdateDebounce)];
      mapUpdateTimer := Some(id);
      CancelAndReplaceLeavesOne(before, old(mapUpdateTimer), Timer(id, now + MapUpdateDebounce));
    }

    /** The browser at time `now`: a due timer fires and runs `updateMapState`. */
    method TimerElapsed(now: nat)
      requires Valid()
      modifies this`timers, sm
      ensures Valid()
      ensures old(|timers| == 1 && timers[0].deadline <= now) ==>
        && timers == []
        && (leaflet.Some? ==>
              && sm.mapViewState == MapViewState(leaflet.value.center, leaflet.value.zoom, Some(leaflet.value.bounds), old(sm.mapViewState).forceFit)
              && sm.dispatched == old(sm.dispatched) + [Dispatch(MapViewUpdated, ViewPayload(sm.mapViewState), Recipients(sm.listeners, MapViewUpdated))])
      ensures !old(|timers| == 1 && timers[0].deadline <= now) ==>
        timers == old(timers) && sm.mapViewState == old(sm.mapViewState) && sm.dispatched == old(sm.dispatched)
      ensures sm.h3Data == old(sm.h3Data) && sm.filters == old(sm.filters) && sm.appConfig == old(sm.appConfig)
      ensures sm.currentResolution == old(sm.currentResolution)
      ensures sm.listeners == old(sm.listeners) && sm.nextHandle == old(sm.nextHandle)
    {
      if |timers| == 1 && timers[0].deadline <= now {
        timers := [];
        UpdateMapState();
      }
    }

    /**
     * Writes the widget's centre, zoom and bounds through `mapViewState.set`:
     * the merge keeps a pending `forceFit`, and one `map-view-updated` is emitted.
     */
    method UpdateMapState()
      requires sm.Valid()
      modifies sm
      ensures sm.Valid()
      ensures leaflet.None? ==> sm.mapViewState == old(sm.mapViewState) && sm.dispatched == old(sm.dispatched)
      ensures leaflet.Some? ==>
        && sm.mapViewState == MapViewState(leaflet.value.center, leaflet.value.zoom, Some(leaflet.value.bounds), old(sm.mapViewState).forceFit)
        && sm.dispatched == old(sm.dispatched) + [Dispatch(MapViewUpdated, ViewPayload(sm.mapViewState), Recipients(sm.listeners, MapViewUpdated))]
      ensures sm.h3Data == old(sm.h3Data) && sm.filters == old(sm.filters) && sm.appConfig == old(sm.appConfig)
      ensures sm.currentResolution == old(sm.currentResolution)
      ensures sm.listeners == old(sm.listeners) && sm.nextHandle == old(sm.nextHandle)
    {
      if leaflet.None? {
        return;
      }
      var v := leaflet.value;
      MergeWholeViewState(sm.mapViewState, MapViewState(v.center, v.zoom, Some(v.bounds), None));
      MapViewStateSet(sm, MapViewState(v.center, v.zoom, Some(v.bounds), None));
    }

    /**
     * Fits the widget to the box around every known boundary vertex of the
     * store's data and clears `forceFit` through `mapViewState.update`; with
     * no map or no data it returns early, leaving `forceFit` set.
     */
    method FitToHexagons()
      requires sm.Valid()
      modifies this`fits, sm
      ensures sm.Valid()
      ensures leaflet.None? || |old(sm.h3Data)| == 0 ==>
        fits == old(fits) && sm.mapViewState == old(sm.mapViewState) && sm.dispatched == old(sm.dispatched)
      ensures leaflet.Some? && |old(sm.h3Data)| > 0 ==>
        && |fits| == |old(fits)| + 1 && fits[..|old(fits)|] == old(fits)
        && BoxOfData(fits[|old(fits)|], old(sm.h3Data), grid)
        && sm.mapViewState == ClearForceFit(old(sm.mapViewState))
        && sm.dispatched == old(sm.dispatched) + [Dispatch(MapViewUpdated, ViewPayload(sm.mapViewState), Recipients(sm.listeners, MapViewUpdated))]
      ensures sm.h3Data == old(sm.h3Data) && sm.filters == old(sm.filters) && sm.appConfig == old(sm.appConfig)
      ensures sm.currentResolution == old(sm.currentResolution)
      ensures sm.listeners == old(sm.listeners) && sm.nextHandle == old(sm.nextHandle)
    {
      if leaflet.None? {
        return;
      }
      var data := sm.h3Data;
      if |data| == 0 {
        return;
      }
      var box := BoundingBox(data, grid);
      fits := fits + [box];
      MapViewStateUpdate(sm, ClearForceFit);
    }

    /**
     * Clears the layer, fits on the very first non-empty data while the view
     * has no bounds, and draws the layer coloured by the raw KPI sums of the
     * visible cells.
     */
    method RenderHexagons(data: H3Data)
      requires Valid()
      modifies this`layer, this`domain, this`fits, this`initialDataLoaded, sm
      ensures Valid()
      ensures leaflet.None? ==>
        && layer == old(layer) && domain == old(domain) && initialDataLoaded == old(initialDataLoaded)
      ensures leaflet.Some? ==>
        && initialDataLoaded == (old(initialDataLoaded) || TakesFirstFit(old(initialDataLoaded), data, old(sm.mapViewState)))
        && Rendered(layer, domain, data, grid, leaflet.value.bounds, sm.filters)
      ensures leaflet.Some? && TakesFirstFit(old(initialDataLoaded), data, old(sm.mapViewState)) && |old(sm.h3Data)| > 0 ==>
        && |fits| == |old(fits)| + 1 && fits[..|old(fits)|] == old(fits)
        && BoxOfData(fits[|old(fits)|], old(sm.h3Data), grid)
        && sm.mapViewState == ClearForceFit(old(sm.mapViewState))
        && sm.dispatched == old(sm.dispatched) + [Dispatch(MapViewUpdated, ViewPayload(sm.mapViewState), Recipients(sm.listeners, MapViewUpdated))]
      ensures !(leaflet.Some? && TakesFirstFit(old(initialDataLoaded), data, old(sm.mapViewState)) && |old(sm.h3Data)| > 0) ==>
        sm.mapViewState == old(sm.mapViewState) && sm.dispatched == old(sm.dispatched) && fits == old(fits)
      ensures sm.h3Data == old(sm.h3Data) && sm.filters == old(sm.filters) && sm.appConfig == old(sm.appConfig)
      ensures sm.currentResolution == old(sm.currentResolution)
      ensures sm.listeners == old(sm.listeners) && sm.nextHandle == old(sm.nextHandle)
    {
      if leaflet.None? {
        return;
      }
      layer := map[];
      domain := None;
      FirstLoadFit(data);
      DrawLayer(data);
    }

    /** The fit on the first non-empty data, taken only while the view has no bounds. */
    method FirstLoadFit(data: H3Data)
      requires sm.Valid() && leaflet.Some?
      modifies this`fits, this`initialDataLoaded, sm
      ensures sm.Valid()
      ensures initialDataLoaded == (old(initialDataLoaded) || TakesFirstFit(old(initialDataLoaded), data, old(sm.mapViewState)))
      ensures TakesFirstFit(old(initialDataLoaded), data, old(sm.mapViewState)) && |old(sm.h3Data)| > 0 ==>
        && |fits| == |old(fits)| + 1 && fits[..|old(fits)|] == old(fits)
        && BoxOfData(fits[|old(fits)|], old(sm.h3Data), grid)
        && sm.mapViewState == ClearForceFit(old(sm.mapViewState))
        && sm.dispatched == old(sm.dispatched) + [Dispatch(MapViewUpdated, ViewPayload(sm.mapViewState), Recipients(sm.listeners, MapViewUpdated))]
      ensures !(TakesFirstFit(old(initialDataLoaded), data, old(sm.mapViewState)) && |old(sm.h3Data)| > 0) ==>
        sm.mapViewState == old(sm.mapViewState) && sm.dispatched == old(sm.dispatched) && fits == old(fits)
      ensures sm.h3Data == old(sm.h3Data) && sm.filters == old(sm.filters) && sm.appConfig == old(sm.appConfig)
      ensures sm.currentResolution == old(sm.currentResolution)
      ensures sm.listeners == old(sm.listeners) && sm.nextHandle == old(sm.nextHandle)
    {
      if !initialDataLoaded && |data| > 0 && sm.mapViewState.bounds.None? {
        FitToHexagons();
        initialDataLoaded := true;
      }
    }

    /** The two drawing passes, on the store's current filters. */
    method DrawLayer(data: H3Data)
      requires leaflet.Some? && layer == map[] && domain.None?
      modifies this`layer, this`domain
      ensures Rendered(layer, domain, data, grid, leaflet.value.bounds, sm.filters)
    {
      var f := sm.filters;
      var bounds := leaflet.value.bounds;
      var values, cells := CollectDomainValues(data, grid, f.kpi, bounds);
      if |values| == 0 {
        assert forall k :: !InDomain(data, grid, bounds, k);
        return;
      }
      ghost var seen := cells[0];
      assert InDomain(data, grid, bounds, seen);
      domain := Some(ScaleDomain(values));
      layer := DrawCells(data, grid, f);
      ScaleDomainFits(values, cells, data, grid, bounds, f.kpi);
      assert InDomain(data, grid, leaflet.value.bounds, seen);
    }

    /** The `h3-data-updated` handler: renders the data the event carries. */
    method OnH3DataUpdated(data: H3Data)
      requires Valid()
      modifies this`layer, this`domain, this`fits, this`initialDataLoaded, sm
      ensures Valid()
      ensures leaflet.None? ==>
        && layer == old(layer) && domain == old(domain) && initialDataLoaded == old(initialDataLoaded)
      ensures leaflet.Some? ==>
        && initialDataLoaded == (old(initialDataLoaded) || TakesFirstFit(old(initialDataLoaded), data, old(sm.mapViewState)))
        && Rendered(layer, domain, data, grid, leaflet.value.bounds, sm.filters)
      ensures leaflet.Some? && TakesFirstFit(old(initialDataLoaded), data, old(sm.mapViewState)) && |old(sm.h3Data)| > 0 ==>
        && |fits| == |old(fits)| + 1 && fits[..|old(fits)|] == old(fits)
        && BoxOfData(fits[|old(fits)|], old(sm.h3Data), grid)
        && sm.mapViewState == ClearForceFit(old(sm.mapViewState))
        && sm.dispatched == old(sm.dispatched) + [Dispatch(MapViewUpdated, ViewPayload(sm.mapViewState), Recipients(sm.listeners, MapViewUpdated))]
      ensures !(leaflet.Some? && TakesFirstFit(old(initialDataLoaded), data, old(sm.mapViewState)) && |old(sm.h3Data)| > 0) ==>
        sm.mapViewState == old(sm.mapViewState) && sm.dispatched == old(sm.dispatched) && fits == old(fits)
      ensures sm.h3Data == old(sm.h3Data) && sm.filters == old(sm.filters) && sm.appConfig == old(sm.appConfig)
      ensures sm.currentResolution == old(sm.currentResolution)
      ensures sm.listeners == old(sm.listeners) && sm.nextHandle == old(sm.nextHandle)
    {
      RenderHexagons(data);
    }

    /** The `map-view-updated` handler: a view state with `forceFit` set triggers a fit. */
    method OnMapViewUpdated(s: MapViewState)
      requires Valid()
      modifies this`fits, sm
      ensures Valid()
      ensures s.forceFit == Some(true) && leaflet.Some? && |old(sm.h3Data)| > 0 ==>
        && |fits| == |old(fits)| + 1 && fits[..|old(fits)|] == old(fits)
        && BoxOfData(fits[|old(fits)|], old(sm.h3Data), grid)
        && sm.mapViewState == ClearForceFit(old(sm.mapViewState))
        && sm.dispatched == old(sm.dispatched) + [Dispatch(MapViewUpdated, ViewPayload(sm.mapViewState), Recipients(sm.listeners, MapViewUpdated))]
      ensures !(s.forceFit == Some(true) && leaflet.Some? && |old(sm.h3Data)| > 0) ==>
        sm.mapViewState == old(sm.mapViewState) && sm.dispatched == old(sm.dispatched) && fits == old(fits)
      ensures sm.h3Data == old(sm.h3Data) && sm.filters == old(sm.filters) && sm.appConfig == old(sm.appConfig)
      ensures sm.currentResolution == old(sm.currentResolution)
      ensures sm.listeners == old(sm.listeners) && sm.nextHandle == old(sm.nextHandle)
    {
      if s.forceFit == Some(true) {
        FitToHexagons();
      }
    }

    /** The `filters-updated` handler: re-renders the store's current data. */
    method OnFiltersUpdated()
      requires Valid()
      modifies this`layer, this`domain, this`fits, this`initialDataLoaded, sm
      ensures Valid()
      ensures leaflet.None? ==>
        && layer == old(layer) && domain == old(domain) && initialDataLoaded == old(initialDataLoaded)
      ensures leaflet.Some? ==>
        && initialDataLoaded == (old(initialDataLoaded) || TakesFirstFit(old(initialDataLoaded), sm.h3Data, old(sm.mapViewState)))
        && Rendered(layer, domain, sm.h3Data, grid, leaflet.value.bounds, sm.filters)
      ensures leaflet.Some? && TakesFirstFit(old(initialDataLoaded), sm.h3Data, old(sm.mapViewState)) ==>
        && |fits| == |old(fits)| + 1 && fits[..|old(fits)|] == old(fits)
        && BoxOfData(fits[|old(fits)|], sm.h3Data, grid)
        && sm.mapViewState == ClearForceFit(old(sm.mapViewState))
        && sm.dispatched == old(sm.dispatched) + [Dispatch(MapViewUpdated, ViewPayload(sm.mapViewState), Recipients(sm.listeners, MapViewUpdated))]
      ensures !(leaflet.Some? && TakesFirstFit(old(initialDataLoaded), sm.h3Data, old(sm.mapViewState))) ==>
        sm.mapViewState == old(sm.mapViewState) && sm.dispatched == old(sm.dispatched) && fits == old(fits)
      ensures sm.h3Data == old(sm.h3Data) && sm.filters == old(sm.filters) && sm.appConfig == old(sm.appConfig)
      ensures sm.currentResolution == old(sm.currentResolution)
      ensures sm.listeners == old(sm.listeners) && sm.nextHandle == old(sm.nextHandle)
    {
      RenderHexagons(sm.h3Data);
    }

    /**
     * Cancels the pending timer and calls every stored unsubscribe function:
     * afterwards none of this manager's handlers is registered, and every
     * other handler still is.
     */
    method Destroy()
      requires Valid()
      modifies this`timers, sm
      ensures Valid()
      ensures timers == []
      ensures forall i :: 0 <= i < |unsubscribes| ==> !HasHandle(sm.listeners, unsubscribes[i])
      ensures forall l :: l in sm.listeners <==> l in old(sm.listeners) && l.handle !in unsubscribes
      ensures sm.GetState() == old(sm.GetState()) && sm.dispatched == old(sm.dispatched)
    {
      if mapUpdateTimer.Some? {
        timers := ClearTimeout(timers, mapUpdateTimer.value);
      }
      UnsubscribeAll(sm, unsubscribes);
    }
  }

  /**
   * A burst of map movements settles into one store update: three
   * move events 100 ms apart leave one pending timer, nothing is written
   * before it is due, and when it fires the store dispatches exactly one
   * `map-view-updated`, carrying the last viewport. What the handlers that
   * event reaches do in turn is a further call (see `PanWithPendingFit`).
   */
  method DebouncedBurst(mm: MapManager, v1: MapView, v2: MapView, v3: MapView) returns (ghost at699: nat)
    requires mm.Valid() && mm.leaflet.Some?
    modifies mm, mm.sm
    ensures mm.timers == []
    ensures at699 == |old(mm.sm.dispatched)|
    ensures |mm.sm.dispatched| == |old(mm.sm.dispatched)| + 1
    ensures mm.sm.dispatched[|mm.sm.dispatched| - 1].eventType == MapViewUpdated
    ensures mm.sm.dispatched[|mm.sm.dispatched| - 1].detail ==
      ViewPayload(MapViewState(v3.center, v3.zoom, Some(v3.bounds), old(mm.sm.mapViewState).forceFit))
    ensures mm.sm.mapViewState == MapViewState(v3.center, v3.zoom, Some(v3.bounds), old(mm.sm.mapViewState).forceFit)
  {
    mm.ViewportChanged(v1);
    mm.HandleMapChange(0);
    mm.ViewportChanged(v2);
    mm.HandleMapChange(100);
    mm.ViewportChanged(v3);
    mm.HandleMapChange(200);
    mm.TimerElapsed(699);
    at699 := |mm.sm.dispatched|;
    mm.TimerElapsed(700);
    mm.TimerElapsed(5000);
  }

  /**
   * A fit requested while there was no data stays pending in the store
   * (`forceFit` is true). The next pan writes the view through the merge,
   * which keeps `forceFit`; the store hands that write synchronously to the
   * manager's own `map-view-updated` handler (registered under its second
   * handle), which fits the map to the data and clears the flag: the pan ends with the map fitted to the data and
   * two `map-view-updated` events.
   */
  method PanWithPendingFit(mm: MapManager, v: MapView, now: nat)
    requires mm.Valid() && mm.leaflet.Some?
    requires mm.sm.mapViewState.forceFit == Some(true) && |mm.sm.h3Data| > 0
    requires |mm.unsubscribes| == 3 && Listener(mm.unsubscribes[1], MapViewUpdated) in mm.sm.listeners
    modifies mm, mm.sm
    ensures mm.timers == []
    ensures mm.sm.mapViewState == MapViewState(v.center, v.zoom, Some(v.bounds), Some(false))
    ensures |mm.sm.dispatched| == |old(mm.sm.dispatched)| + 2
    ensures old(mm.unsubscribes[1]) in mm.sm.dispatched[|old(mm.sm.dispatched)|].recipients
    ensures mm.sm.dispatched[|old(mm.sm.dispatched)|].detail == ViewPayload(MapViewState(v.center, v.zoom, Some(v.bounds), Some(true)))
    ensures |mm.fits| == |old(mm.fits)| + 1 && BoxOfData(mm.fits[|old(mm.fits)|], mm.sm.h3Data, mm.grid)
  {
    mm.ViewportChanged(v);
    mm.HandleMapChange(now);
    mm.TimerElapsed(now + MapUpdateDebounce);
    mm.OnMapViewUpdated(mm.sm.mapViewState);
  }
}
