/**
 * The event-based state store of the plain (non-Angular) front end: one
 * `StateManager` holding the application state, whose update methods merge or
 * replace a part of it and dispatch one typed event to the handlers
 * registered for that type, and the store wrappers (`mapViewState`,
 * `h3Data`, `currentResolution`, `filters`, `appConfig`) built on it.
 *
 * Handlers are foreign callbacks: a handler is represented by the handle the
 * store gave it, and dispatching an event records the event together with
 * the handles that receive it.
 */
module Stores {
  import opened Wrappers
  import opened Types

  /** The detail an event carries. */
  datatype Payload =
    | ViewPayload(view: MapViewState)
    | DataPayload(data: H3Data)
    | FiltersPayload(filters: Filters)
    | ResolutionPayload(resolution: int)

  /** A registered handler: its handle and the event type it listens to. */
  datatype Listener = Listener(handle: nat, eventType: StateEventType)

  /** One dispatched event and the handlers it reached, in registration order. */
  datatype Dispatch = Dispatch(eventType: StateEventType, detail: Payload, recipients: seq<nat>)

  predicate HasHandle(ls: seq<Listener>, h: nat) {
    exists i :: 0 <= i < |ls| && ls[i].handle == h
  }

  predicate DistinctHandles(ls: seq<Listener>) {
    forall i, j :: 0 <= i < j < |ls| ==> ls[i].handle != ls[j].handle
  }

  /** The handles of the listeners for `t`, in registration order. */
  function Recipients(ls: seq<Listener>, t: StateEventType): (r: seq<nat>)
    ensures forall i :: 0 <= i < |r| ==> Listener(r[i], t) in ls
    ensures forall l :: l in ls && l.eventType == t ==> l.handle in r
    decreases |ls|
  {
    if |ls| == 0 then []
    else
      var last := ls[|ls| - 1];
      Recipients(ls[..|ls| - 1], t) + (if last.eventType == t then [last.handle] else [])
  }

  /** `removeEventListener`: drops the listener with handle `h`, keeping the order of the others. */
  function RemoveHandle(ls: seq<Listener>, h: nat): (r: seq<Listener>)
    ensures forall l :: l in r <==> l in ls && l.handle != h
    ensures |r| <= |ls|
    decreases |ls|
  {
    if |ls| == 0 then []
    else
      var last := ls[|ls| - 1];
      RemoveHandle(ls[..|ls| - 1], h) + (if last.handle == h then [] else [last])
  }

  /** Removing a handle nobody holds changes nothing. */
  lemma {:induction false} RemoveAbsentHandle(ls: seq<Listener>, h: nat)
    requires !HasHandle(ls, h)
    ensures RemoveHandle(ls, h) == ls
    decreases |ls|
  {
    if |ls| > 0 {
      var init := ls[..|ls| - 1];
      assert forall i :: 0 <= i < |init| ==> init[i] == ls[i];
      RemoveAbsentHandle(init, h);
      assert ls[|ls| - 1].handle != h;
      assert init + [ls[|ls| - 1]] == ls;
    }
  }

  /**
   * The unsubscribe function returned by `subscribe` undoes it: registering
   * a fresh handle and then removing it restores the listeners.
   */
  lemma SubscribeThenUnsubscribe(ls: seq<Listener>, h: nat, t: StateEventType)
    requires !HasHandle(ls, h)
    ensures RemoveHandle(ls + [Listener(h, t)], h) == ls
  {
    assert (ls + [Listener(h, t)])[..|ls|] == ls;
    RemoveAbsentHandle(ls, h);
  }

  /** Removing a handle keeps the remaining handles distinct. */
  lemma {:induction false} RemoveHandleDistinct(ls: seq<Listener>, h: nat)
    requires DistinctHandles(ls)
    ensures DistinctHandles(RemoveHandle(ls, h))
    decreases |ls|
  {
    if |ls| > 0 {
      var init := ls[..|ls| - 1];
      var last := ls[|ls| - 1];
      RemoveHandleDistinct(init, h);
      var r := RemoveHandle(init, h);
      forall i | 0 <= i < |r|
        ensures r[i].handle != last.handle
      {
        assert r[i] in init;
        var j :| 0 <= j < |init| && init[j] == r[i];
        assert ls[j] == r[i];
      }
    }
  }

  /** Removing a handle never brings back a handle that was absent. */
  lemma RemoveKeepsAbsent(ls: seq<Listener>, h: nat, u: nat)
    requires !HasHandle(ls, u)
    ensures !HasHandle(RemoveHandle(ls, h), u)
  {
    var r := RemoveHandle(ls, h);
    forall k | 0 <= k < |r|
      ensures r[k].handle != u
    {
      assert r[k] in ls;
    }
  }

  class StateManager {
    var mapViewState: MapViewState
    var h3Data: H3Data
    var currentResolution: int
    var filters: Filters
    var appConfig: AppConfig
    /** The registered handlers. */
    var listeners: seq<Listener>
    /** The handle the next `subscribe` hands out. */
    var nextHandle: nat
    /** Every event dispatched so far, oldest first. */
    var dispatched: seq<Dispatch>

    ghost predicate Valid()
      reads this
    {
      && DistinctHandles(listeners)
      && forall i :: 0 <= i < |listeners| ==> listeners[i].handle < nextHandle
    }

    /** The default state: zoom 10, resolution 8, filters `{speed, sum}`, no data, no bounds, no `forceFit`. */
    constructor ()
      ensures Valid()
      ensures mapViewState == MapViewState(LatLng(40.7128, -74.006), 10.0, None, None)
      ensures h3Data == map[] && currentResolution == 8
      ensures filters == Filters("speed", Sum)
      ensures appConfig == AppConfig(LatLng(40.7128, -74.006), 10.0)
      ensures listeners == [] && dispatched == []
    {
      mapViewState := InitialMapView;
      h3Data := map[];
      currentResolution := DefaultResolution;
      filters := DefaultFilters;
      appConfig := DefaultAppConfig;
      listeners := [];
      nextHandle := 0;
      dispatched := [];
    }

    function GetState(): AppState
      reads this
    {
      AppState(mapViewState, h3Data, currentResolution, filters, appConfig)
    }

    /** Dispatches one event to the handlers currently registered for its type. */
    method Emit(t: StateEventType, detail: Payload)
      modifies this
      ensures dispatched == old(dispatched) + [Dispatch(t, detail, Recipients(listeners, t))]
      ensures GetState() == old(GetState())
      ensures listeners == old(listeners) && nextHandle == old(nextHandle)
    {
      dispatched := dispatched + [Dispatch(t, detail, Recipients(listeners, t))];
    }

    /** Merges the partial and emits one `map-view-updated` carrying the merged state. */
    method UpdateMapViewState(p: PartialMapViewState)
      requires Valid()
      modifies this
      ensures Valid()
      ensures mapViewState == MergeMapView(old(mapViewState), p)
      ensures h3Data == old(h3Data) && currentResolution == old(currentResolution)
      ensures filters == old(filters) && appConfig == old(appConfig)
      ensures dispatched == old(dispatched) + [Dispatch(MapViewUpdated, ViewPayload(mapViewState), Recipients(listeners, MapViewUpdated))]
      ensures listeners == old(listeners) && nextHandle == old(nextHandle)
    {
      mapViewState := MergeMapView(mapViewState, p);
      Emit(MapViewUpdated, ViewPayload(mapViewState));
    }

    /** Replaces the data wholesale (no merge) and emits one `h3-data-updated`. */
    method UpdateH3Data(data: H3Data)
      requires Valid()
      modifies this
      ensures Valid()
      ensures h3Data == data
      ensures mapViewState == old(mapViewState) && currentResolution == old(currentResolution)
      ensures filters == old(filters) && appConfig == old(appConfig)
      ensures dispatched == old(dispatched) + [Dispatch(H3DataUpdated, DataPayload(data), Recipients(listeners, H3DataUpdated))]
      ensures listeners == old(listeners) && nextHandle == old(nextHandle)
    {
      h3Data := data;
      Emit(H3DataUpdated, DataPayload(data));
    }

    /** Merges the partial and emits one `filters-updated` carrying the merged filters. */
    method UpdateFilters(p: PartialFilters)
      requires Valid()
      modifies this
      ensures Valid()
      ensures filters == MergeFilters(old(filters), p)
      ensures mapViewState == old(mapViewState) && h3Data == old(h3Data)
      ensures currentResolution == old(currentResolution) && appConfig == old(appConfig)
      ensures dispatched == old(dispatched) + [Dispatch(FiltersUpdated, FiltersPayload(filters), Recipients(listeners, FiltersUpdated))]
      ensures listeners == old(listeners) && nextHandle == old(nextHandle)
    {
      filters := MergeFilters(filters, p);
      Emit(FiltersUpdated, FiltersPayload(filters));
    }

    /** Sets the resolution and emits one `resolution-updated`. */
    method UpdateCurrentResolution(resolution: int)
      requires Valid()
      modifies this
      ensures Valid()
      ensures currentResolution == resolution
      ensures mapViewState == old(mapViewState) && h3Data == old(h3Data)
      ensures filters == old(filters) && appConfig == old(appConfig)
      ensures dispatched == old(dispatched) + [Dispatch(ResolutionUpdated, ResolutionPayload(resolution), Recipients(listeners, ResolutionUpdated))]
      ensures listeners == old(listeners) && nextHandle == old(nextHandle)
    {
      currentResolution := resolution;
      Emit(ResolutionUpdated, ResolutionPayload(resolution));
    }

    /** Merges the partial configuration; no event is emitted. */
    method UpdateAppConfig(p: PartialAppConfig)
      requires Valid()
      modifies this
      ensures Valid()
      ensures appConfig == MergeAppConfig(old(appConfig), p)
      ensures mapViewState == old(mapViewState) && h3Data == old(h3Data)
      ensures currentResolution == old(currentResolution) && filters == old(filters)
      ensures dispatched == old(dispatched)
      ensures listeners == old(listeners) && nextHandle == old(nextHandle)
    {
      appConfig := MergeAppConfig(appConfig, p);
    }

    /** Registers a fresh handler for `t`; its handle is the unsubscribe function. */
    method Subscribe(t: StateEventType) returns (h: nat)
      requires Valid()
      modifies this
      ensures Valid()
      ensures !HasHandle(old(listeners), h)
      ensures listeners == old(listeners) + [Listener(h, t)]
      ensures GetState() == old(GetState()) && dispatched == old(dispatched)
    {
      h := nextHandle;
      listeners := listeners + [Listener(h, t)];
      nextHandle := nextHandle + 1;
    }

    /** Calls the unsubscribe function of handle `h`: that handler receives nothing more. */
    method Unsubscribe(h: nat)
      requires Valid()
      modifies this
      ensures Valid()
      ensures listeners == RemoveHandle(old(listeners), h)
      ensures !HasHandle(listeners, h)
      ensures nextHandle == old(nextHandle)
      ensures GetState() == old(GetState()) && dispatched == old(dispatched)
    {
      RemoveHandleDistinct(listeners, h);
      listeners := RemoveHandle(listeners, h);
    }
  }

  /** `mapViewState.set`: goes through the merge, so keys absent from `value` keep their old values. */
  method MapViewStateSet(sm: StateManager, value: MapViewState)
    requires sm.Valid()
    modifies sm
    ensures sm.Valid()
    ensures sm.mapViewState == MergeMapView(old(sm.mapViewState), AsPartial(value))
    ensures value.forceFit.None? ==> sm.mapViewState.forceFit == old(sm.mapViewState.forceFit)
    ensures sm.h3Data == old(sm.h3Data) && sm.filters == old(sm.filters)
    ensures sm.currentResolution == old(sm.currentResolution) && sm.appConfig == old(sm.appConfig)
    ensures sm.dispatched == old(sm.dispatched) + [Dispatch(MapViewUpdated, ViewPayload(sm.mapViewState), Recipients(sm.listeners, MapViewUpdated))]
    ensures sm.listeners == old(sm.listeners) && sm.nextHandle == old(sm.nextHandle)
  {
    sm.UpdateMapViewState(AsPartial(value));
  }

  /** `mapViewState.update`: applies `updater` to the current state and merges the result. */
  method MapViewStateUpdate(sm: StateManager, updater: MapViewState -> MapViewState)
    requires sm.Valid()
    modifies sm
    ensures sm.Valid()
    ensures sm.mapViewState == MergeMapView(old(sm.mapViewState), AsPartial(updater(old(sm.mapViewState))))
    ensures sm.h3Data == old(sm.h3Data) && sm.filters == old(sm.filters)
    ensures sm.currentResolution == old(sm.currentResolution) && sm.appConfig == old(sm.appConfig)
    ensures sm.dispatched == old(sm.dispatched) + [Dispatch(MapViewUpdated, ViewPayload(sm.mapViewState), Recipients(sm.listeners, MapViewUpdated))]
    ensures sm.listeners == old(sm.listeners) && sm.nextHandle == old(sm.nextHandle)
  {
    var current := sm.mapViewState;
    var updated := updater(current);
    sm.UpdateMapViewState(AsPartial(updated));
  }

  /**
   * `mapViewState.subscribe`: the callback is first handed the current state
   * (`initial`), read before the handler is registered; `h` is the handle of
   * the registered handler.
   */
  method MapViewStateSubscribe(sm: StateManager) returns (initial: MapViewState, h: nat)
    requires sm.Valid()
    modifies sm
    ensures sm.Valid()
    ensures initial == old(sm.mapViewState)
    ensures !HasHandle(old(sm.listeners), h)
    ensures sm.listeners == old(sm.listeners) + [Listener(h, MapViewUpdated)]
    ensures sm.GetState() == old(sm.GetState()) && sm.dispatched == old(sm.dispatched)
  {
    initial := sm.mapViewState;
    h := sm.Subscribe(MapViewUpdated);
  }

  /** `h3Data.set`: replaces the data. */
  method H3DataSet(sm: StateManager, value: H3Data)
    requires sm.Valid()
    modifies sm
    ensures sm.Valid()
    ensures sm.h3Data == value
    ensures sm.mapViewState == old(sm.mapViewState) && sm.filters == old(sm.filters)
    ensures sm.currentResolution == old(sm.currentResolution) && sm.appConfig == old(sm.appConfig)
    ensures sm.dispatched == old(sm.dispatched) + [Dispatch(H3DataUpdated, DataPayload(value), Recipients(sm.listeners, H3DataUpdated))]
    ensures sm.listeners == old(sm.listeners) && sm.nextHandle == old(sm.nextHandle)
  {
    sm.UpdateH3Data(value);
  }

  /** `h3Data.subscribe`: immediate callback with the current data, then registration. */
  method H3DataSubscribe(sm: StateManager) returns (initial: H3Data, h: nat)
    requires sm.Valid()
    modifies sm
    ensures sm.Valid()
    ensures initial == old(sm.h3Data)
    ensures !HasHandle(old(sm.listeners), h)
    ensures sm.listeners == old(sm.listeners) + [Listener(h, H3DataUpdated)]
    ensures sm.GetState() == old(sm.GetState()) && sm.dispatched == old(sm.dispatched)
  {
    initial := sm.h3Data;
    h := sm.Subscribe(H3DataUpdated);
  }

  /** `currentResolution.set`. */
  method CurrentResolutionSet(sm: StateManager, value: int)
    requires sm.Valid()
    modifies sm
    ensures sm.Valid()
    ensures sm.currentResolution == value
    ensures sm.mapViewState == old(sm.mapViewState) && sm.h3Data == old(sm.h3Data)
    ensures sm.filters == old(sm.filters) && sm.appConfig == old(sm.appConfig)
    ensures sm.dispatched == old(sm.dispatched) + [Dispatch(ResolutionUpdated, ResolutionPayload(value), Recipients(sm.listeners, ResolutionUpdated))]
    ensures sm.listeners == old(sm.listeners) && sm.nextHandle == old(sm.nextHandle)
  {
    sm.UpdateCurrentResolution(value);
  }

  /** `currentResolution.subscribe`. */
  method CurrentResolutionSubscribe(sm: StateManager) returns (initial: int, h: nat)
    requires sm.Valid()
    modifies sm
    ensures sm.Valid()
    ensures initial == old(sm.currentResolution)
    ensures !HasHandle(old(sm.listeners), h)
    ensures sm.listeners == old(sm.listeners) + [Listener(h, ResolutionUpdated)]
    ensures sm.GetState() == old(sm.GetState()) && sm.dispatched == old(sm.dispatched)
  {
    initial := sm.currentResolution;
    h := sm.Subscribe(ResolutionUpdated);
  }

  /** `filters.set`: a whole filters record merged over the current one replaces it. */
  method FiltersSet(sm: StateManager, value: Filters)
    requires sm.Valid()
    modifies sm
    ensures sm.Valid()
    ensures sm.filters == value
    ensures sm.mapViewState == old(sm.mapViewState) && sm.h3Data == old(sm.h3Data)
    ensures sm.currentResolution == old(sm.currentResolution) && sm.appConfig == old(sm.appConfig)
    ensures sm.dispatched == old(sm.dispatched) + [Dispatch(FiltersUpdated, FiltersPayload(value), Recipients(sm.listeners, FiltersUpdated))]
    ensures sm.listeners == old(sm.listeners) && sm.nextHandle == old(sm.nextHandle)
  {
    MergeWholeFilters(sm.filters, value);
    sm.UpdateFilters(FiltersAsPartial(value));
  }

  /** `filters.update`: applies `updater` to the current filters and merges the result. */
  method FiltersUpdate(sm: StateManager, updater: Filters -> Filters)
    requires sm.Valid()
    modifies sm
    ensures sm.Valid()
    ensures sm.filters == updater(old(sm.filters))
    ensures sm.mapViewState == old(sm.mapViewState) && sm.h3Data == old(sm.h3Data)
    ensures sm.currentResolution == old(sm.currentResolution) && sm.appConfig == old(sm.appConfig)
    ensures sm.dispatched == old(sm.dispatched) + [Dispatch(FiltersUpdated, FiltersPayload(sm.filters), Recipients(sm.listeners, FiltersUpdated))]
    ensures sm.listeners == old(sm.listeners) && sm.nextHandle == old(sm.nextHandle)
  {
    var current := sm.filters;
    var updated := updater(current);
    MergeWholeFilters(current, updated);
    sm.UpdateFilters(FiltersAsPartial(updated));
  }

  /** `filters.subscribe`. */
  method FiltersSubscribe(sm: StateManager) returns (initial: Filters, h: nat)
    requires sm.Valid()
    modifies sm
    ensures sm.Valid()
    ensures initial == old(sm.filters)
    ensures !HasHandle(old(sm.listeners), h)
    ensures sm.listeners == old(sm.listeners) + [Listener(h, FiltersUpdated)]
    ensures sm.GetState() == old(sm.GetState()) && sm.dispatched == old(sm.dispatched)
  {
    initial := sm.filters;
    h := sm.Subscribe(FiltersUpdated);
  }

  /** `appConfig.set`: merges, emits nothing. */
  method AppConfigSet(sm: StateManager, value: AppConfig)
    requires sm.Valid()
    modifies sm
    ensures sm.Valid()
    ensures sm.appConfig == value
    ensures sm.mapViewState == old(sm.mapViewState) && sm.h3Data == old(sm.h3Data)
    ensures sm.currentResolution == old(sm.currentResolution) && sm.filters == old(sm.filters)
    ensures sm.dispatched == old(sm.dispatched)
    ensures sm.listeners == old(sm.listeners) && sm.nextHandle == old(sm.nextHandle)
  {
    sm.UpdateAppConfig(AppConfigAsPartial(value));
  }

  /**
   * `appConfig.subscribe`: hands the callback the current configuration and
   * registers nothing; its unsubscribe function does nothing.
   */
  method AppConfigSubscribe(sm: StateManager) returns (initial: AppConfig)
    ensures initial == sm.appConfig
  {
    initial := sm.appConfig;
  }

  /**
   * Calls the unsubscribe function of every handle in `hs`, in order:
   * afterwards none of them is registered, every other handler still is,
   * and no handler was added.
   */
  method UnsubscribeAll(sm: StateManager, hs: seq<nat>)
    requires sm.Valid()
    modifies sm
    ensures sm.Valid()
    ensures forall i :: 0 <= i < |hs| ==> !HasHandle(sm.listeners, hs[i])
    ensures forall l :: l in sm.listeners <==> l in old(sm.listeners) && l.handle !in hs
    ensures sm.GetState() == old(sm.GetState()) && sm.dispatched == old(sm.dispatched)
  {
    ghost var start := sm.listeners;
    var i := 0;
    while i < |hs|
      invariant 0 <= i <= |hs|
      invariant sm.Valid()
      invariant forall j :: 0 <= j < i ==> !HasHandle(sm.listeners, hs[j])
      invariant forall l :: l in sm.listeners <==> l in start && l.handle !in hs[..i]
      invariant sm.GetState() == old(sm.GetState()) && sm.dispatched == old(sm.dispatched)
    {
      ghost var before := sm.listeners;
      sm.Unsubscribe(hs[i]);
      forall j | 0 <= j < i
        ensures !HasHandle(sm.listeners, hs[j])
      {
        RemoveKeepsAbsent(before, hs[i], hs[j]);
      }
      assert hs[..i + 1] == hs[..i] + [hs[i]];
      forall l
        ensures l in sm.listeners <==> l in start && l.handle !in hs[..i + 1]
      {
        assert l in sm.listeners <==> l in before && l.handle != hs[i];
      }
      i := i + 1;
    }
    assert hs[..i] == hs;
  }
}
