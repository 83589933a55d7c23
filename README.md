# Hexagon map: state stores, map controllers and selection widgets

This project models the core of a web map that colours hexagonal grid cells by
vehicle telemetry. It covers three parts, and proves properties about each of them.

- **The two state stores.**
  - The Angular `StateService` is a set of signals holding:
    - the map view,
    - the per-cell telemetry (`h3Data`),
    - the resolution,
    - the filters,
    - the configuration.
  - The plain `StateManager` store holds the same state and dispatches one typed event per update to its registered handlers. Its `mapViewState`, `h3Data`, `currentResolution`, `filters` and `appConfig` wrappers are built on it.
- **The two map controllers.**
  - The Angular `MapService` and the plain `MapManager` share one logic:
    - they debounce map movements into view-state writes with a 500 ms cancel-and-replace timer;
    - they render the hexagon layer;
    - they build a four-stop colour domain from the visible cells;
    - they fit the map to the bounding box of all cell boundaries, once on the first load or on request (`forceFit`).
  - The shared rendering steps are in module `Render`.
  - The reduction of a cell's entries to one value (sum or average of a KPI) is in module `Kpi`.
- **Three selection widgets.**
  - The vehicle filter: toggle one, toggle all, deselect all, count the selected vehicles.
  - The title widget: toggle an option in place in two arrays.
  - The time timeline: select one of seven hour offsets.

## Behaviour worth noting

- **Resolution.** The resolution changes only through `UpdateCurrentResolution` (Angular) or `CurrentResolutionSet` (plain store). Neither controller reads the zoom to choose it, and no cell is ever merged into a coarser one.
- **Raw sums in the colour domain.** The domain is computed from raw KPI sums even in average mode, while each cell is coloured by its averaged value. `Render.AverageBelowSumDomain` exhibits the consequence.
- **Empty cells.**
  - `currentKpiData` gives an empty cell no value.
  - Rendering still draws an empty cell, with value 0.
- **`forceFit` in the Angular controller.** `forceFit` is reset only by a fit on non-empty data. The view write after a map movement replaces the whole view state, so it also drops `forceFit`.
- **`forceFit` in the plain controller.**
  - The write after a map movement goes through the store's merge, so the written state keeps a pending `forceFit`.
  - The store hands that write synchronously to the manager's own `map-view-updated` handler. With data present, the handler fits the map to the data at once, clears the flag, and emits a second `map-view-updated`.
  - A fit requested while there was no data therefore snaps the map to the data on the next pan (`PlainMap.PanWithPendingFit`).
- **A `MapManager` renders twice when it is built.** The data subscription and the filters subscription each run their callback immediately.
- **The plain controller never takes its first-load fit.** With a container, `PlainMap.MapManager.InitMap` stores bounds before any render. No store operation removes bounds (`Types.MergeKeepsBounds`). So the constructor leaves `initialDataLoaded` false, and no later render takes the first-load fit.
- **The Angular first-load fit after `ResetToDefaults`.** `ResetToDefaults` clears the bounds, but it also empties the data. So the fit comes at the first later render of non-empty data, and only if no viewport write has restored the bounds before it.
- **The timer id is never reset.** The id of the last timer (`mapUpdateTimer`) is kept after the timer fires or is cancelled.

## Model

| member | source | states |
|---|---|---|
| Types.MergeMapView | src/stores/index.ts:35-37 | the spread `{ ...current, ...partial }` on view states; its properties are the lemmas below |
| Types.MergeFilters | src/stores/index.ts:47-49 | the spread on filters; see `Types.MergeWholeFilters` |
| Types.MergeAppConfig | src/stores/index.ts:59-61 | the spread on the configuration |
| Types.MergeMapViewFrame | src/app/services/state.service.ts:59-61 | a partial view-state merge sets exactly the supplied keys to the supplied values and keeps every other key |
| Types.MergeMapViewIdempotent | src/stores/index.ts:35-37 | merging the same partial twice equals merging it once |
| Types.MergeMapViewCompose | src/stores/index.ts:35-37 | two merges in a row equal one merge of the combined partial, the second one's keys winning |
| Types.MergeWholeViewState | src/stores/index.ts:91 | writing a whole view state through the merge sets centre and zoom, but an absent `bounds` or `forceFit` keeps its previous value; the result is the written state only when both are present |
| Types.MergeKeepsBounds | src/stores/index.ts:35-37 | a merge never removes `bounds` once present |
| Types.MergeWholeFilters | src/stores/index.ts:47-49 | merging a complete filters record replaces the filters |
| Kpi.EntryKpi | src/app/services/state.service.ts:46 | an entry's KPI, 0 when it lacks the KPI |
| Kpi.KpiTotal | src/app/services/state.service.ts:45-47 | the left fold of the reduce; its properties are `KpiTotalAppend`, `KpiTotalMissing`, `KpiTotalAtLeast` and `KpiTotalAtMost` |
| Kpi.CellValue | src/app/services/state.service.ts:45-51 | in average mode with entries, value × entry count equals the KPI sum; in sum mode or for no entries, the value is the sum |
| Kpi.KpiTotalAppend | src/app/services/state.service.ts:45-47 | the KPI sum of two concatenated entry lists is the sum of their sums |
| Kpi.KpiTotalMissing | src/app/services/state.service.ts:46 | entries that lack the KPI contribute 0 |
| Kpi.KpiTotalAtLeast | src/app/services/state.service.ts:45-47 | if every entry's KPI is at least lo, the sum is at least n·lo |
| Kpi.KpiTotalAtMost | src/app/services/state.service.ts:45-47 | if every entry's KPI is at most hi, the sum is at most n·hi |
| Kpi.AverageWithinBounds | src/app/services/state.service.ts:49-51 | an average lies between the smallest and largest entry KPI |
| Kpi.AverageAtMostSum | src/app/services/state.service.ts:49-51 | with non-negative KPIs the average is at most the sum, and strictly below it for two or more entries with a positive sum |
| Kpi.SpeedExample | src/app/services/state.service.ts:45-51 | speeds 10 and 30 give 20 in average mode and 40 in sum mode |
| AngularState.NonEmptyCellsWithinCount | src/app/services/state.service.ts:36 | the cells with entries are no more than all keys of the data |
| AngularState.StateService.constructor | src/app/services/state.service.ts:9-26 | initial view (default centre, zoom 10, no bounds, no `forceFit`), empty data, resolution 8, filters speed/sum, default configuration |
| AngularState.StateService.HexagonCount | src/app/services/state.service.ts:36 | counts every key, empty cells included, so never fewer than the cells with entries; 0 for no data |
| AngularState.StateService.GetState | src/app/services/state.service.ts:88-96 | the five state cells as one record |
| AngularState.StateService.CurrentKpiData | src/app/services/state.service.ts:38-56 | the keys are exactly the cells with at least one entry, each key maps to that cell's reduced value, and there are at most `HexagonCount()` keys |
| AngularState.StateService.UpdateMapViewState | src/app/services/state.service.ts:59-61 | the view state becomes the merge of the partial; the other state is unchanged |
| AngularState.StateService.SetMapViewState | src/app/services/state.service.ts:63-65 | the view state is replaced wholesale, so absent optional keys are absent afterwards; the other state is unchanged |
| AngularState.StateService.UpdateH3Data | src/app/services/state.service.ts:67-69 | the data is replaced; the other state is unchanged |
| AngularState.StateService.UpdateFilters | src/app/services/state.service.ts:71-73 | the filters become the merge of the partial; the other state is unchanged |
| AngularState.StateService.SetFilters | src/app/services/state.service.ts:75-77 | the filters are replaced; the other state is unchanged |
| AngularState.StateService.UpdateCurrentResolution | src/app/services/state.service.ts:79-81 | only the resolution changes, to the given value |
| AngularState.StateService.UpdateAppConfig | src/app/services/state.service.ts:83-85 | the configuration becomes the merge of the partial; the other state is unchanged |
| AngularState.StateService.ResetToDefaults | src/app/services/state.service.ts:99-111 | view from the configured centre and zoom with no bounds or `forceFit`, empty data (hexagon count 0), resolution 8, filters speed/sum, configuration unchanged |
| Stores.Recipients | src/stores/index.ts:64-67 | an event reaches exactly the registered handlers of its type |
| Stores.RemoveHandle | src/stores/index.ts:78-80 | removing a handler keeps exactly the listeners with other handles |
| Stores.RemoveAbsentHandle | src/stores/index.ts:78-80 | removing a handle nobody holds changes nothing |
| Stores.SubscribeThenUnsubscribe | src/stores/index.ts:70-82 | the unsubscribe function returned by `subscribe` restores the listeners as they were |
| Stores.RemoveHandleDistinct | src/stores/index.ts:78-80 | unsubscribing keeps the handles distinct |
| Stores.RemoveKeepsAbsent | src/stores/index.ts:78-80 | unsubscribing never re-registers a removed handle |
| Stores.StateManager.constructor | src/stores/index.ts:11-26 | default view (zoom 10, no bounds, no `forceFit`), empty data, resolution 8, filters speed/sum, no handlers, no events |
| Stores.StateManager.GetState | src/stores/index.ts:30-32 | the store's state as one record |
| Stores.StateManager.Emit | src/stores/index.ts:64-67 | one event is dispatched, to the current handlers of its type; the state is unchanged |
| Stores.StateManager.UpdateMapViewState | src/stores/index.ts:35-38 | merges the partial and dispatches exactly one `map-view-updated` carrying the merged view |
| Stores.StateManager.UpdateH3Data | src/stores/index.ts:41-44 | replaces the data (no merge) and dispatches exactly one `h3-data-updated` |
| Stores.StateManager.UpdateFilters | src/stores/index.ts:47-50 | merges the partial and dispatches exactly one `filters-updated` carrying the merged filters |
| Stores.StateManager.UpdateCurrentResolution | src/stores/index.ts:53-56 | sets the resolution and dispatches exactly one `resolution-updated` |
| Stores.StateManager.UpdateAppConfig | src/stores/index.ts:59-61 | merges the configuration and dispatches nothing |
| Stores.StateManager.Subscribe | src/stores/index.ts:70-76 | registers one handler under a handle not yet in use, after the existing ones |
| Stores.StateManager.Unsubscribe | src/stores/index.ts:78-80 | removes that handler, which then receives no event; the state is unchanged |
| Stores.MapViewStateSet | src/stores/index.ts:91 | `set` goes through the merge: an absent `forceFit` keeps its old value; one event |
| Stores.MapViewStateUpdate | src/stores/index.ts:92-96 | the updater's result on the current view is merged in; one event |
| Stores.MapViewStateSubscribe | src/stores/index.ts:97-101 | the callback gets the current view, then one handler for `map-view-updated` is registered |
| Stores.H3DataSet | src/stores/index.ts:106 | replaces the data; one event |
| Stores.H3DataSubscribe | src/stores/index.ts:107-110 | the callback gets the current data, then one handler is registered |
| Stores.CurrentResolutionSet | src/stores/index.ts:115 | sets the resolution; one event |
| Stores.CurrentResolutionSubscribe | src/stores/index.ts:116-119 | the callback gets the current resolution, then one handler is registered |
| Stores.FiltersSet | src/stores/index.ts:124 | a complete filters record replaces the filters; one event |
| Stores.FiltersUpdate | src/stores/index.ts:125-129 | the filters become the updater's result on the current filters; one event |
| Stores.FiltersSubscribe | src/stores/index.ts:130-133 | the callback gets the current filters, then one handler is registered |
| Stores.AppConfigSet | src/stores/index.ts:138 | a complete configuration replaces the configuration; no event |
| Stores.AppConfigSubscribe | src/stores/index.ts:139-142 | the callback gets the current configuration; nothing is registered |
| Stores.UnsubscribeAll | src/map/MapManager.ts:296-297 | after calling every stored unsubscribe function, a listener is registered exactly when it was before and its handle is not one of those called: other handlers stay, none is added |
| Timing.ClearTimeout | src/app/services/map.service.ts:128-130 | cancelling a timer leaves exactly the other pending timers |
| Timing.CancelAndReplaceLeavesOne | src/app/services/map.service.ts:124-135 | with at most one pending timer, cancel-and-replace leaves exactly the new timer pending |
| Render.CollectDomainValues | src/app/services/map.service.ts:177-193 | one raw KPI sum per non-empty cell whose centre is known and in view, each such cell exactly once |
| Render.SeqMin | src/app/services/map.service.ts:198 | the minimum is one of the values and below all of them |
| Render.SeqMax | src/app/services/map.service.ts:199 | the maximum is one of the values and above all of them |
| Render.DomainStops | src/app/services/map.service.ts:210-212 | four stops from min to max, the inner two at a quarter and a half of the way; non-decreasing when min ≤ max, all equal when min = max |
| Render.ScaleDomain | src/app/services/map.service.ts:198-212 | the stops are non-decreasing, start and end at values present, enclose every value, and have the inner stops at a quarter and a half of the span |
| Render.ScaleDomainFits | src/map/MapManager.ts:133-168 | the domain of the collected values fits the visible cells: its ends are the smallest and largest visible sums, and its inner stops are at a quarter and a half between them |
| Render.AverageBelowSumDomain | src/app/services/map.service.ts:184-229 | in average mode a visible cell with several entries is coloured by a value below the whole domain built from its sum |
| Render.VehicleCountBounds | src/app/services/map.service.ts:242 | the popup's distinct-vehicle count is at most the entry count and at least 1 for a non-empty cell |
| Render.LayerValues | src/app/services/map.service.ts:222-229 | a drawn cell shows the sum in sum mode and a value that multiplies back to the sum in average mode; an empty cell shows 0 and no vehicles |
| Render.VehicleIds | src/app/services/map.service.ts:242 | the set of distinct vehicle ids of a cell's entries; bounded by `Render.VehicleCountBounds` |
| Render.Layer | src/app/services/map.service.ts:215-250 | one polygon per cell whose boundary is known, with its aggregated value and vehicle count; what it shows is `Render.LayerValues` |
| Render.DrawCells | src/app/services/map.service.ts:215-250 | draws exactly the cells whose boundary is known, each with its aggregated value and vehicle count |
| Render.BoundingBox | src/app/services/map.service.ts:261-275 | every boundary vertex lies inside the box, and each edge is its start value or attained by a vertex |
| AngularMap.MapService.constructor | src/app/services/map.service.ts:24-30 | no map, empty layer, no timer, not initialized |
| AngularMap.MapService.InitMap | src/app/services/map.service.ts:70-122 | without a container or when initialized, nothing changes; otherwise the map is created at the configured view with an empty layer, that view is stored with its bounds and no `forceFit`, and the service is initialized; timers, fits, domain and the other state stay |
| AngularMap.MapService.ViewportChanged | src/app/services/map.service.ts:111-112 | a pan or zoom changes only the widget's viewport |
| AngularMap.MapService.HandleMapChange | src/app/services/map.service.ts:124-135 | with a map, exactly one timer is pending afterwards, due 500 ms later; without one, nothing changes |
| AngularMap.MapService.TimerElapsed | src/app/services/map.service.ts:132-134 | a due timer fires once and replaces the view state with the widget's view; otherwise nothing changes; layer, domain, fits and the flags stay |
| AngularMap.MapService.UpdateMapState | src/app/services/map.service.ts:137-157 | the view state is replaced by centre, zoom and bounds with no `forceFit` |
| AngularMap.MapService.FitToHexagons | src/app/services/map.service.ts:253-285 | without a map or with no data nothing changes and `forceFit` stays; otherwise one box is fitted that encloses every boundary vertex and whose edges are attained by vertices (or are the fold's start values), and `forceFit` becomes false |
| AngularMap.MapService.RenderHexagons | src/app/services/map.service.ts:159-251 | the first-load fit is taken exactly when no earlier load happened, the data is non-empty and the view has no bounds, fitting the data's box and clearing `forceFit`, and otherwise the view and fits stay; a domain exists iff some cell is visible, fitted to the visible sums; the layer is every drawable cell, or empty |
| AngularMap.MapService.FirstLoadFit | src/app/services/map.service.ts:167-171 | when no earlier load happened, the data is non-empty and the view has no bounds, the data's box is fitted, `forceFit` cleared and the flag set; otherwise the view and fits stay |
| AngularMap.MapService.DrawLayer | src/app/services/map.service.ts:173-250 | a domain exists iff some cell is visible, with ends at the smallest and largest visible sums and inner stops at a quarter and a half; then every drawable cell is drawn, otherwise nothing |
| AngularMap.MapService.OnH3DataChanged | src/app/services/map.service.ts:45-50 | when initialized with a map, the full render contract on the state's data; otherwise layer, domain, fits and view stay |
| AngularMap.MapService.OnMapViewStateChanged | src/app/services/map.service.ts:53-58 | when initialized with `forceFit` true, a map and data, fits the data's box and clears `forceFit`; otherwise the view and fits stay; layer, domain, timers and the other state always stay |
| AngularMap.MapService.OnFiltersChanged | src/app/services/map.service.ts:61-67 | when initialized with a map, the full render contract on the state's data under the current filters; otherwise layer, domain, fits and view stay |
| AngularMap.MapService.FitToData | src/app/services/map.service.ts:327-329 | sets `forceFit`, leaving the rest of the view |
| AngularMap.MapService.Destroy | src/app/services/map.service.ts:337-347 | no timer is pending and the service is no longer initialized; the widget, layer, domain, timer ids and fits stay |
| PlainMap.InitialZoom | src/map/MapManager.ts:29 | the configured zoom unless it is zero, then 10 |
| PlainMap.ClearForceFit | src/map/MapManager.ts:240-243 | the updater keeps centre, zoom and bounds, and merged back it equals the partial `{ forceFit: false }` |
| PlainMap.MapManager.constructor | src/map/MapManager.ts:17-21 | with a container: the stored view has the configured centre and zoom and the widget's bounds, the first event is a `map-view-updated` carrying exactly that view, the first-load fit is not taken, and the layer and domain are those of a render of the store's data; without one nothing is drawn or written; the store's data, filters, configuration and resolution stay; three handlers are registered, for data, view and filters, in that order |
| PlainMap.MapManager.InitMap | src/map/MapManager.ts:23-56 | creates the map at the configured centre and zoom (fallback 10) with an empty layer, stores that view with bounds keeping `forceFit`, and dispatches exactly that view's `map-view-updated`; without a container nothing changes |
| PlainMap.MapManager.SetupSubscriptions | src/map/MapManager.ts:58-78 | each callback runs on the current value before its handler is registered: afterwards the layer and domain are those of a render of the store's data, the view at most has `forceFit` cleared, events are only appended, the store's data, filters, configuration and resolution stay, and three handles are stored |
| PlainMap.MapManager.ViewportChanged | src/map/MapManager.ts:49-50 | a pan or zoom changes only the widget's viewport |
| PlainMap.MapManager.HandleMapChange | src/map/MapManager.ts:80-91 | with a map, exactly one timer is pending afterwards, due 500 ms later |
| PlainMap.MapManager.TimerElapsed | src/map/MapManager.ts:88-90 | a due timer fires once, writes the widget's view keeping `forceFit`, and dispatches one event; the rest of the store stays |
| PlainMap.MapManager.UpdateMapState | src/map/MapManager.ts:93-113 | the write goes through the merge, so a pending `forceFit` survives; one `map-view-updated` |
| PlainMap.MapManager.FitToHexagons | src/map/MapManager.ts:209-244 | with no map or no data nothing changes; otherwise one box is fitted that encloses every boundary vertex and whose edges are attained (or are the fold's start values), and `forceFit` is cleared through one update event |
| PlainMap.MapManager.RenderHexagons | src/map/MapManager.ts:115-207 | the render contract of the Angular controller, bound to the store: the first-load fit with its one `map-view-updated` exactly in the first-load case, otherwise no event |
| PlainMap.MapManager.FirstLoadFit | src/map/MapManager.ts:123-127 | when no earlier load happened, the data is non-empty and the view has no bounds, the data's box is fitted, `forceFit` cleared with one event and the flag set; otherwise nothing changes |
| PlainMap.MapManager.DrawLayer | src/map/MapManager.ts:129-206 | a domain exists iff some cell is visible, fitted to the visible sums with its inner stops; then every drawable cell is drawn, otherwise nothing |
| PlainMap.MapManager.OnH3DataUpdated | src/map/MapManager.ts:60-62 | the full render contract on the data the event carries |
| PlainMap.MapManager.OnMapViewUpdated | src/map/MapManager.ts:65-69 | when the carried view has `forceFit` true and there are a map and data, fits the data's box and clears `forceFit` with one event; otherwise nothing changes |
| PlainMap.MapManager.OnFiltersUpdated | src/map/MapManager.ts:72-75 | the full render contract on the store's current data |
| PlainMap.MapManager.Destroy | src/map/MapManager.ts:291-302 | no timer is pending; exactly the handlers registered under this manager's handles are removed, every other handler stays |
| PlainMap.DebouncedBurst | src/map/MapManager.ts:80-91 | map events at 0, 100 and 200 ms: nothing is dispatched up to 699 ms, and by the end the store has dispatched exactly one `map-view-updated`, carrying the last viewport with the old `forceFit` |
| PlainMap.PanWithPendingFit | src/map/MapManager.ts:65-69 | with `forceFit` pending, data present and the manager's view handler registered, a pan's debounced write keeps the flag and reaches that handler, which fits the data's box and clears the flag: two events and one fit |
| VehicleFilter.ToggleVehicle | src/app/components/vehicles/vehicle-filter.component.ts:50-56 | flips `selected` exactly on the vehicles with that id; length, order and other vehicles unchanged |
| VehicleFilter.SetAll | src/app/components/vehicles/vehicle-filter.component.ts:61-63 | every vehicle gets the given flag, other fields kept |
| VehicleFilter.SelectedCount | src/app/components/vehicles/vehicle-filter.component.ts:44-46 | the selected count never exceeds the list length |
| VehicleFilter.AllSelected | src/app/components/vehicles/vehicle-filter.component.ts:40-42 | `every(v => v.selected)`; tied to the count by `AllSelectedIffFullCount` |
| VehicleFilter.AllSelectedIffFullCount | src/app/components/vehicles/vehicle-filter.component.ts:40-46 | all vehicles are selected iff the selected count equals the length |
| VehicleFilter.SetAllCount | src/app/components/vehicles/vehicle-filter.component.ts:59-71 | after setting all flags the count is the length (true) or 0 (false) |
| VehicleFilter.ToggleTwice | src/app/components/vehicles/vehicle-filter.component.ts:50-55 | toggling the same id twice restores the list |
| VehicleFilter.ToggleChangesCountByOne | src/app/components/vehicles/vehicle-filter.component.ts:49-56 | with distinct ids, toggling one vehicle changes the count by exactly one in the right direction |
| VehicleFilter.InitialVehiclesShape | src/app/components/vehicles/vehicle-filter.component.ts:26-37 | ten vehicles, distinct ids, all selected |
| VehicleFilter.VehicleFilterComponent.constructor | src/app/components/vehicles/vehicle-filter.component.ts:19-37 | visible, the ten initial vehicles, nothing emitted |
| VehicleFilter.VehicleFilterComponent.AllVehiclesSelected | src/app/components/vehicles/vehicle-filter.component.ts:40-42 | true exactly when the selected count equals the number of vehicles |
| VehicleFilter.VehicleFilterComponent.SelectedVehicleCount | src/app/components/vehicles/vehicle-filter.component.ts:44-46 | at most the number of vehicles, and equal to it exactly when all are selected |
| VehicleFilter.VehicleFilterComponent.OnToggleVehicle | src/app/components/vehicles/vehicle-filter.component.ts:49-58 | the list is toggled at that id and `vehicleToggled(id)` is emitted once |
| VehicleFilter.VehicleFilterComponent.OnToggleAllVehicles | src/app/components/vehicles/vehicle-filter.component.ts:59-65 | all flags become the negation of "all selected" (count 0 if all were on, else all on), and that value is emitted |
| VehicleFilter.VehicleFilterComponent.OnDeselectAll | src/app/components/vehicles/vehicle-filter.component.ts:66-71 | every vehicle unselected, count 0, one `deselectAllClicked` |
| VehicleFilter.VehicleFilterComponent.ToggleVisibility | src/app/components/vehicles/vehicle-filter.component.ts:72-74 | negates `showVehicles` and changes nothing else |
| TitleWidget.FindFirst | src/app/components/title-widget/title-widget.component.ts:38 | the first index with that id, or none when no option has it |
| TitleWidget.ToggleOption | src/app/components/title-widget/title-widget.component.ts:38-40 | the options with the first match of the id flipped; its properties are `ToggleOptionFrame` and `ToggleOptionTwice` |
| TitleWidget.ToggleOptionFrame | src/app/components/title-widget/title-widget.component.ts:38-40 | only the first match is flipped, ids and texts are kept, and an unknown id changes nothing |
| TitleWidget.FindFirstSameIds | src/app/components/title-widget/title-widget.component.ts:38 | the search depends only on the ids |
| TitleWidget.ToggleOptionTwice | src/app/components/title-widget/title-widget.component.ts:36-44 | toggling the same id twice restores the options |
| TitleWidget.InitialOptionsShape | src/app/components/title-widget/title-widget.component.ts:24-34 | three options with distinct ids, only `vehicle-path` selected |
| TitleWidget.TitleWidgetComponent.constructor | src/app/components/title-widget/title-widget.component.ts:24-34 | the two initial option arrays, nothing emitted |
| TitleWidget.TitleWidgetComponent.OnOptionToggle | src/app/components/title-widget/title-widget.component.ts:36-44 | the arrays, read as one list, are toggled at the first match found in place; the id is emitted once if found, and nothing happens otherwise |
| TitleWidget.FirstMatch | src/app/components/title-widget/title-widget.component.ts:38 | a match with no earlier match is the one found |
| TimeTimeline.TimelineValuesIncrease | src/app/components/time-timeline/time-timeline.component.ts:24-32 | the option values strictly increase, hence are distinct |
| TimeTimeline.ExactlyOneSelected | src/app/components/time-timeline/time-timeline.component.ts:40-42 | with distinct values, selecting an option's value selects that option alone |
| TimeTimeline.InitiallyNowSelected | src/app/components/time-timeline/time-timeline.component.ts:21-28 | at time 0 exactly the `now` option is selected |
| TimeTimeline.TimeTimelineComponent.constructor | src/app/components/time-timeline/time-timeline.component.ts:18-32 | selected time 0 with only `now` selected |
| TimeTimeline.TimeTimelineComponent.IsSelected | src/app/components/time-timeline/time-timeline.component.ts:40-42 | an option shows as selected when its value is the selected time; `ExactlyOneSelected` shows only one does |
| TimeTimeline.TimeTimelineComponent.OnTimeSelect | src/app/components/time-timeline/time-timeline.component.ts:34-38 | the selected time becomes the option's value, which is emitted once; that option alone is selected afterwards |

## Left out

- **The map widget library.** Map creation, tiles, zoom controls, polygon styling and popup markup are left out. The widget's zoom is taken to be exactly the zoom it was created or moved to: its snapping and clamping of zoom levels are not modelled. The widget is its viewport (`MapView`) and the boxes passed to `fitBounds`. `fitBounds` is not taken to move the viewport within the same render.
- **Grid-index math.** `cellToLatLng` and `cellToBoundary` are two finite tables (`Grid`). A cell missing from a table is the call that throws, and its `try`/`catch` skips the cell.
- **Colour interpolation.** Only the domain stops are modelled, not the colours.
- **`loadSampleData`.** It depends on `Math.random`. `getMap` is left out too: it only returns the widget.
- **Logging.** `console` output and the quartile computation, which is only logged, are left out.
- **Reactivity.**
  - Angular effects are explicit `On…` method calls.
  - Event delivery by `EventTarget` is the dispatch log together with the handlers' bodies as methods.
  - A store write records its own dispatch. The handlers that dispatch reaches, and any events they emit in turn, are further calls (`PlainMap.PanWithPendingFit` shows one). `PlainMap.DebouncedBurst` counts only the store's own dispatch.
  - Browser timers are a pending-timer list with an explicit `now`.
- **Partial records.** A key explicitly set to `undefined` is not modelled. An absent key is `None`.
- **Numbers.** They are exact reals, with no floating point. `|| 0` is modelled only for a missing KPI, not for a stored NaN. The zoom fallback treats only 0 as falsy.
- **Iteration order.** The visiting order of `Object.entries` is not modelled. The results compared are sets and maps.
- **Widget teardown.** `map.remove()` in `destroy` is left out.
- **`GetState`.** Both stores return their state as a record; its shallow copy is not modelled.
- **Exceptions.** An exception from the widget inside `initMap` is not modelled.
