/**
 * The data side of rendering the hexagon layer, shared by both map
 * controllers: which cells feed the colour domain, the four domain stops,
 * what is drawn for each cell, and the bounding box of all cell boundaries
 * used to fit the map to the data.
 *
 * The hexagonal grid library is represented by two finite tables: a cell
 * that is missing from a table is one for which the library call throws,
 * and the controllers skip it as their try/catch blocks do.
 */
module Render {
  import opened Wrappers
  import opened Types
  import opened Kpi

  /** What the grid library answers: cell centres and cell boundary vertices. */
  datatype Grid = Grid(centers: map<CellId, LatLng>, boundaries: map<CellId, seq<LatLng>>)

  /** The live viewport of the map widget. */
  datatype MapView = MapView(center: LatLng, zoom: real, bounds: Bounds)

  /** One drawn hexagon: its outline, the value it is coloured by and its popup's vehicle count. */
  datatype Polygon = Polygon(boundary: seq<LatLng>, total: real, vehicles: nat)

  /** A latitude/longitude box. */
  datatype BBox = BBox(minLat: real, maxLat: real, minLng: real, maxLng: real)

  /** Whether a point lies in a rectangle, edges included. */
  predicate Contains(b: Bounds, p: LatLng) {
    b.south <= p.lat <= b.north && b.west <= p.lng <= b.east
  }

  /** A cell that feeds the colour domain: non-empty, with a known centre inside the viewport. */
  predicate InDomain(data: H3Data, grid: Grid, b: Bounds, k: CellId) {
    k in data && |data[k]| > 0 && k in grid.centers && Contains(b, grid.centers[k])
  }

  /**
   * The first pass of rendering: one raw KPI sum per domain cell (never the
   * average, whatever the aggregation mode). `cells` names, for each value,
   * the cell it came from; every domain cell appears exactly once.
   */
  method CollectDomainValues(data: H3Data, grid: Grid, kpi: string, b: Bounds)
    returns (values: seq<real>, ghost cells: seq<CellId>)
    ensures |cells| == |values|
    ensures forall i :: 0 <= i < |cells| ==> InDomain(data, grid, b, cells[i]) && values[i] == KpiTotal(data[cells[i]], kpi)
    ensures forall i, j :: 0 <= i < j < |cells| ==> cells[i] != cells[j]
    ensures forall k :: InDomain(data, grid, b, k) ==> k in cells
  {
    values, cells := [], [];
    var rest := data.Keys;
    while rest != {}
      invariant rest <= data.Keys
      invariant |cells| == |values|
      invariant forall i :: 0 <= i < |cells| ==> InDomain(data, grid, b, cells[i]) && cells[i] !in rest && values[i] == KpiTotal(data[cells[i]], kpi)
      invariant forall i, j :: 0 <= i < j < |cells| ==> cells[i] != cells[j]
      invariant forall k :: InDomain(data, grid, b, k) && k !in rest ==> k in cells
      decreases rest
    {
      var k :| k in rest;
      var entries := data[k];
      if |entries| > 0 && k in grid.centers {
        var center := grid.centers[k];
        if Contains(b, center) {
          values := values + [KpiTotal(entries, kpi)];
          cells := cells + [k];
        }
      }
      rest := rest - {k};
    }
  }

  /** `Math.min(...values)` on a non-empty list. */
  function SeqMin(s: seq<real>): (m: real)
    requires |s| > 0
    ensures m in s
    ensures forall i :: 0 <= i < |s| ==> m <= s[i]
    decreases |s|
  {
    if |s| == 1 then s[0]
    else
      var m' := SeqMin(s[..|s| - 1]);
      if s[|s| - 1] < m' then s[|s| - 1] else m'
  }

  /** `Math.max(...values)` on a non-empty list. */
  function SeqMax(s: seq<real>): (m: real)
    requires |s| > 0
    ensures m in s
    ensures forall i :: 0 <= i < |s| ==> s[i] <= m
    decreases |s|
  {
    if |s| == 1 then s[0]
    else
      var m' := SeqMax(s[..|s| - 1]);
      if s[|s| - 1] > m' then s[|s| - 1] else m'
  }

  /**
   * The colour-scale domain `[min, min + (max-min)/4, min + (max-min)/2, max]`:
   * it starts at `min`, ends at `max`, never decreases when `min <= max`, and
   * collapses to one value when `min == max`.
   */
  function DomainStops(lo: real, hi: real): (d: seq<real>)
    ensures |d| == 4 && d[0] == lo && d[3] == hi
    ensures d[1] == lo + (hi - lo) * 0.25 && d[2] == lo + (hi - lo) * 0.5
    ensures lo <= hi ==> forall i, j :: 0 <= i <= j < 4 ==> d[i] <= d[j]
    ensures lo == hi ==> forall i :: 0 <= i < 4 ==> d[i] == lo
  {
    [lo, lo + (hi - lo) * 0.25, lo + (hi - lo) * 0.5, hi]
  }

  /**
   * The domain built from the collected values: non-decreasing, spanning
   * exactly the smallest and the largest value, with every value inside it.
   */
  function ScaleDomain(values: seq<real>): (d: seq<real>)
    requires |values| > 0
    ensures |d| == 4
    ensures d[1] == d[0] + (d[3] - d[0]) * 0.25 && d[2] == d[0] + (d[3] - d[0]) * 0.5
    ensures forall i, j :: 0 <= i <= j < 4 ==> d[i] <= d[j]
    ensures d[0] in values && d[3] in values
    ensures forall i :: 0 <= i < |values| ==> d[0] <= values[i] <= d[3]
  {
    DomainStops(SeqMin(values), SeqMax(values))
  }

  /**
   * A colour domain that fits the visible cells: four non-decreasing stops
   * whose first and last are the smallest and the largest raw KPI sum of the
   * cells in view, and whose inner two lie a quarter and a half of the way
   * from the first to the last.
   */
  ghost predicate FitsVisibleCells(d: seq<real>, data: H3Data, grid: Grid, b: Bounds, kpi: string) {
    && |d| == 4
    && d[1] == d[0] + (d[3] - d[0]) * 0.25 && d[2] == d[0] + (d[3] - d[0]) * 0.5
    && (forall i, j :: 0 <= i <= j < 4 ==> d[i] <= d[j])
    && (forall k :: InDomain(data, grid, b, k) ==> d[0] <= KpiTotal(data[k], kpi) <= d[3])
    && (exists k :: InDomain(data, grid, b, k) && KpiTotal(data[k], kpi) == d[0])
    && (exists k :: InDomain(data, grid, b, k) && KpiTotal(data[k], kpi) == d[3])
  }

  /** The domain of the collected values fits the visible cells. */
  lemma ScaleDomainFits(values: seq<real>, cells: seq<CellId>, data: H3Data, grid: Grid, b: Bounds, kpi: string)
    requires |values| > 0 && |cells| == |values|
    requires forall i :: 0 <= i < |cells| ==> InDomain(data, grid, b, cells[i]) && values[i] == KpiTotal(data[cells[i]], kpi)
    requires forall k :: InDomain(data, grid, b, k) ==> k in cells
    ensures FitsVisibleCells(ScaleDomain(values), data, grid, b, kpi)
  {
    var d := ScaleDomain(values);
    forall k | InDomain(data, grid, b, k)
      ensures d[0] <= KpiTotal(data[k], kpi) <= d[3]
    {
      var i :| 0 <= i < |cells| && cells[i] == k;
      assert values[i] == KpiTotal(data[k], kpi);
    }
    var i0 :| 0 <= i0 < |values| && values[i0] == d[0];
    assert InDomain(data, grid, b, cells[i0]) && KpiTotal(data[cells[i0]], kpi) == d[0];
    var i3 :| 0 <= i3 < |values| && values[i3] == d[3];
    assert InDomain(data, grid, b, cells[i3]) && KpiTotal(data[cells[i3]], kpi) == d[3];
  }

  /**
   * The domain holds raw sums even in average mode: when a cell with two or
   * more entries, non-negative KPIs and a positive sum is the only visible
   * one, the value it is coloured by lies below the whole domain.
   */
  lemma AverageBelowSumDomain(entries: seq<Entry>, f: Filters)
    requires f.aggregation == Average && |entries| > 1
    requires forall i :: 0 <= i < |entries| ==> 0.0 <= EntryKpi(entries[i], f.kpi)
    requires KpiTotal(entries, f.kpi) > 0.0
    ensures CellValue(entries, f) < ScaleDomain([KpiTotal(entries, f.kpi)])[0]
  {
    AverageAtMostSum(entries, f);
  }

  /** The distinct vehicle ids of a cell's entries. */
  function VehicleIds(entries: seq<Entry>): set<string> {
    set i | 0 <= i < |entries| :: entries[i].vehicleId
  }

  /**
   * The popup's vehicle count is at most the number of entries, and at least
   * one for a non-empty cell.
   */
  lemma {:induction false} VehicleCountBounds(entries: seq<Entry>)
    ensures |VehicleIds(entries)| <= |entries|
    ensures |entries| > 0 ==> |VehicleIds(entries)| >= 1
    decreases |entries|
  {
    if |entries| > 0 {
      var init := entries[..|entries| - 1];
      var last := entries[|entries| - 1];
      VehicleCountBounds(init);
      assert VehicleIds(entries) == VehicleIds(init) + {last.vehicleId} by {
        forall v ensures v in VehicleIds(entries) <==> v in VehicleIds(init) + {last.vehicleId} {
          if v in VehicleIds(entries) {
            var i :| 0 <= i < |entries| && entries[i].vehicleId == v;
            if i < |entries| - 1 {
              assert init[i].vehicleId == v;
            }
          }
          if v in VehicleIds(init) {
            var i :| 0 <= i < |init| && init[i].vehicleId == v;
            assert entries[i].vehicleId == v;
          }
        }
      }
      assert last.vehicleId in VehicleIds(entries);
    }
  }

  /**
   * The hexagon layer after a render that found a domain: every cell whose
   * boundary is known is drawn, empty cells included, with its aggregated
   * value and its number of distinct vehicles.
   */
  function Layer(data: H3Data, grid: Grid, f: Filters): map<CellId, Polygon> {
    map k | k in data && k in grid.boundaries :: Polygon(grid.boundaries[k], CellValue(data[k], f), |VehicleIds(data[k])|)
  }

  /**
   * The hexagon layer and colour domain a render leaves for `data` seen
   * through viewport `b`: a domain exactly when some cell is visible, fitted
   * to the visible cells, and then every drawable cell drawn; otherwise an
   * empty layer.
   */
  ghost predicate Rendered(layer: map<CellId, Polygon>, domain: Option<seq<real>>, data: H3Data, grid: Grid, b: Bounds, f: Filters) {
    && (domain.Some? <==> exists k :: InDomain(data, grid, b, k))
    && (domain.Some? ==> FitsVisibleCells(domain.value, data, grid, b, f.kpi))
    && layer == (if domain.Some? then Layer(data, grid, f) else map[])
  }

  /**
   * Whether a render takes the first-load fit: no earlier load, non-empty
   * data, and a view state without bounds.
   */
  predicate TakesFirstFit(loaded: bool, data: H3Data, view: MapViewState) {
    !loaded && |data| > 0 && view.bounds.None?
  }

  /**
   * What a drawn cell shows: 0 and no vehicles for an empty cell, the raw
   * sum in sum mode, and a value that multiplies back to the sum in average
   * mode.
   */
  lemma LayerValues(data: H3Data, grid: Grid, f: Filters, k: CellId)
    requires k in Layer(data, grid, f)
    ensures |data[k]| == 0 ==> Layer(data, grid, f)[k].total == 0.0 && Layer(data, grid, f)[k].vehicles == 0
    ensures f.aggregation == Sum ==> Layer(data, grid, f)[k].total == KpiTotal(data[k], f.kpi)
    ensures f.aggregation == Average && |data[k]| > 0 ==>
      Layer(data, grid, f)[k].total * (|data[k]| as real) == KpiTotal(data[k], f.kpi)
    ensures Layer(data, grid, f)[k].vehicles <= |data[k]|
  {
    VehicleCountBounds(data[k]);
    if |data[k]| == 0 {
      assert VehicleIds(data[k]) == {};
    }
  }

  /** The second pass of rendering: draws one polygon per cell whose boundary is known. */
  method DrawCells(data: H3Data, grid: Grid, f: Filters) returns (layer: map<CellId, Polygon>)
    ensures layer == Layer(data, grid, f)
  {
    layer := map[];
    var rest := data.Keys;
    while rest != {}
      invariant rest <= data.Keys
      invariant layer.Keys == Layer(data, grid, f).Keys - rest
      invariant forall k :: k in layer ==> layer[k] == Layer(data, grid, f)[k]
      decreases rest
    {
      var k :| k in rest;
      var entries := data[k];
      if k in grid.boundaries {
        var boundary := grid.boundaries[k];
        var total := CellValue(entries, f);
        layer := layer[k := Polygon(boundary, total, |VehicleIds(entries)|)];
      }
      rest := rest - {k};
    }
  }

  /** A boundary vertex of some cell of the data whose boundary is known. */
  ghost predicate IsVertex(data: H3Data, grid: Grid, p: LatLng) {
    exists k :: k in data && k in grid.boundaries && p in grid.boundaries[k]
  }

  predicate Inside(box: BBox, p: LatLng) {
    box.minLat <= p.lat <= box.maxLat && box.minLng <= p.lng <= box.maxLng
  }

  /** The box covers every point seen. */
  ghost predicate Covers(box: BBox, seen: set<LatLng>) {
    forall p :: p in seen ==> Inside(box, p)
  }

  /** Each edge of the box is its starting value or the coordinate of a point seen. */
  ghost predicate Tight(box: BBox, seen: set<LatLng>) {
    && (box.minLat == 90.0 || exists p :: p in seen && p.lat == box.minLat)
    && (box.maxLat == -90.0 || exists p :: p in seen && p.lat == box.maxLat)
    && (box.minLng == 180.0 || exists p :: p in seen && p.lng == box.minLng)
    && (box.maxLng == -180.0 || exists p :: p in seen && p.lng == box.maxLng)
    && box.minLat <= 90.0 && box.maxLat >= -90.0 && box.minLng <= 180.0 && box.maxLng >= -180.0
  }

  /**
   * The box `fitToHexagons` hands to the widget for `data`: it encloses
   * every known boundary vertex, and each edge is its starting value or the
   * coordinate of some vertex.
   */
  ghost predicate BoxOfData(box: BBox, data: H3Data, grid: Grid) {
    && (forall p :: IsVertex(data, grid, p) ==> Inside(box, p))
    && (box.minLat == 90.0 || exists p :: IsVertex(data, grid, p) && p.lat == box.minLat)
    && (box.maxLat == -90.0 || exists p :: IsVertex(data, grid, p) && p.lat == box.maxLat)
    && (box.minLng == 180.0 || exists p :: IsVertex(data, grid, p) && p.lng == box.minLng)
    && (box.maxLng == -180.0 || exists p :: IsVertex(data, grid, p) && p.lng == box.maxLng)
    && box.minLat <= 90.0 && box.maxLat >= -90.0 && box.minLng <= 180.0 && box.maxLng >= -180.0
  }

  function Min(a: real, b: real): real { if b < a then b else a }
  function Max(a: real, b: real): real { if b > a then b else a }

  /**
   * The bounding box fold of `fitToHexagons`: starting from the inverted box
   * `[90, -90] x [180, -180]`, every boundary vertex of every cell whose
   * boundary is known ends up inside the box, and each edge is either its
   * starting value or attained by some vertex.
   */
  method BoundingBox(data: H3Data, grid: Grid) returns (box: BBox)
    ensures forall p :: IsVertex(data, grid, p) ==> Inside(box, p)
    ensures box.minLat == 90.0 || exists p :: IsVertex(data, grid, p) && p.lat == box.minLat
    ensures box.maxLat == -90.0 || exists p :: IsVertex(data, grid, p) && p.lat == box.maxLat
    ensures box.minLng == 180.0 || exists p :: IsVertex(data, grid, p) && p.lng == box.minLng
    ensures box.maxLng == -180.0 || exists p :: IsVertex(data, grid, p) && p.lng == box.maxLng
    ensures box.minLat <= 90.0 && box.maxLat >= -90.0 && box.minLng <= 180.0 && box.maxLng >= -180.0
  {
    var minLat, maxLat, minLng, maxLng := 90.0, -90.0, 180.0, -180.0;
    ghost var seen: set<LatLng> := {};
    var rest := data.Keys;
    while rest != {}
      invariant rest <= data.Keys
      invariant forall p :: p in seen ==> IsVertex(data, grid, p)
      invariant forall k, p :: k in data && k !in rest && k in grid.boundaries && p in grid.boundaries[k] ==> p in seen
      invariant Covers(BBox(minLat, maxLat, minLng, maxLng), seen)
      invariant Tight(BBox(minLat, maxLat, minLng, maxLng), seen)
      decreases rest
    {
      var k :| k in rest;
      if k in grid.boundaries {
        var boundary := grid.boundaries[k];
        var j := 0;
        while j < |boundary|
          invariant 0 <= j <= |boundary|
          invariant forall p :: p in seen ==> IsVertex(data, grid, p)
          invariant forall k', p :: k' in data && k' !in rest && k' in grid.boundaries && p in grid.boundaries[k'] ==> p in seen
          invariant forall i :: 0 <= i < j ==> boundary[i] in seen
          invariant Covers(BBox(minLat, maxLat, minLng, maxLng), seen)
          invariant Tight(BBox(minLat, maxLat, minLng, maxLng), seen)
        {
          var p := boundary[j];
          minLat := Min(minLat, p.lat);
          maxLat := Max(maxLat, p.lat);
          minLng := Min(minLng, p.lng);
          maxLng := Max(maxLng, p.lng);
          seen := seen + {p};
          j := j + 1;
        }
      }
      rest := rest - {k};
    }
    box := BBox(minLat, maxLat, minLng, maxLng);
  }
}
