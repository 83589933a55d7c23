/**
 * Reduction of one cell's entries to a single number: the sum of the chosen
 * KPI over the entries (a missing KPI counts as 0), divided by the number of
 * entries in average mode. Both state stores and both map controllers use
 * this reduction.
 */
module Kpi {
  import opened Types

  /** `entry.kpis[kpi] || 0`: a missing KPI contributes 0. */
  function EntryKpi(e: Entry, kpi: string): real {
    if kpi in e.kpis then e.kpis[kpi] else 0.0
  }

  /** `entries.reduce((sum, entry) => sum + (entry.kpis[kpi] || 0), 0)`, a left fold. */
  function KpiTotal(entries: seq<Entry>, kpi: string): real
    decreases |entries|
  {
    if |entries| == 0 then 0.0
    else KpiTotal(entries[..|entries| - 1], kpi) + EntryKpi(entries[|entries| - 1], kpi)
  }

  /**
   * The value shown for a cell: the KPI total, divided by the entry count in
   * average mode when there is at least one entry.
   */
  function CellValue(entries: seq<Entry>, f: Filters): (r: real)
    ensures f.aggregation == Average && |entries| > 0 ==> r * (|entries| as real) == KpiTotal(entries, f.kpi)
    ensures f.aggregation == Sum || |entries| == 0 ==> r == KpiTotal(entries, f.kpi)
  {
    var total := KpiTotal(entries, f.kpi);
    if f.aggregation == Average && |entries| > 0 then total / (|entries| as real) else total
  }

  /** The total of a concatenation is the sum of the totals. */
  lemma {:induction false} KpiTotalAppend(a: seq<Entry>, b: seq<Entry>, kpi: string)
    ensures KpiTotal(a + b, kpi) == KpiTotal(a, kpi) + KpiTotal(b, kpi)
    decreases |b|
  {
    if |b| == 0 {
      assert a + b == a;
    } else {
      var b' := b[..|b| - 1];
      assert (a + b)[..|a + b| - 1] == a + b';
      KpiTotalAppend(a, b', kpi);
    }
  }

  /** Entries that do not carry the KPI add nothing: their total is 0. */
  lemma {:induction false} KpiTotalMissing(entries: seq<Entry>, kpi: string)
    requires forall i :: 0 <= i < |entries| ==> kpi !in entries[i].kpis
    ensures KpiTotal(entries, kpi) == 0.0
    decreases |entries|
  {
    if |entries| > 0 {
      KpiTotalMissing(entries[..|entries| - 1], kpi);
    }
  }

  /** When every entry's KPI is at least `lo`, the total is at least `n*lo`. */
  lemma {:induction false} KpiTotalAtLeast(entries: seq<Entry>, kpi: string, lo: real)
    requires forall i :: 0 <= i < |entries| ==> lo <= EntryKpi(entries[i], kpi)
    ensures (|entries| as real) * lo <= KpiTotal(entries, kpi)
    decreases |entries|
  {
    if |entries| > 0 {
      KpiTotalAtLeast(entries[..|entries| - 1], kpi, lo);
    }
  }

  /** When every entry's KPI is at most `hi`, the total is at most `n*hi`. */
  lemma {:induction false} KpiTotalAtMost(entries: seq<Entry>, kpi: string, hi: real)
    requires forall i :: 0 <= i < |entries| ==> EntryKpi(entries[i], kpi) <= hi
    ensures KpiTotal(entries, kpi) <= (|entries| as real) * hi
    decreases |entries|
  {
    if |entries| > 0 {
      KpiTotalAtMost(entries[..|entries| - 1], kpi, hi);
    }
  }

  /** When `v * n == t` with `n >= 1`, `t` lies on the far side of `v` from 0. */
  lemma ScaleByCount(v: real, n: real, t: real)
    requires n >= 1.0 && v * n == t
    ensures v >= 0.0 ==> v <= t
    ensures v > 0.0 && n > 1.0 ==> v < t
    ensures v <= 0.0 ==> t <= 0.0
  {
    var m := n - 1.0;
    assert t - v == v * m;
    if v > 0.0 && m > 0.0 {
      assert v * m > 0.0;
    }
  }

  /**
   * In average mode the value of a non-empty cell lies between the smallest
   * and the largest KPI of its entries.
   */
  lemma AverageWithinBounds(entries: seq<Entry>, f: Filters, lo: real, hi: real)
    requires f.aggregation == Average && |entries| > 0
    requires forall i :: 0 <= i < |entries| ==> lo <= EntryKpi(entries[i], f.kpi) <= hi
    ensures lo <= CellValue(entries, f) <= hi
  {
    KpiTotalAtLeast(entries, f.kpi, lo);
    KpiTotalAtMost(entries, f.kpi, hi);
    var n := |entries| as real;
    var v := CellValue(entries, f);
    assert v * n == KpiTotal(entries, f.kpi);
    assert (v - lo) * n >= 0.0;
    assert (hi - v) * n >= 0.0;
  }

  /**
   * With non-negative KPIs the average of a cell never exceeds its raw sum;
   * with two or more entries and a positive sum it is strictly smaller.
   */
  lemma AverageAtMostSum(entries: seq<Entry>, f: Filters)
    requires f.aggregation == Average && |entries| > 0
    requires forall i :: 0 <= i < |entries| ==> 0.0 <= EntryKpi(entries[i], f.kpi)
    ensures CellValue(entries, f) <= KpiTotal(entries, f.kpi)
    ensures |entries| > 1 && KpiTotal(entries, f.kpi) > 0.0 ==> CellValue(entries, f) < KpiTotal(entries, f.kpi)
  {
    var n := |entries| as real;
    var v := CellValue(entries, f);
    var t := KpiTotal(entries, f.kpi);
    KpiTotalAtLeast(entries, f.kpi, 0.0);
    ScaleByCount(v, n, t);
  }

  /** Two entries with speeds 10 and 30: average 20, sum 40. */
  lemma SpeedExample()
    ensures var es := [Entry("a", map["speed" := 10.0]), Entry("b", map["speed" := 30.0])];
      && CellValue(es, Filters("speed", Average)) == 20.0
      && CellValue(es, Filters("speed", Sum)) == 40.0
  {
    var es := [Entry("a", map["speed" := 10.0]), Entry("b", map["speed" := 30.0])];
    assert es[..1] == [es[0]];
    assert es[..1][..0] == [];
    assert KpiTotal(es, "speed") == 40.0;
  }
}
