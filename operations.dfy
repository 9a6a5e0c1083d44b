/** The operations view: expedients per regional office (two aligned series) and two stacked
    bar charts that pivot expedient counts by procedure type and by category or modality. */
module Operations {
  import opened JsValues
  import Seqs

  /** A row of `getExpedientsByType`. */
  datatype TypeStat = TypeStat(cityCode: JsValue, normalProcessExpedientCount: int, automaticRenovationExpedientCount: int)

  /** A row of `getExpedientsByProcedure`. */
  datatype ProcedureStat = ProcedureStat(procedureType: JsValue, category: JsValue, expedientCount: int)

  /** A row of `getExpedientsByModality`. */
  datatype ModalityStat = ModalityStat(procedureType: JsValue, modalityOrCategory: JsValue, expedientCount: int)

  /** The data of the regional bar chart. */
  datatype TypeChart = TypeChart(labels: seq<JsValue>, normal: seq<int>, automatic: seq<int>)

  /** One stacked series (Chart.js calls its name `label`) and the data of a stacked bar chart. */
  datatype Dataset = Dataset(series: JsValue, data: seq<int>)
  datatype StackedChart = StackedChart(labels: seq<JsValue>, datasets: seq<Dataset>)

  /** `expedientsByTypeGraph`: the labels and both series follow the rows, in their order. */
  function TypeGraph(rows: seq<TypeStat>): (c: TypeChart)
    ensures |c.labels| == |rows| && |c.normal| == |rows| && |c.automatic| == |rows|
    ensures forall i :: 0 <= i < |rows| ==>
      c.labels[i] == rows[i].cityCode &&
      c.normal[i] == rows[i].normalProcessExpedientCount &&
      c.automatic[i] == rows[i].automaticRenovationExpedientCount
  {
    TypeChart(Seqs.Map(rows, (r: TypeStat) => r.cityCode),
              Seqs.Map(rows, (r: TypeStat) => r.normalProcessExpedientCount),
              Seqs.Map(rows, (r: TypeStat) => r.automaticRenovationExpedientCount))
  }

  /** `item.procedureType === type && item.<series> === series`. */
  function Match<T>(typeOf: T -> JsValue, seriesOf: T -> JsValue, t: JsValue, c: JsValue): T -> bool
  {
    (r: T) => typeOf(r) == t && seriesOf(r) == c
  }

  function OfType<T>(typeOf: T -> JsValue, t: JsValue): T -> bool
  {
    (r: T) => typeOf(r) == t
  }

  /** A pivot cell: the count of the first row with this type and series, 0 when none. */
  function Cell<T>(rows: seq<T>, typeOf: T -> JsValue, seriesOf: T -> JsValue, count: T -> int, t: JsValue, c: JsValue): (v: int)
  {
    var k := Seqs.FindIndex(rows, Match(typeOf, seriesOf, t, c));
    if k >= 0 then count(rows[k]) else 0
  }

  /** The pivot of both stacked charts: the distinct procedure types label the bars, and each
      distinct series value gives one dataset with one cell per procedure type. */
  function Pivot<T>(rows: seq<T>, typeOf: T -> JsValue, seriesOf: T -> JsValue, count: T -> int): StackedChart
  {
    var types := Seqs.Distinct(Seqs.Map(rows, typeOf));
    var series := Seqs.Distinct(Seqs.Map(rows, seriesOf));
    StackedChart(types, Seqs.Map(series, (c: JsValue) =>
      Dataset(c, Seqs.Map(types, (t: JsValue) => Cell(rows, typeOf, seriesOf, count, t, c)))))
  }

  function ProcedurePivot(rows: seq<ProcedureStat>): StackedChart
  {
    Pivot(rows, (r: ProcedureStat) => r.procedureType, (r: ProcedureStat) => r.category, (r: ProcedureStat) => r.expedientCount)
  }

  function ModalityPivot(rows: seq<ModalityStat>): StackedChart
  {
    Pivot(rows, (r: ModalityStat) => r.procedureType, (r: ModalityStat) => r.modalityOrCategory, (r: ModalityStat) => r.expedientCount)
  }

  /** The total written above bar `i`: the sum of every dataset's value at `i`. */
  function ColumnTotal(datasets: seq<Dataset>, i: nat): int
  {
    Seqs.Sum(datasets, (d: Dataset) => if i < |d.data| then d.data[i] else 0)
  }

  /** The datalabels plugin on a stacked chart: a label is displayed only on the last
      dataset, and it reads the bar's column total. */
  function DataLabel(chart: StackedChart, datasetIndex: nat, dataIndex: nat): Option<int>
  {
    if datasetIndex == |chart.datasets| - 1 then Some(ColumnTotal(chart.datasets, dataIndex)) else None
  }

  /** A cell holds the count of the first row with its type and series, and 0 exactly when
      no row has them. */
  lemma CellSpec<T>(rows: seq<T>, typeOf: T -> JsValue, seriesOf: T -> JsValue, count: T -> int, t: JsValue, c: JsValue)
    ensures (forall k :: 0 <= k < |rows| ==> !(typeOf(rows[k]) == t && seriesOf(rows[k]) == c)) ==>
      Cell(rows, typeOf, seriesOf, count, t, c) == 0
    ensures (exists k :: 0 <= k < |rows| && typeOf(rows[k]) == t && seriesOf(rows[k]) == c) ==>
      exists k :: 0 <= k < |rows| && typeOf(rows[k]) == t && seriesOf(rows[k]) == c &&
        Cell(rows, typeOf, seriesOf, count, t, c) == count(rows[k]) &&
        forall j :: 0 <= j < k ==> !(typeOf(rows[j]) == t && seriesOf(rows[j]) == c)
  {
    var k := Seqs.FindIndex(rows, Match(typeOf, seriesOf, t, c));
    if exists k :: 0 <= k < |rows| && typeOf(rows[k]) == t && seriesOf(rows[k]) == c {
      var j :| 0 <= j < |rows| && typeOf(rows[j]) == t && seriesOf(rows[j]) == c;
      assert Match(typeOf, seriesOf, t, c)(rows[j]);
      assert k >= 0;
    }
  }

  /** The bar labels of a pivot are the distinct procedure types, in order of first
      appearance. */
  lemma PivotLabels<T>(rows: seq<T>, typeOf: T -> JsValue, seriesOf: T -> JsValue, count: T -> int)
    ensures var p := Pivot(rows, typeOf, seriesOf, count);
      var types := Seqs.Map(rows, typeOf);
      (forall t :: t in p.labels <==> t in types) &&
      (forall i, j :: 0 <= i < j < |p.labels| ==> Seqs.IndexOf(types, p.labels[i]) < Seqs.IndexOf(types, p.labels[j]))
  {
    Seqs.DistinctSpec(Seqs.Map(rows, typeOf));
  }

  /** A pivot has one dataset per distinct series value, labelled by it, in order of first
      appearance. */
  lemma PivotDatasets<T>(rows: seq<T>, typeOf: T -> JsValue, seriesOf: T -> JsValue, count: T -> int)
    ensures var p := Pivot(rows, typeOf, seriesOf, count);
      var series := Seqs.Map(rows, seriesOf);
      (forall c :: c in series <==> exists k :: 0 <= k < |p.datasets| && p.datasets[k].series == c) &&
      (forall k, m :: 0 <= k < m < |p.datasets| ==>
        Seqs.IndexOf(series, p.datasets[k].series) < Seqs.IndexOf(series, p.datasets[m].series))
  {
    var series := Seqs.Map(rows, seriesOf);
    Seqs.DistinctSpec(series);
    var p := Pivot(rows, typeOf, seriesOf, count);
    var ds := Seqs.Distinct(series);
    assert forall k :: 0 <= k < |p.datasets| ==> p.datasets[k].series == ds[k];
    forall c | c in series
      ensures exists k :: 0 <= k < |p.datasets| && p.datasets[k].series == c
    {
      var k :| 0 <= k < |ds| && ds[k] == c;
      assert p.datasets[k].series == c;
    }
  }

  /** Every dataset of a pivot has one value per bar: the cell of that bar's type and the
      dataset's series. */
  lemma PivotCells<T>(rows: seq<T>, typeOf: T -> JsValue, seriesOf: T -> JsValue, count: T -> int)
    ensures var p := Pivot(rows, typeOf, seriesOf, count);
      (forall k :: 0 <= k < |p.datasets| ==> |p.datasets[k].data| == |p.labels|) &&
      (forall k, i :: 0 <= k < |p.datasets| && 0 <= i < |p.labels| ==>
        p.datasets[k].data[i] == Cell(rows, typeOf, seriesOf, count, p.labels[i], p.datasets[k].series))
  {
  }

  /** No two rows share both their procedure type and their series value. */
  predicate UniquePairs<T>(rows: seq<T>, typeOf: T -> JsValue, seriesOf: T -> JsValue)
  {
    forall a, b :: 0 <= a < b < |rows| ==> !(typeOf(rows[a]) == typeOf(rows[b]) && seriesOf(rows[a]) == seriesOf(rows[b]))
  }

  /** With unique pairs a cell is the sum of the counts of the rows with its type and series. */
  lemma CellIsSum<T(!new)>(rows: seq<T>, typeOf: T -> JsValue, seriesOf: T -> JsValue, count: T -> int, t: JsValue, c: JsValue)
    requires UniquePairs(rows, typeOf, seriesOf)
    ensures Cell(rows, typeOf, seriesOf, count, t, c) == Seqs.Sum(Seqs.Filter(rows, Match(typeOf, seriesOf, t, c)), count)
  {
    var m := Match(typeOf, seriesOf, t, c);
    assert Seqs.AtMostOne(rows, m);
    Seqs.FirstIsSum(rows, m, count);
  }

  /** The rows of type `t` whose series is among `cs`. */
  function InSeries<T>(typeOf: T -> JsValue, seriesOf: T -> JsValue, t: JsValue, cs: seq<JsValue>): T -> bool
  {
    (r: T) => typeOf(r) == t && seriesOf(r) in cs
  }

  function TypeCells<T>(rows: seq<T>, typeOf: T -> JsValue, seriesOf: T -> JsValue, count: T -> int, t: JsValue): JsValue -> int
  {
    (c: JsValue) => Cell(rows, typeOf, seriesOf, count, t, c)
  }

  /** With unique pairs, adding a type's cells over distinct series values adds the counts of
      the rows of that type whose series is among them. */
  lemma {:induction false} CellsSum<T(!new)>(rows: seq<T>, typeOf: T -> JsValue, seriesOf: T -> JsValue, count: T -> int, t: JsValue, cs: seq<JsValue>)
    requires UniquePairs(rows, typeOf, seriesOf)
    requires forall i, j :: 0 <= i < j < |cs| ==> cs[i] != cs[j]
    ensures Seqs.Sum(cs, TypeCells(rows, typeOf, seriesOf, count, t)) ==
      Seqs.Sum(Seqs.Filter(rows, InSeries(typeOf, seriesOf, t, cs)), count)
  {
    if cs == [] {
      Seqs.FilterCongruent(rows, InSeries(typeOf, seriesOf, t, cs), (r: T) => false);
      assert Seqs.Filter(rows, (r: T) => false) == [] by {
        Seqs.FilterMembers(rows, (r: T) => false);
        Seqs.NoMembersEmpty(Seqs.Filter(rows, (r: T) => false));
      }
    } else {
      var init, c := cs[..|cs| - 1], cs[|cs| - 1];
      CellsSum(rows, typeOf, seriesOf, count, t, init);
      CellIsSum(rows, typeOf, seriesOf, count, t, c);
      assert c !in init;
      Seqs.SumFilterDisjoint(rows, InSeries(typeOf, seriesOf, t, init), Match(typeOf, seriesOf, t, c),
                             InSeries(typeOf, seriesOf, t, cs), count);
    }
  }

  /** The stacked total above each bar is the total count of that procedure type, provided no
      two rows share a type and a series (the backend groups by both). */
  lemma ColumnTotalIsTypeTotal<T(!new)>(rows: seq<T>, typeOf: T -> JsValue, seriesOf: T -> JsValue, count: T -> int, i: nat)
    requires UniquePairs(rows, typeOf, seriesOf)
    requires i < |Pivot(rows, typeOf, seriesOf, count).labels|
    ensures var p := Pivot(rows, typeOf, seriesOf, count);
      ColumnTotal(p.datasets, i) == Seqs.Sum(Seqs.Filter(rows, OfType(typeOf, p.labels[i])), count)
  {
    var p := Pivot(rows, typeOf, seriesOf, count);
    var types := p.labels;
    var t := types[i];
    var series := Seqs.Distinct(Seqs.Map(rows, seriesOf));
    Seqs.DistinctSpec(Seqs.Map(rows, seriesOf));
    Seqs.SumMap(series,
      (c: JsValue) => Dataset(c, Seqs.Map(types, (t: JsValue) => Cell(rows, typeOf, seriesOf, count, t, c))),
      (d: Dataset) => if i < |d.data| then d.data[i] else 0,
      TypeCells(rows, typeOf, seriesOf, count, t));
    CellsSum(rows, typeOf, seriesOf, count, t, series);
    forall k | 0 <= k < |rows|
      ensures InSeries(typeOf, seriesOf, t, series)(rows[k]) == OfType(typeOf, t)(rows[k])
    {
      assert Seqs.Map(rows, seriesOf)[k] == seriesOf(rows[k]);
    }
    Seqs.FilterCongruent(rows, InSeries(typeOf, seriesOf, t, series), OfType(typeOf, t));
  }

  /** Each bar of a pivot chart carries exactly one label, on its topmost dataset, and with
      unique type and series pairs it reads the procedure type's total count. */
  lemma PivotBarLabel<T(!new)>(rows: seq<T>, typeOf: T -> JsValue, seriesOf: T -> JsValue, count: T -> int, d: nat, i: nat)
    requires UniquePairs(rows, typeOf, seriesOf)
    requires i < |Pivot(rows, typeOf, seriesOf, count).labels|
    ensures var p := Pivot(rows, typeOf, seriesOf, count);
      (DataLabel(p, d, i).Some? <==> d + 1 == |p.datasets|) &&
      (DataLabel(p, d, i).Some? ==>
        DataLabel(p, d, i).value == Seqs.Sum(Seqs.Filter(rows, OfType(typeOf, p.labels[i])), count))
  {
    ColumnTotalIsTypeTotal(rows, typeOf, seriesOf, count, i);
  }

  /** The request of the three queries: the date range, formatted `DD-MM-YYYY`. */
  datatype Fetch = Fetch(start: string, end: string)

  class OperationsComponent {
    var loading: bool
    var start: string
    var end: string
    var expedientsByType: seq<TypeStat>
    var expedientsByProcedure: seq<ProcedureStat>
    var expedientsByModality: seq<ModalityStat>
    var typeChart: Option<TypeChart>
    var procedureChart: Option<StackedChart>
    var modalityChart: Option<StackedChart>

    /** A fresh view; `start` and `end` are the first of the month and today, given here. */
    constructor(startOfMonth: string, today: string)
      ensures !loading && start == startOfMonth && end == today
      ensures expedientsByType == [] && expedientsByProcedure == [] && expedientsByModality == []
      ensures typeChart.None? && procedureChart.None? && modalityChart.None?
    {
      loading := false;
      start := startOfMonth;
      end := today;
      expedientsByType := [];
      expedientsByProcedure := [];
      expedientsByModality := [];
      typeChart := None;
      procedureChart := None;
      modalityChart := None;
    }

    /** `getExpedientsByType`: the three queries are all asked for the current range. */
    method GetExpedients() returns (f: Fetch)
      ensures f == Fetch(start, end)
    {
      f := Fetch(start, end);
    }

    /** `filterDates`: with both dates the range is stored and the queries are asked again;
        with either missing nothing happens and nothing is asked. */
    method FilterDates(startDate: Option<int>, endDate: Option<int>, format: int -> string) returns (f: Option<Fetch>)
      modifies this
      ensures f.Some? <==> startDate.Some? && endDate.Some?
      ensures f.Some? ==> start == format(startDate.value) && end == format(endDate.value) && f.value == Fetch(start, end)
      ensures f.None? ==> start == old(start) && end == old(end)
      ensures loading == old(loading) && expedientsByType == old(expedientsByType)
      ensures expedientsByProcedure == old(expedientsByProcedure) && expedientsByModality == old(expedientsByModality)
      ensures typeChart == old(typeChart) && procedureChart == old(procedureChart) && modalityChart == old(modalityChart)
    {
      if startDate.Some? && endDate.Some? {
        start := format(startDate.value);
        end := format(endDate.value);
        var r := GetExpedients();
        f := Some(r);
      } else {
        f := None;
      }
    }

    /** The regional rows arrive: they are stored and the chart rebuilt from them. */
    method OnExpedientsByType(data: seq<TypeStat>)
      modifies this
      ensures expedientsByType == data && typeChart == Some(TypeGraph(data))
      ensures loading == old(loading) && start == old(start) && end == old(end)
      ensures expedientsByProcedure == old(expedientsByProcedure) && expedientsByModality == old(expedientsByModality)
      ensures procedureChart == old(procedureChart) && modalityChart == old(modalityChart)
    {
      expedientsByType := data;
      typeChart := Some(TypeGraph(data));
    }

    /** The procedure/category rows arrive: they are stored and pivoted. */
    method OnExpedientsByProcedure(data: seq<ProcedureStat>)
      modifies this
      ensures expedientsByProcedure == data && procedureChart == Some(ProcedurePivot(data))
      ensures loading == old(loading) && start == old(start) && end == old(end)
      ensures expedientsByType == old(expedientsByType) && expedientsByModality == old(expedientsByModality)
      ensures typeChart == old(typeChart) && modalityChart == old(modalityChart)
    {
      expedientsByProcedure := data;
      procedureChart := Some(ProcedurePivot(data));
    }

    /** The procedure/modality rows arrive: they are stored and pivoted. */
    method OnExpedientsByModality(data: seq<ModalityStat>)
      modifies this
      ensures expedientsByModality == data && modalityChart == Some(ModalityPivot(data))
      ensures loading == old(loading) && start == old(start) && end == old(end)
      ensures expedientsByType == old(expedientsByType) && expedientsByProcedure == old(expedientsByProcedure)
      ensures typeChart == old(typeChart) && procedureChart == old(procedureChart)
    {
      expedientsByModality := data;
      modalityChart := Some(ModalityPivot(data));
    }
  }
}
