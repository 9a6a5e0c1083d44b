/** The `{ category, value }` series the dashboards hand to their charts, built from the
    distributions (`{ [key]: number }` objects) of an analytics response. */
module ChartSeries {
  import Seqs

  /** One `{ category, value }` point of a chart. */
  datatype Point = Point(category: string, value: int)

  /** `Object.entries(d).map(([k, n]) => ({ category: k, value: n }))`: one point per entry,
      in order, with the entry's key and value. */
  function Series(d: seq<(string, int)>): (r: seq<Point>)
    ensures |r| == |d|
    ensures forall i :: 0 <= i < |d| ==> r[i].category == d[i].0 && r[i].value == d[i].1
  {
    Seqs.Map(d, (e: (string, int)) => Point(e.0, e.1))
  }

  /** A monthly series, sorted by the time of its category; `time` stands for
      `new Date(category).getTime()`. */
  function MonthlySeries(d: seq<(string, int)>, time: string -> int): seq<Point>
  {
    Seqs.SortBy(Series(d), (p: Point) => time(p.category))
  }

  /** The monthly series holds the month points exactly, each as often as in the response,
      in ascending order of their time. */
  lemma MonthlySeriesSpec(d: seq<(string, int)>, time: string -> int)
    ensures |MonthlySeries(d, time)| == |d|
    ensures multiset(MonthlySeries(d, time)) == multiset(Series(d))
    ensures forall i, j :: 0 <= i < j < |d| ==>
      time(MonthlySeries(d, time)[i].category) <= time(MonthlySeries(d, time)[j].category)
  {
    Seqs.SortBySpec(Series(d), (p: Point) => time(p.category));
  }
}
