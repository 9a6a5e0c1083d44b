/** The school certificates dashboard: the analytics request built from the filter form, the
    category autocomplete, and the two category charts whose labels are shortened; the
    performance chart then merges the rows whose shortened labels collide. Chart drawing is
    not part of this model. */
module SchoolCertificatesDashboard {
  import opened JsValues
  import opened Records
  import opened QueryParams
  import Seqs
  import Catalogue
  import SchoolCertificatesDetails

  type Filters = SchoolCertificatesDetails.Filters

  /** The `params` object of `loadAnalytics`, `undefined` entries included. */
  function AnalyticsParams(f: Filters): Entries
  {
    [("startDate", OrUndefined(f.start)),
     ("endDate", OrUndefined(f.end)),
     ("dateType", OrUndefined(f.dateType)),
     ("noticeStatus", OrUndefined(f.noticeStatus)),
     ("transportType", OrUndefined(f.transportType)),
     ("categoryDescription", OrUndefined(f.category)),
     ("type", OrUndefined(f.certificateType)),
     ("searchTerm", OrUndefined(f.searchTerm))]
  }

  /** The analytics request carries each filter exactly when it is set. */
  lemma AnalyticsRequestOmitsUnset(f: Filters)
    ensures DistinctKeys(AnalyticsParams(f))
    ensures HasKey(DropUndefined(AnalyticsParams(f)), "startDate") <==> f.start != ""
    ensures HasKey(DropUndefined(AnalyticsParams(f)), "endDate") <==> f.end != ""
    ensures HasKey(DropUndefined(AnalyticsParams(f)), "dateType") <==> f.dateType != ""
    ensures HasKey(DropUndefined(AnalyticsParams(f)), "noticeStatus") <==> f.noticeStatus != ""
    ensures HasKey(DropUndefined(AnalyticsParams(f)), "transportType") <==> f.transportType != ""
    ensures HasKey(DropUndefined(AnalyticsParams(f)), "categoryDescription") <==> f.category != ""
    ensures HasKey(DropUndefined(AnalyticsParams(f)), "type") <==> f.certificateType != ""
    ensures HasKey(DropUndefined(AnalyticsParams(f)), "searchTerm") <==> f.searchTerm != ""
  {
    var t := AnalyticsParams(f);
    TableEntrySent(t, 0);
    TableEntrySent(t, 1);
    TableEntrySent(t, 2);
    TableEntrySent(t, 3);
    TableEntrySent(t, 4);
    TableEntrySent(t, 5);
    TableEntrySent(t, 6);
    TableEntrySent(t, 7);
  }

  /** `s.length > limit ? s.substring(0, keep) + '...' : s` */
  function Shorten(s: string, limit: nat, keep: nat): (r: string)
    requires keep + 3 <= limit
    ensures |r| <= limit
    ensures |s| <= limit ==> r == s
    ensures |s| > limit ==> r == s[..keep] + "..." && |r| == keep + 3
  {
    if |s| > limit then s[..keep] + "..." else s
  }

  /** The category distribution chart: labels over 20 characters become their first 17 and
      '...'; counts are kept, one bar per entry. */
  function CategoryBars(distribution: seq<(string, JsValue)>): (bars: seq<(string, JsValue)>)
    ensures |bars| == |distribution|
    ensures forall i :: 0 <= i < |bars| ==>
      |bars[i].0| <= 20 && bars[i].1 == distribution[i].1 && bars[i].0 == Shorten(distribution[i].0, 20, 17)
  {
    Seqs.Map(distribution, (e: (string, JsValue)) => (Shorten(e.0, 20, 17), e.1))
  }

  /** A bar of the category performance chart. */
  datatype PerformanceRow = PerformanceRow(category: string, paid: int, unpaid: int, total: int)

  /** The three summed fields of a performance row. */
  datatype Field = Paid | Unpaid | Total

  function Get(r: PerformanceRow, f: Field): int
  {
    match f
    case Paid => r.paid
    case Unpaid => r.unpaid
    case Total => r.total
  }

  predicate Balanced(r: PerformanceRow)
  {
    r.total == r.paid + r.unpaid
  }

  /** One raw row: the label shortened past 15 characters to 12 and '...', missing counts as
      0, and the total their sum. */
  function RawRow(category: string, paid: JsValue, unpaid: JsValue): (r: PerformanceRow)
    ensures |r.category| <= 15 && Balanced(r)
    ensures !Truthy(paid) ==> r.paid == 0
    ensures !Truthy(unpaid) ==> r.unpaid == 0
  {
    var p := AmountOrZero(paid);
    var u := AmountOrZero(unpaid);
    PerformanceRow(Shorten(category, 15, 12), p, u, p + u)
  }

  /** Where `category` sits among the merged rows, or -1. */
  function Find(rows: seq<PerformanceRow>, category: string): (k: int)
    ensures -1 <= k < |rows|
    ensures k >= 0 ==> rows[k].category == category
    ensures k == -1 <==> forall i :: 0 <= i < |rows| ==> rows[i].category != category
  {
    if rows == [] then -1
    else if rows[0].category == category then 0
    else
      var k := Find(rows[1..], category);
      if k == -1 then -1 else k + 1
  }

  function Combine(existing: PerformanceRow, item: PerformanceRow): (r: PerformanceRow)
    ensures forall f :: Get(r, f) == Get(existing, f) + Get(item, f)
  {
    PerformanceRow(item.category, existing.paid + item.paid, existing.unpaid + item.unpaid, existing.total + item.total)
  }

  /** One step of the `forEach`: an item whose label is already present is added into that
      row, where it stands; a new label is appended. */
  function Merge(rows: seq<PerformanceRow>, item: PerformanceRow): seq<PerformanceRow>
  {
    var k := Find(rows, item.category);
    if k >= 0 then rows[k := Combine(rows[k], item)] else rows + [item]
  }

  /** The aggregated chart data: the raw rows merged in order. */
  function Aggregate(raw: seq<PerformanceRow>): seq<PerformanceRow>
  {
    if raw == [] then [] else Merge(Aggregate(raw[..|raw| - 1]), raw[|raw| - 1])
  }

  function Categories(rows: seq<PerformanceRow>): seq<string>
  {
    Seqs.Map(rows, (r: PerformanceRow) => r.category)
  }

  predicate DistinctCategories(rows: seq<PerformanceRow>)
  {
    forall i, j :: 0 <= i < j < |rows| ==> rows[i].category != rows[j].category
  }

  /** The sum of one field over the raw rows carrying a given label. */
  function CategorySum(raw: seq<PerformanceRow>, category: string, f: Field): int
  {
    Seqs.Sum(Seqs.Filter(raw, (r: PerformanceRow) => r.category == category), (r: PerformanceRow) => Get(r, f))
  }

  /** The merged rows have distinct labels, and exactly the labels of the raw rows. */
  lemma {:induction false} AggregateCategories(raw: seq<PerformanceRow>)
    ensures DistinctCategories(Aggregate(raw))
    ensures forall c :: c in Categories(Aggregate(raw)) <==> c in Categories(raw)
  {
    if raw != [] {
      var init, last := raw[..|raw| - 1], raw[|raw| - 1];
      var acc := Aggregate(init);
      AggregateCategories(init);
      assert raw == init + [last];
      assert Categories(raw) == Categories(init) + [last.category];
      var k := Find(acc, last.category);
      if k >= 0 {
        assert Categories(Aggregate(raw)) == Categories(acc);
        assert last.category in Categories(acc);
      } else {
        assert Categories(Aggregate(raw)) == Categories(acc) + [last.category];
      }
    }
  }

  /** One merge step on the labels: a known label leaves them as they are, a new one is
      appended. */
  lemma MergeCategories(acc: seq<PerformanceRow>, item: PerformanceRow)
    ensures Categories(Merge(acc, item)) ==
      if item.category in Categories(acc) then Categories(acc) else Categories(acc) + [item.category]
  {
    var k := Find(acc, item.category);
    if k >= 0 {
      assert Categories(acc)[k] == item.category;
      assert Categories(Merge(acc, item)) == Categories(acc);
    } else {
      assert forall i :: 0 <= i < |acc| ==> Categories(acc)[i] != item.category;
      assert Categories(Merge(acc, item)) == Categories(acc) + [item.category];
    }
  }

  /** The bars follow the raw rows' labels in the order of their first appearance: a new
      label is appended and a known one is updated where it stands. */
  lemma {:induction false} AggregateOrder(raw: seq<PerformanceRow>)
    ensures Categories(Aggregate(raw)) == Seqs.Distinct(Categories(raw))
  {
    if raw != [] {
      var init, last := raw[..|raw| - 1], raw[|raw| - 1];
      AggregateOrder(init);
      MergeCategories(Aggregate(init), last);
      var cs := Categories(raw);
      assert cs[..|cs| - 1] == Categories(init);
      assert cs[|cs| - 1] == last.category;
    }
  }

  lemma {:induction false} SumUpdate(rows: seq<PerformanceRow>, k: nat, x: PerformanceRow, f: Field)
    requires k < |rows|
    ensures Seqs.Sum(rows[k := x], (r: PerformanceRow) => Get(r, f))
         == Seqs.Sum(rows, (r: PerformanceRow) => Get(r, f)) - Get(rows[k], f) + Get(x, f)
  {
    var n := |rows| - 1;
    if k < n {
      SumUpdate(rows[..n], k, x, f);
      assert rows[k := x][..n] == rows[..n][k := x];
    } else {
      assert rows[k := x][..n] == rows[..n];
    }
  }

  /** Merging loses nothing: each field's grand total over the chart equals the one over the
      raw rows. */
  lemma {:induction false} AggregateKeepsTotals(raw: seq<PerformanceRow>, f: Field)
    ensures Seqs.Sum(Aggregate(raw), (r: PerformanceRow) => Get(r, f)) == Seqs.Sum(raw, (r: PerformanceRow) => Get(r, f))
  {
    if raw != [] {
      var init, last := raw[..|raw| - 1], raw[|raw| - 1];
      var acc := Aggregate(init);
      AggregateKeepsTotals(init, f);
      var k := Find(acc, last.category);
      if k >= 0 {
        SumUpdate(acc, k, Combine(acc[k], last), f);
      } else {
        Seqs.SumAppend(acc, [last], (r: PerformanceRow) => Get(r, f));
      }
    }
  }

  /** Rows whose total is paid plus unpaid stay so when merged. */
  lemma {:induction false} AggregateKeepsBalance(raw: seq<PerformanceRow>)
    requires forall i :: 0 <= i < |raw| ==> Balanced(raw[i])
    ensures forall i :: 0 <= i < |Aggregate(raw)| ==> Balanced(Aggregate(raw)[i])
  {
    if raw != [] {
      AggregateKeepsBalance(raw[..|raw| - 1]);
    }
  }

  lemma CategorySumStep(init: seq<PerformanceRow>, last: PerformanceRow, c: string, f: Field)
    ensures CategorySum(init + [last], c, f) == CategorySum(init, c, f) + (if last.category == c then Get(last, f) else 0)
  {
    var p := (r: PerformanceRow) => r.category == c;
    var g := (r: PerformanceRow) => Get(r, f);
    Seqs.FilterAppend(init, [last], p);
    assert Seqs.Filter([last], p) == if p(last) then [last] else [];
    Seqs.SumAppend(Seqs.Filter(init, p), Seqs.Filter([last], p), g);
  }

  lemma CategorySumAbsent(raw: seq<PerformanceRow>, c: string, f: Field)
    ensures c !in Categories(raw) ==> CategorySum(raw, c, f) == 0
  {
    var p := (r: PerformanceRow) => r.category == c;
    Seqs.FilterMembers(raw, p);
    if c !in Categories(raw) {
      assert forall x :: x !in Seqs.Filter(raw, p);
      Seqs.NoMembersEmpty(Seqs.Filter(raw, p));
    }
  }

  /** Each merged row holds, field by field, the sum over exactly the raw rows that carry its
      label. */
  lemma {:induction false} AggregateSumsByCategory(raw: seq<PerformanceRow>, f: Field)
    ensures forall i :: 0 <= i < |Aggregate(raw)| ==>
      Get(Aggregate(raw)[i], f) == CategorySum(raw, Aggregate(raw)[i].category, f)
  {
    if raw != [] {
      var init, last := raw[..|raw| - 1], raw[|raw| - 1];
      var acc := Aggregate(init);
      var res := Aggregate(raw);
      AggregateSumsByCategory(init, f);
      AggregateCategories(init);
      assert raw == init + [last];
      var k := Find(acc, last.category);
      forall i | 0 <= i < |res|
        ensures Get(res[i], f) == CategorySum(raw, res[i].category, f)
      {
        CategorySumStep(init, last, res[i].category, f);
        if i < |acc| && i != k {
          assert res[i] == acc[i];
          if k >= 0 {
            assert acc[i].category != acc[k].category;
          } else {
            assert acc[i].category != last.category;
          }
        } else if i == k {
          assert res[i] == Combine(acc[k], last);
        } else {
          assert k == -1 && i == |acc| && res[i] == last;
          CategorySumAbsent(init, last.category, f);
        }
      }
    }
  }

  /** The aggregation loop, with the insertion-ordered map held as a sequence of rows. */
  method AggregatePerformance(raw: seq<PerformanceRow>) returns (data: seq<PerformanceRow>)
    ensures data == Aggregate(raw)
  {
    data := [];
    var i := 0;
    while i < |raw|
      invariant 0 <= i <= |raw|
      invariant data == Aggregate(raw[..i])
    {
      assert raw[..i + 1][..i] == raw[..i];
      var item := raw[i];
      var k := Find(data, item.category);
      if k >= 0 {
        var existing := data[k];
        data := data[k := PerformanceRow(item.category, existing.paid + item.paid,
                                         existing.unpaid + item.unpaid, existing.total + item.total)];
      } else {
        data := data + [item];
      }
      i := i + 1;
    }
    assert raw[..|raw|] == raw;
  }

  class SchoolCertificatesDashboardComponent {
    var loading: bool
    var filters: Filters
    var categories: seq<string>
    var filteredCategories: seq<string>

    constructor(start: string, end: string)
      ensures !loading
      ensures filters == SchoolCertificatesDetails.Filters(start, end, "issueDate", "", "", "", "", "")
      ensures categories == SchoolCertificatesDetails.Categories && filteredCategories == categories
    {
      loading := false;
      filters := SchoolCertificatesDetails.Filters(start, end, "issueDate", "", "", "", "", "");
      categories := SchoolCertificatesDetails.Categories;
      filteredCategories := categories;
    }

    method FilterCategories(value: string)
      modifies this
      ensures filteredCategories == Catalogue.FilterCategories(categories, value)
      ensures categories == old(categories) && loading == old(loading) && filters == old(filters)
    {
      if value == "" {
        filteredCategories := categories;
        return;
      }
      filteredCategories := Catalogue.FilterCategories(categories, value);
    }

    /** `loadAnalytics` (and `onSubmit`), the request half. */
    method LoadAnalytics() returns (req: Entries)
      modifies this
      ensures loading
      ensures req == DropUndefined(AnalyticsParams(filters))
      ensures filters == old(filters) && categories == old(categories) && filteredCategories == old(filteredCategories)
    {
      loading := true;
      var params := [
        ("startDate", Or(Str(filters.start), Undefined)),
        ("endDate", Or(Str(filters.end), Undefined)),
        ("dateType", Or(Str(filters.dateType), Undefined)),
        ("noticeStatus", Or(Str(filters.noticeStatus), Undefined)),
        ("transportType", Or(Str(filters.transportType), Undefined)),
        ("categoryDescription", Or(Str(filters.category), Undefined)),
        ("type", Or(Str(filters.certificateType), Undefined)),
        ("searchTerm", Or(Str(filters.searchTerm), Undefined))];
      assert params == AnalyticsParams(filters);
      req := DropUndefined(params);
    }

    /** Either callback of the analytics request lowers the flag; the charts are drawn from
        the response outside this model. */
    method OnAnalyticsResponse()
      modifies this
      ensures !loading
      ensures filters == old(filters) && categories == old(categories) && filteredCategories == old(filteredCategories)
    {
      loading := false;
    }

    /** `filterDates`: dates change only when both are given; a non-empty date type is taken
        either way. */
    method FilterDates(startDate: Option<int>, endDate: Option<int>, dateType: Option<string>, format: int -> string)
      modifies this
      ensures startDate.Some? && endDate.Some? ==>
        filters.start == format(startDate.value) && filters.end == format(endDate.value)
      ensures !(startDate.Some? && endDate.Some?) ==>
        filters.start == old(filters.start) && filters.end == old(filters.end)
      ensures filters.dateType == (if dateType.Some? && dateType.value != "" then dateType.value else old(filters.dateType))
      ensures filters.noticeStatus == old(filters.noticeStatus) && filters.transportType == old(filters.transportType)
      ensures filters.category == old(filters.category) && filters.certificateType == old(filters.certificateType)
      ensures filters.searchTerm == old(filters.searchTerm)
      ensures loading == old(loading) && categories == old(categories) && filteredCategories == old(filteredCategories)
    {
      if startDate.Some? && endDate.Some? {
        filters := filters.(start := format(startDate.value), end := format(endDate.value));
      }
      if dateType.Some? && dateType.value != "" {
        filters := filters.(dateType := dateType.value);
      }
    }

    /** `applyFilter`: only the named field changes; an unknown name changes nothing. */
    method ApplyFilter(filterType: string, value: Option<string>)
      modifies this
      ensures filterType == "noticeStatus" ==> filters == old(filters).(noticeStatus := OrEmpty(value))
      ensures filterType == "transportType" ==> filters == old(filters).(transportType := OrEmpty(value))
      ensures filterType == "categoryDescription" ==> filters == old(filters).(category := OrEmpty(value))
      ensures filterType == "type" ==> filters == old(filters).(certificateType := OrEmpty(value))
      ensures filterType == "searchTerm" ==> filters == old(filters).(searchTerm := OrEmpty(value))
      ensures filterType !in {"noticeStatus", "transportType", "categoryDescription", "type", "searchTerm"} ==>
        filters == old(filters)
      ensures loading == old(loading) && categories == old(categories) && filteredCategories == old(filteredCategories)
    {
      match filterType {
        case "noticeStatus" => filters := filters.(noticeStatus := OrEmpty(value));
        case "transportType" => filters := filters.(transportType := OrEmpty(value));
        case "categoryDescription" => filters := filters.(category := OrEmpty(value));
        case "type" => filters := filters.(certificateType := OrEmpty(value));
        case "searchTerm" => filters := filters.(searchTerm := OrEmpty(value));
        case _ =>
      }
    }
  }
}
