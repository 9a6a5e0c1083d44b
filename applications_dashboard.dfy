/** The applications dashboard: a filter form whose values go to the analytics query, six KPIs
    copied from the analytics response, and five chart series built from its distributions. */
module ApplicationsDashboard {
  import opened JsValues
  import opened QueryParams
  import Seqs
  import ApplicationsQueries
  import opened ChartSeries

  /** The form: three selections and the renewal state as the select hands them over (`''`
      or `null` when cleared; the renewal state `true` or `false`), the dates and the two text
      fields. */
  datatype Form = Form(
    fileStatus: JsValue, procedureType: JsValue, category: JsValue, renewal: JsValue,
    start: string, end: string, applicantName: string, companyName: string)

  /** The `params` object of `onSubmit`, `undefined` entries included. */
  function SubmitParams(f: Form): Entries
  {
    [("fileStatus", Or(f.fileStatus, Undefined)),
     ("procedureType", Or(f.procedureType, Undefined)),
     ("categoryId", Or(f.category, Undefined)),
     ("startDate", OrUndefined(f.start)),
     ("endDate", OrUndefined(f.end)),
     ("applicantName", OrUndefined(f.applicantName)),
     ("companyName", OrUndefined(f.companyName)),
     ("isAutomaticRenewal", if f.renewal != Null then f.renewal else Undefined)]
  }

  /** The query string the search sends: the params without `undefined` entries, then cleaned
      by the queries service. */
  function SubmitQuery(f: Form): Entries
  {
    ApplicationsQueries.Clean(DropUndefined(SubmitParams(f)))
  }

  /** Entry `i` of the params reaches the query exactly when the service keeps its value, and
      then as `String(value)`. */
  lemma SubmitQueryEntry(f: Form, i: nat)
    requires i < 8
    ensures var t := SubmitParams(f);
      (HasKey(SubmitQuery(f), t[i].0) <==> ApplicationsQueries.Kept(t[i].1)) &&
      Lookup(SubmitQuery(f), t[i].0) == if ApplicationsQueries.Kept(t[i].1) then Str(ToJsString(t[i].1)) else Undefined
  {
    var t := SubmitParams(f);
    assert DistinctKeys(t);
    FilterDistinct(t, IsDefined);
    TableEntrySent(t, i);
    ApplicationsQueries.CleanLookup(DropUndefined(t), t[i].0);
  }

  /** The search sends the renewal state whenever one is chosen, `false` included (as
      "false"), and never when it is `null`. */
  lemma SubmitQuerySendsRenewal(f: Form)
    ensures f.renewal == Bool(false) ==> Lookup(SubmitQuery(f), "isAutomaticRenewal") == Str("false")
    ensures f.renewal == Bool(true) ==> Lookup(SubmitQuery(f), "isAutomaticRenewal") == Str("true")
    ensures f.renewal == Null ==> !HasKey(SubmitQuery(f), "isAutomaticRenewal")
  {
    SubmitQueryEntry(f, 7);
  }

  /** The search leaves out every cleared selection and empty text field, and sends the text
      fields as typed. */
  lemma SubmitQuerySendsSetFilters(f: Form)
    ensures HasKey(SubmitQuery(f), "fileStatus") <==> Truthy(f.fileStatus)
    ensures HasKey(SubmitQuery(f), "procedureType") <==> Truthy(f.procedureType)
    ensures HasKey(SubmitQuery(f), "categoryId") <==> Truthy(f.category)
    ensures HasKey(SubmitQuery(f), "applicantName") <==> f.applicantName != ""
    ensures f.applicantName != "" ==> Lookup(SubmitQuery(f), "applicantName") == Str(f.applicantName)
    ensures HasKey(SubmitQuery(f), "companyName") <==> f.companyName != ""
    ensures f.companyName != "" ==> Lookup(SubmitQuery(f), "companyName") == Str(f.companyName)
  {
    SubmitQueryEntry(f, 0);
    SubmitQueryEntry(f, 1);
    SubmitQueryEntry(f, 2);
    SubmitQueryEntry(f, 5);
    SubmitQueryEntry(f, 6);
  }

  /** The KPI block of an analytics response. */
  datatype Kpis = Kpis(
    totalApplications: int, pendingApplications: int, approvedApplications: int,
    rejectedApplications: int, inProcessApplications: int, automaticRenewals: int,
    manualApplications: int)

  /** The distributions of an analytics response, as `Object.entries` lists them. */
  datatype ChartData = ChartData(
    statusDistribution: seq<(string, int)>, procedureTypeDistribution: seq<(string, int)>,
    monthlyApplications: seq<(string, int)>, renewalTypeDistribution: seq<(string, int)>,
    serviceClassDistribution: seq<(string, int)>)

  /** An analytics response; either block may be missing. */
  datatype Analytics = Analytics(kpis: Option<Kpis>, chartData: Option<ChartData>)

  /** The five series handed to the charts. */
  datatype Charts = Charts(status: seq<Point>, procedure: seq<Point>, monthly: seq<Point>, renewal: seq<Point>, serviceClass: seq<Point>)

  /** The renewal series: one point per entry with its value; the label is 'Automática' for
      the key 'AUTOMATICA' and 'Manual' for any other key. */
  function RenewalSeries(d: seq<(string, int)>): (r: seq<Point>)
    ensures |r| == |d|
    ensures forall i :: 0 <= i < |d| ==> r[i].value == d[i].1
    ensures forall i :: 0 <= i < |d| ==>
      (r[i].category == "Automática" <==> d[i].0 == "AUTOMATICA") &&
      (r[i].category == "Manual" <==> d[i].0 != "AUTOMATICA")
  {
    Seqs.Map(d, (e: (string, int)) => Point(if e.0 == "AUTOMATICA" then "Automática" else "Manual", e.1))
  }

  function ChartsOf(cd: ChartData, time: string -> int): Charts
  {
    Charts(Series(cd.statusDistribution), Series(cd.procedureTypeDistribution),
           MonthlySeries(cd.monthlyApplications, time), RenewalSeries(cd.renewalTypeDistribution),
           Series(cd.serviceClassDistribution))
  }

  /** Every series has one point per entry of its distribution, the monthly one is in time
      order, and the renewal one only says 'Automática' or 'Manual'. */
  lemma ChartsSpec(cd: ChartData, time: string -> int)
    ensures var c := ChartsOf(cd, time);
      |c.status| == |cd.statusDistribution| && |c.procedure| == |cd.procedureTypeDistribution| &&
      |c.monthly| == |cd.monthlyApplications| && |c.renewal| == |cd.renewalTypeDistribution| &&
      |c.serviceClass| == |cd.serviceClassDistribution|
    ensures var m := ChartsOf(cd, time).monthly;
      forall i, j :: 0 <= i < j < |m| ==> time(m[i].category) <= time(m[j].category)
    ensures forall p :: p in ChartsOf(cd, time).renewal ==> p.category == "Automática" || p.category == "Manual"
  {
    MonthlySeriesSpec(cd.monthlyApplications, time);
  }

  /** The six KPI fields of the view, in order. */
  datatype Counters = Counters(total: int, pending: int, approved: int, rejected: int, automatic: int, manual: int)

  class ApplicationsDashboardComponent {
    var loading: bool
    var analytics: Option<Analytics>
    var totalApplications: int
    var pendingApplications: int
    var approvedApplications: int
    var rejectedApplications: int
    var automaticRenewals: int
    var manualApplications: int
    var applicantName: string
    var companyName: string
    var start: string
    var end: string
    var selectedFileStatus: JsValue
    var selectedProcedureType: JsValue
    var selectedCategory: JsValue
    var selectedRenewalState: JsValue
    var charts: Option<Charts>

    /** A fresh dashboard; `start` and `end` are the first of the month and today, given here. */
    constructor(startOfMonth: string, today: string)
      ensures !loading && analytics.None? && charts.None?
      ensures KpiValues() == Counters(0, 0, 0, 0, 0, 0)
      ensures CurrentForm() == Form(Str(""), Str(""), Str(""), Null, startOfMonth, today, "", "")
    {
      loading := false;
      analytics := None;
      totalApplications := 0;
      pendingApplications := 0;
      approvedApplications := 0;
      rejectedApplications := 0;
      automaticRenewals := 0;
      manualApplications := 0;
      applicantName := "";
      companyName := "";
      start := startOfMonth;
      end := today;
      selectedFileStatus := Str("");
      selectedProcedureType := Str("");
      selectedCategory := Str("");
      selectedRenewalState := Null;
      charts := None;
    }

    function KpiValues(): Counters
      reads this
    {
      Counters(totalApplications, pendingApplications, approvedApplications, rejectedApplications, automaticRenewals, manualApplications)
    }

    function CurrentForm(): Form
      reads this
    {
      Form(selectedFileStatus, selectedProcedureType, selectedCategory, selectedRenewalState, start, end, applicantName, companyName)
    }

    /** `filterDates`: the dates change only when both are given; nothing is fetched. */
    method FilterDates(startDate: Option<int>, endDate: Option<int>, format: int -> string)
      modifies this
      ensures startDate.Some? && endDate.Some? ==>
        CurrentForm() == old(CurrentForm()).(start := format(startDate.value), end := format(endDate.value))
      ensures !(startDate.Some? && endDate.Some?) ==> CurrentForm() == old(CurrentForm())
      ensures loading == old(loading) && analytics == old(analytics) && KpiValues() == old(KpiValues()) && charts == old(charts)
    {
      if startDate.Some? && endDate.Some? {
        start := format(startDate.value);
        end := format(endDate.value);
      }
    }

    /** `applyFilter`: a cleared selection becomes `''`; the renewal state is kept as given,
        `false` included, and only `''` becomes `null`. Any other type changes nothing. */
    method ApplyFilter(filterType: string, value: JsValue)
      modifies this
      ensures CurrentForm() == (match filterType
        case "fileStatus" => old(CurrentForm()).(fileStatus := Or(value, Str("")))
        case "procedureType" => old(CurrentForm()).(procedureType := Or(value, Str("")))
        case "category" => old(CurrentForm()).(category := Or(value, Str("")))
        case "renewalState" => old(CurrentForm()).(renewal := if value != Str("") then value else Null)
        case _ => old(CurrentForm()))
      ensures filterType == "renewalState" && value == Bool(false) ==> selectedRenewalState == Bool(false)
      ensures loading == old(loading) && analytics == old(analytics) && KpiValues() == old(KpiValues()) && charts == old(charts)
    {
      match filterType {
        case "fileStatus" => selectedFileStatus := Or(value, Str(""));
        case "procedureType" => selectedProcedureType := Or(value, Str(""));
        case "category" => selectedCategory := Or(value, Str(""));
        case "renewalState" => selectedRenewalState := if value != Str("") then value else Null;
        case _ =>
      }
    }

    /** `fetchDashboard`, the request half: only the date range is asked for. */
    method FetchDashboard() returns (query: Entries)
      modifies this
      ensures loading
      ensures query == ApplicationsQueries.Clean([("startDate", Str(start)), ("endDate", Str(end))])
      ensures CurrentForm() == old(CurrentForm()) && analytics == old(analytics)
      ensures KpiValues() == old(KpiValues()) && charts == old(charts)
    {
      loading := true;
      query := ApplicationsQueries.Clean([("startDate", Str(start)), ("endDate", Str(end))]);
    }

    /** `onSubmit`, the request half: the form's params without `undefined` entries, cleaned by
        the queries service. */
    method OnSubmit() returns (query: Entries)
      modifies this
      ensures loading && query == SubmitQuery(CurrentForm())
      ensures CurrentForm() == old(CurrentForm()) && analytics == old(analytics)
      ensures KpiValues() == old(KpiValues()) && charts == old(charts)
    {
      loading := true;
      var params := [
        ("fileStatus", Or(selectedFileStatus, Undefined)),
        ("procedureType", Or(selectedProcedureType, Undefined)),
        ("categoryId", Or(selectedCategory, Undefined)),
        ("startDate", Or(Str(start), Undefined)),
        ("endDate", Or(Str(end), Undefined)),
        ("applicantName", if applicantName != "" then Str(applicantName) else Undefined),
        ("companyName", if companyName != "" then Str(companyName) else Undefined),
        ("isAutomaticRenewal", if selectedRenewalState != Null then selectedRenewalState else Undefined)];
      assert params == SubmitParams(CurrentForm());
      var cleanedParams := DropUndefined(params);
      query := ApplicationsQueries.Clean(cleanedParams);
    }

    /** `updateKPIsFromAnalytics`: with a KPI block its six values are copied (the count in
        process is not shown); without one nothing changes. */
    method UpdateKpisFromAnalytics()
      modifies this
      ensures analytics.Some? && analytics.value.kpis.Some? ==>
        var k := analytics.value.kpis.value;
        KpiValues() == Counters(k.totalApplications, k.pendingApplications, k.approvedApplications,
                               k.rejectedApplications, k.automaticRenewals, k.manualApplications)
      ensures !(analytics.Some? && analytics.value.kpis.Some?) ==> KpiValues() == old(KpiValues())
      ensures loading == old(loading) && analytics == old(analytics) && CurrentForm() == old(CurrentForm()) && charts == old(charts)
    {
      if analytics.None? || analytics.value.kpis.None? {
        return;
      }
      var k := analytics.value.kpis.value;
      totalApplications := k.totalApplications;
      pendingApplications := k.pendingApplications;
      approvedApplications := k.approvedApplications;
      rejectedApplications := k.rejectedApplications;
      automaticRenewals := k.automaticRenewals;
      manualApplications := k.manualApplications;
    }

    /** `generateGraphsFromAnalytics`: with chart data the five series are rebuilt from it;
        without, the charts stay as they were. */
    method GenerateGraphsFromAnalytics(time: string -> int)
      modifies this
      ensures analytics.Some? && analytics.value.chartData.Some? ==> charts == Some(ChartsOf(analytics.value.chartData.value, time))
      ensures !(analytics.Some? && analytics.value.chartData.Some?) ==> charts == old(charts)
      ensures loading == old(loading) && analytics == old(analytics) && CurrentForm() == old(CurrentForm()) && KpiValues() == old(KpiValues())
    {
      if analytics.None? || analytics.value.chartData.None? {
        return;
      }
      var cd := analytics.value.chartData.value;
      var monthly := Series(cd.monthlyApplications);
      monthly := Seqs.SortBy(monthly, (p: Point) => time(p.category));
      charts := Some(Charts(Series(cd.statusDistribution), Series(cd.procedureTypeDistribution),
                            monthly, RenewalSeries(cd.renewalTypeDistribution), Series(cd.serviceClassDistribution)));
    }

    /** The analytics response of either request: it is stored, the KPIs and charts follow it,
        and loading ends. */
    method OnAnalytics(response: Option<Analytics>, time: string -> int)
      modifies this
      ensures analytics == response && !loading
      ensures response.Some? && response.value.kpis.Some? ==>
        var k := response.value.kpis.value;
        KpiValues() == Counters(k.totalApplications, k.pendingApplications, k.approvedApplications,
                               k.rejectedApplications, k.automaticRenewals, k.manualApplications)
      ensures !(response.Some? && response.value.kpis.Some?) ==> KpiValues() == old(KpiValues())
      ensures response.Some? && response.value.chartData.Some? ==> charts == Some(ChartsOf(response.value.chartData.value, time))
      ensures !(response.Some? && response.value.chartData.Some?) ==> charts == old(charts)
      ensures CurrentForm() == old(CurrentForm())
    {
      analytics := response;
      UpdateKpisFromAnalytics();
      GenerateGraphsFromAnalytics(time);
      loading := false;
    }
  }
}
