/** The eventual-permits dashboard: a filter form whose values go to the analytics query, five
    KPIs copied from the analytics response, and five chart series built from it. */
module EventualPermitsDashboard {
  import opened JsValues
  import opened QueryParams
  import opened ChartSeries

  /** The form: two selections, the dates and their type, and two text fields. */
  datatype Form = Form(
    permitStatus: string, serviceType: string, start: string, end: string, dateType: string,
    rtn: string, applicantName: string)

  /** The `params` object of `onSubmit`, `undefined` entries included. */
  function SubmitParams(f: Form): Entries
  {
    [("permitStatus", OrUndefined(f.permitStatus)),
     ("serviceType", OrUndefined(f.serviceType)),
     ("startDate", OrUndefined(f.start)),
     ("endDate", OrUndefined(f.end)),
     ("dateType", OrUndefined(f.dateType)),
     ("rtn", OrUndefined(f.rtn)),
     ("applicantName", OrUndefined(f.applicantName))]
  }

  /** Entry `i` of the params is sent exactly when it is not empty, with its text. */
  lemma SubmitRequestEntry(f: Form, i: nat)
    requires i < 7
    ensures var t := SubmitParams(f);
      (HasKey(DropUndefined(t), t[i].0) <==> t[i].1 != Undefined) && Lookup(DropUndefined(t), t[i].0) == t[i].1
  {
    TableEntrySent(SubmitParams(f), i);
  }

  /** The search omits every empty selection and text field, and sends the others as they
      are. */
  lemma SubmitRequestSendsSetFilters(f: Form)
    ensures HasKey(DropUndefined(SubmitParams(f)), "permitStatus") <==> f.permitStatus != ""
    ensures HasKey(DropUndefined(SubmitParams(f)), "serviceType") <==> f.serviceType != ""
    ensures HasKey(DropUndefined(SubmitParams(f)), "rtn") <==> f.rtn != ""
    ensures HasKey(DropUndefined(SubmitParams(f)), "applicantName") <==> f.applicantName != ""
    ensures Lookup(DropUndefined(SubmitParams(f)), "rtn") == OrUndefined(f.rtn)
    ensures Lookup(DropUndefined(SubmitParams(f)), "applicantName") == OrUndefined(f.applicantName)
    ensures Lookup(DropUndefined(SubmitParams(f)), "dateType") == OrUndefined(f.dateType)
  {
    SubmitRequestEntry(f, 0);
    SubmitRequestEntry(f, 1);
    SubmitRequestEntry(f, 4);
    SubmitRequestEntry(f, 5);
    SubmitRequestEntry(f, 6);
  }

  /** The KPI block of an analytics response. */
  datatype Kpis = Kpis(totalPermits: int, totalRevenue: int, activePermits: int, processedPermits: int, cancelledPermits: int)

  /** The distributions of an analytics response, as `Object.entries` lists them. */
  datatype ChartData = ChartData(
    statusDistribution: seq<(string, int)>, revenueByStatus: seq<(string, int)>,
    serviceTypeDistribution: seq<(string, int)>, monthlyRevenue: seq<(string, int)>,
    regionalOfficeDistribution: seq<(string, int)>)

  /** An analytics response; either block may be missing. */
  datatype Analytics = Analytics(kpis: Option<Kpis>, chartData: Option<ChartData>)

  /** The five series handed to the charts. */
  datatype Charts = Charts(status: seq<Point>, revenueByStatus: seq<Point>, serviceType: seq<Point>, monthlyRevenue: seq<Point>, regionalOffice: seq<Point>)

  function ChartsOf(cd: ChartData, time: string -> int): Charts
  {
    Charts(Series(cd.statusDistribution), Series(cd.revenueByStatus), Series(cd.serviceTypeDistribution),
           MonthlySeries(cd.monthlyRevenue, time), Series(cd.regionalOfficeDistribution))
  }

  /** Every series has one point per entry of its distribution, and the monthly one is in
      time order. */
  lemma ChartsSpec(cd: ChartData, time: string -> int)
    ensures var c := ChartsOf(cd, time);
      |c.status| == |cd.statusDistribution| && |c.revenueByStatus| == |cd.revenueByStatus| &&
      |c.serviceType| == |cd.serviceTypeDistribution| && |c.monthlyRevenue| == |cd.monthlyRevenue| &&
      |c.regionalOffice| == |cd.regionalOfficeDistribution|
    ensures var m := ChartsOf(cd, time).monthlyRevenue;
      forall i, j :: 0 <= i < j < |m| ==> time(m[i].category) <= time(m[j].category)
  {
    MonthlySeriesSpec(cd.monthlyRevenue, time);
  }

  /** The five KPI fields of the view, in order. */
  datatype Counters = Counters(total: int, revenue: int, active: int, processed: int, cancelled: int)

  class EventualPermitsDashboardComponent {
    var loading: bool
    var analytics: Option<Analytics>
    var totalPermits: int
    var totalRevenue: int
    var activePermits: int
    var processedPermits: int
    var cancelledPermits: int
    var rtn: string
    var applicantName: string
    var start: string
    var end: string
    var dateType: string
    var selectedPermitStatus: string
    var selectedServiceType: string
    var charts: Option<Charts>

    /** A fresh dashboard; `start` and `end` are the first of the month and today, given here. */
    constructor(startOfMonth: string, today: string)
      ensures !loading && analytics.None? && charts.None?
      ensures KpiValues() == Counters(0, 0, 0, 0, 0)
      ensures CurrentForm() == Form("", "", startOfMonth, today, "system", "", "")
    {
      loading := false;
      analytics := None;
      totalPermits := 0;
      totalRevenue := 0;
      activePermits := 0;
      processedPermits := 0;
      cancelledPermits := 0;
      rtn := "";
      applicantName := "";
      start := startOfMonth;
      end := today;
      dateType := "system";
      selectedPermitStatus := "";
      selectedServiceType := "";
      charts := None;
    }

    function KpiValues(): Counters
      reads this
    {
      Counters(totalPermits, totalRevenue, activePermits, processedPermits, cancelledPermits)
    }

    function CurrentForm(): Form
      reads this
    {
      Form(selectedPermitStatus, selectedServiceType, start, end, dateType, rtn, applicantName)
    }

    /** `filterDates`: with both dates given they are stored and the date type is forced to
        'system', whatever the date filter sent; otherwise nothing changes. */
    method FilterDates(startDate: Option<int>, endDate: Option<int>, sentType: Option<string>, format: int -> string)
      modifies this
      ensures startDate.Some? && endDate.Some? ==>
        CurrentForm() == old(CurrentForm()).(start := format(startDate.value), end := format(endDate.value), dateType := "system")
      ensures !(startDate.Some? && endDate.Some?) ==> CurrentForm() == old(CurrentForm())
      ensures loading == old(loading) && analytics == old(analytics) && KpiValues() == old(KpiValues()) && charts == old(charts)
    {
      if startDate.Some? && endDate.Some? {
        start := format(startDate.value);
        end := format(endDate.value);
        dateType := "system";
      }
    }

    /** `applyFilter`: 'permitStatus' and 'serviceType' set their selection (`''` when
        cleared); any other type changes nothing. */
    method ApplyFilter(filterType: string, value: Option<string>)
      modifies this
      ensures CurrentForm() == (match filterType
        case "permitStatus" => old(CurrentForm()).(permitStatus := OrEmpty(value))
        case "serviceType" => old(CurrentForm()).(serviceType := OrEmpty(value))
        case _ => old(CurrentForm()))
      ensures loading == old(loading) && analytics == old(analytics) && KpiValues() == old(KpiValues()) && charts == old(charts)
    {
      match filterType {
        case "permitStatus" => selectedPermitStatus := OrEmpty(value);
        case "serviceType" => selectedServiceType := OrEmpty(value);
        case _ =>
      }
    }

    /** `fetchDashboard`, the request half: the date range and its type, as they are. */
    method FetchDashboard() returns (req: Entries)
      modifies this
      ensures loading && req == [("startDate", Str(start)), ("endDate", Str(end)), ("dateType", Str(dateType))]
      ensures CurrentForm() == old(CurrentForm()) && analytics == old(analytics)
      ensures KpiValues() == old(KpiValues()) && charts == old(charts)
    {
      loading := true;
      req := [("startDate", Str(start)), ("endDate", Str(end)), ("dateType", Str(dateType))];
    }

    /** `onSubmit`, the request half: the form's params without `undefined` entries. */
    method OnSubmit() returns (req: Entries)
      modifies this
      ensures loading && req == DropUndefined(SubmitParams(CurrentForm()))
      ensures CurrentForm() == old(CurrentForm()) && analytics == old(analytics)
      ensures KpiValues() == old(KpiValues()) && charts == old(charts)
    {
      loading := true;
      var params := [
        ("permitStatus", Or(Str(selectedPermitStatus), Undefined)),
        ("serviceType", Or(Str(selectedServiceType), Undefined)),
        ("startDate", Or(Str(start), Undefined)),
        ("endDate", Or(Str(end), Undefined)),
        ("dateType", Or(Str(dateType), Undefined)),
        ("rtn", if rtn != "" then Str(rtn) else Undefined),
        ("applicantName", if applicantName != "" then Str(applicantName) else Undefined)];
      assert params == SubmitParams(CurrentForm());
      req := DropUndefined(params);
    }

    /** `updateKPIsFromAnalytics`: with a KPI block its five values are copied; without one
        nothing changes. */
    method UpdateKpisFromAnalytics()
      modifies this
      ensures analytics.Some? && analytics.value.kpis.Some? ==>
        var k := analytics.value.kpis.value;
        KpiValues() == Counters(k.totalPermits, k.totalRevenue, k.activePermits, k.processedPermits, k.cancelledPermits)
      ensures !(analytics.Some? && analytics.value.kpis.Some?) ==> KpiValues() == old(KpiValues())
      ensures loading == old(loading) && analytics == old(analytics) && CurrentForm() == old(CurrentForm()) && charts == old(charts)
    {
      if analytics.None? || analytics.value.kpis.None? {
        return;
      }
      var k := analytics.value.kpis.value;
      totalPermits := k.totalPermits;
      totalRevenue := k.totalRevenue;
      activePermits := k.activePermits;
      processedPermits := k.processedPermits;
      cancelledPermits := k.cancelledPermits;
    }

    /** `generateGraphsFromAnalytics`: with chart data the five series are rebuilt from it;
        without, the charts stay as they were. */
    method GenerateGraphsFromAnalytics(time: string -> int)
      modifies this
      ensures analytics.Some? && analytics.value.chartData.Some? ==> charts == Some(ChartsOf(analytics.value.chartData.value, time))
      ensures !(analytics.Some? && analytics.value.chartData.Some?) ==> charts == old(charts)
      ensures loading == old(loading) && analytics == old(analytics) && CurrentForm() == old(CurrentForm()) && KpiValues() == old(KpiValues())
    {
      if analytics.None? || analytics.value.chartData.None? {
        return;
      }
      charts := Some(ChartsOf(analytics.value.chartData.value, time));
    }

    /** The analytics response of either request: it is stored, the KPIs and charts follow it,
        and loading ends. */
    method OnAnalytics(response: Option<Analytics>, time: string -> int)
      modifies this
      ensures analytics == response && !loading
      ensures response.Some? && response.value.kpis.Some? ==>
        var k := response.value.kpis.value;
        KpiValues() == Counters(k.totalPermits, k.totalRevenue, k.activePermits, k.processedPermits, k.cancelledPermits)
      ensures !(response.Some? && response.value.kpis.Some?) ==> KpiValues() == old(KpiValues())
      ensures response.Some? && response.value.chartData.Some? ==> charts == Some(ChartsOf(response.value.chartData.value, time))
      ensures !(response.Some? && response.value.chartData.Some?) ==> charts == old(charts)
      ensures CurrentForm() == old(CurrentForm())
    {
      analytics := response;
      UpdateKpisFromAnalytics();
      GenerateGraphsFromAnalytics(time);
      loading := false;
    }
  }
}
