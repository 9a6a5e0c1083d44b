/** The fines dashboard: the KPIs and the four chart series computed from the fines, and the
    filter form. The chart series are group-bys; chart drawing is not part of this model. */
module FinesDashboard {
  import opened JsValues
  import opened Records
  import opened QueryParams
  import Seqs
  import Grouping

  predicate IsPaid(f: Fine) { f.fineStatus == Str("PAGADA") }
  predicate IsActive(f: Fine) { f.fineStatus == Str("ACTIVA") }

  function Amount(f: Fine): int { AmountOrZero(f.totalAmount) }

  /** `fines.filter(keep).reduce((sum, fine) => sum + (fine.totalAmount || 0), 0)` */
  function AmountWhere(fines: seq<Fine>, keep: Fine -> bool): int
  {
    Seqs.Sum(Seqs.Filter(fines, keep), Amount)
  }

  /** The status distribution: each fine counted under its status, 'DESCONOCIDO' when it has
      none. */
  function StatusDistribution(fines: seq<Fine>): Grouping.Groups
  {
    Grouping.GroupBy(fines, (f: Fine) => Grouping.KeyOr(f.fineStatus, "DESCONOCIDO"), (f: Fine) => 1)
  }

  /** Paid revenue by month; `month` stands for `moment(startDate).format('YYYY-MM')`. */
  function MonthlyRevenue(fines: seq<Fine>, month: JsValue -> string): Grouping.Groups
  {
    Grouping.GroupBy(Seqs.Filter(fines, IsPaid), (f: Fine) => month(f.startDate), Amount)
  }

  /** Debt by department: the active fines' amounts, 'DESCONOCIDO' for no department. */
  function DebtByDepartment(fines: seq<Fine>): Grouping.Groups
  {
    Grouping.GroupBy(Seqs.Filter(fines, IsActive), (f: Fine) => Grouping.KeyOr(f.department, "DESCONOCIDO"), Amount)
  }

  /** `generateFinesByDepartmentData`: amount and count per department ('NO DEFINIDO' for
      none) over the fines of the last twelve months; `inLastYear` stands for the window
      test. */
  function FinesByDepartment(fines: seq<Fine>, inLastYear: JsValue -> bool): Grouping.Groups
  {
    Grouping.GroupBy(Seqs.Filter(fines, (f: Fine) => inLastYear(f.startDate)),
                     (f: Fine) => Grouping.KeyOr(f.department, "NO DEFINIDO"), Amount)
  }

  /** The status chart counts every fine once: its slices add up to the number of fines,
      and each status appears once. */
  lemma StatusCountsAddUp(fines: seq<Fine>)
    ensures Grouping.CountOf(StatusDistribution(fines)) == |fines|
    ensures Grouping.DistinctKeys(StatusDistribution(fines))
  {
    Grouping.GroupTotals(fines, (f: Fine) => Grouping.KeyOr(f.fineStatus, "DESCONOCIDO"), (f: Fine) => 1);
    Grouping.GroupKeys(fines, (f: Fine) => Grouping.KeyOr(f.fineStatus, "DESCONOCIDO"), (f: Fine) => 1);
  }

  /** The debt chart splits the amount due among departments: its bars add up to the
      `totalAmountDue` KPI, and each bar holds exactly its department's active fines. */
  lemma DebtChartMatchesAmountDue(fines: seq<Fine>)
    ensures Grouping.SumOf(DebtByDepartment(fines)) == AmountWhere(fines, IsActive)
    ensures var g := DebtByDepartment(fines);
      forall i :: 0 <= i < |g| ==>
        g[i].1.sum == Seqs.Sum(Grouping.Under(Seqs.Filter(fines, IsActive), (f: Fine) => Grouping.KeyOr(f.department, "DESCONOCIDO"), g[i].0), Amount)
  {
    var key := (f: Fine) => Grouping.KeyOr(f.department, "DESCONOCIDO");
    Grouping.GroupTotals(Seqs.Filter(fines, IsActive), key, Amount);
    Grouping.GroupPerKey(Seqs.Filter(fines, IsActive), key, Amount);
  }

  /** The monthly revenue adds up to the paid amount over all fines. */
  lemma MonthlyRevenueAddsUp(fines: seq<Fine>, month: JsValue -> string)
    ensures Grouping.SumOf(MonthlyRevenue(fines, month)) == AmountWhere(fines, IsPaid)
  {
    Grouping.GroupTotals(Seqs.Filter(fines, IsPaid), (f: Fine) => month(f.startDate), Amount);
  }

  /** The department counts add up to the number of fines inside the window, the amounts to
      their total, and each department appears once. */
  lemma FinesByDepartmentAddsUp(fines: seq<Fine>, inLastYear: JsValue -> bool)
    ensures var window := Seqs.Filter(fines, (f: Fine) => inLastYear(f.startDate));
      Grouping.CountOf(FinesByDepartment(fines, inLastYear)) == |window| &&
      Grouping.SumOf(FinesByDepartment(fines, inLastYear)) == Seqs.Sum(window, Amount)
    ensures Grouping.DistinctKeys(FinesByDepartment(fines, inLastYear))
  {
    var window := Seqs.Filter(fines, (f: Fine) => inLastYear(f.startDate));
    var key := (f: Fine) => Grouping.KeyOr(f.department, "NO DEFINIDO");
    Grouping.GroupTotals(window, key, Amount);
    Grouping.GroupKeys(window, key, Amount);
  }

  /** With no negative amount, the paid revenue and the amount due are never negative and
      never exceed the amount of all fines considered. */
  lemma AmountWhereBounded(fines: seq<Fine>, keep: Fine -> bool)
    requires forall i :: 0 <= i < |fines| ==> Amount(fines[i]) >= 0
    ensures 0 <= AmountWhere(fines, keep) <= Seqs.Sum(fines, Amount)
  {
    Seqs.FilterSumBounded(fines, keep, Amount);
  }

  class FinesDashboardComponent {
    var fines: seq<Fine>
    var filteredFines: seq<Fine>
    var loading: bool
    var totalFines: int
    var totalFineRevenue: int
    var activeFines: int
    var totalAmountDue: int
    var selectedRegion: string
    var selectedDepartment: string
    var selectedStatus: string
    var startDate: string
    var endDate: string

    constructor(start: string, end: string)
      ensures fines == [] && filteredFines == [] && !loading
      ensures totalFines == 0 && totalFineRevenue == 0 && activeFines == 0 && totalAmountDue == 0
      ensures selectedRegion == "" && selectedDepartment == "" && selectedStatus == ""
      ensures startDate == start && endDate == end
    {
      fines := [];
      filteredFines := [];
      loading := false;
      totalFines := 0;
      totalFineRevenue := 0;
      activeFines := 0;
      totalAmountDue := 0;
      selectedRegion := "";
      selectedDepartment := "";
      selectedStatus := "";
      startDate := start;
      endDate := end;
    }

    /** `calculateKPIs`: the count and paid revenue of the filtered fines, and the count and
        amount due of the active fines among all fines, whatever the filters. */
    method CalculateKpis()
      modifies this
      ensures totalFines == |filteredFines|
      ensures totalFineRevenue == AmountWhere(filteredFines, IsPaid)
      ensures activeFines == |Seqs.Filter(fines, IsActive)|
      ensures totalAmountDue == AmountWhere(fines, IsActive)
      ensures fines == old(fines) && filteredFines == old(filteredFines) && loading == old(loading)
      ensures selectedRegion == old(selectedRegion) && selectedDepartment == old(selectedDepartment)
      ensures selectedStatus == old(selectedStatus) && startDate == old(startDate) && endDate == old(endDate)
    {
      var revenue := AmountWhere(filteredFines, IsPaid);
      var active := |Seqs.Filter(fines, IsActive)|;
      var due := AmountWhere(fines, IsActive);
      totalFines := |filteredFines|;
      totalFineRevenue := revenue;
      activeFines := active;
      totalAmountDue := due;
    }

    /** `applyFilter`: only 'department' and 'region' are handled; the status selection is
        never changed here. */
    method ApplyFilter(filterType: string, value: Option<string>)
      modifies this
      ensures filterType == "department" ==> selectedDepartment == OrEmpty(value) && selectedRegion == old(selectedRegion)
      ensures filterType == "region" ==> selectedRegion == OrEmpty(value) && selectedDepartment == old(selectedDepartment)
      ensures filterType != "department" && filterType != "region" ==>
        selectedDepartment == old(selectedDepartment) && selectedRegion == old(selectedRegion)
      ensures selectedStatus == old(selectedStatus)
      ensures fines == old(fines) && filteredFines == old(filteredFines) && loading == old(loading)
      ensures totalFines == old(totalFines) && totalFineRevenue == old(totalFineRevenue)
      ensures activeFines == old(activeFines) && totalAmountDue == old(totalAmountDue)
      ensures startDate == old(startDate) && endDate == old(endDate)
    {
      match filterType {
        case "department" => selectedDepartment := OrEmpty(value);
        case "region" => selectedRegion := OrEmpty(value);
        case _ =>
      }
    }

    /** `filterDates`: the dates change only when both are given. */
    method FilterDates(start: Option<int>, end: Option<int>, format: int -> string)
      modifies this
      ensures start.Some? && end.Some? ==> startDate == format(start.value) && endDate == format(end.value)
      ensures !(start.Some? && end.Some?) ==> startDate == old(startDate) && endDate == old(endDate)
      ensures fines == old(fines) && filteredFines == old(filteredFines) && loading == old(loading)
      ensures totalFines == old(totalFines) && totalFineRevenue == old(totalFineRevenue)
      ensures activeFines == old(activeFines) && totalAmountDue == old(totalAmountDue)
      ensures selectedRegion == old(selectedRegion) && selectedDepartment == old(selectedDepartment)
      ensures selectedStatus == old(selectedStatus)
    {
      if start.Some? && end.Some? {
        startDate := format(start.value);
        endDate := format(end.value);
      }
    }

    /** `onSubmit`, the request half: the dates are always sent, even empty; the selections
        only when set. */
    method OnSubmit() returns (req: Entries)
      modifies this
      ensures loading
      ensures req == DropUndefined([
        ("startDate", Str(startDate)), ("endDate", Str(endDate)),
        ("region", OrUndefined(selectedRegion)), ("department", OrUndefined(selectedDepartment)),
        ("status", OrUndefined(selectedStatus))])
      ensures HasKey(req, "startDate") && HasKey(req, "endDate")
      ensures HasKey(req, "region") <==> selectedRegion != ""
      ensures fines == old(fines) && filteredFines == old(filteredFines)
      ensures totalFines == old(totalFines) && totalFineRevenue == old(totalFineRevenue)
      ensures activeFines == old(activeFines) && totalAmountDue == old(totalAmountDue)
      ensures selectedRegion == old(selectedRegion) && selectedDepartment == old(selectedDepartment)
      ensures selectedStatus == old(selectedStatus) && startDate == old(startDate) && endDate == old(endDate)
    {
      loading := true;
      var params := [
        ("startDate", Str(startDate)), ("endDate", Str(endDate)),
        ("region", Or(Str(selectedRegion), Undefined)), ("department", Or(Str(selectedDepartment), Undefined)),
        ("status", Or(Str(selectedStatus), Undefined))];
      TableEntrySent(params, 0);
      TableEntrySent(params, 1);
      TableEntrySent(params, 2);
      req := DropUndefined(params);
    }

    /** The response to a search replaces only the filtered fines; all fines, which feed the
        active KPIs and the charts, stay as they were. */
    method OnSubmitResponse(data: seq<Fine>)
      modifies this
      ensures filteredFines == data && fines == old(fines) && !loading
      ensures totalFines == |data| && totalFineRevenue == AmountWhere(data, IsPaid)
      ensures activeFines == |Seqs.Filter(fines, IsActive)| && totalAmountDue == AmountWhere(fines, IsActive)
      ensures selectedRegion == old(selectedRegion) && selectedDepartment == old(selectedDepartment)
      ensures selectedStatus == old(selectedStatus) && startDate == old(startDate) && endDate == old(endDate)
    {
      filteredFines := data;
      CalculateKpis();
      loading := false;
    }

    /** `fetchFines`, the request half: all fines, with no parameter. */
    method FetchFines() returns (req: Entries)
      modifies this
      ensures loading && req == []
      ensures fines == old(fines) && filteredFines == old(filteredFines)
      ensures totalFines == old(totalFines) && totalFineRevenue == old(totalFineRevenue)
      ensures activeFines == old(activeFines) && totalAmountDue == old(totalAmountDue)
      ensures selectedRegion == old(selectedRegion) && selectedDepartment == old(selectedDepartment)
      ensures selectedStatus == old(selectedStatus) && startDate == old(startDate) && endDate == old(endDate)
    {
      loading := true;
      req := [];
    }

    /** The response to `fetchFines`: all fines are stored, the filtered ones are those
        whose date lies strictly between the chosen dates (`between` stands for moment's
        `isBetween`), then the KPIs are computed. */
    method OnFetchResponse(data: seq<Fine>, between: JsValue -> bool)
      modifies this
      ensures fines == data
      ensures filteredFines == Seqs.Filter(data, (f: Fine) => between(f.startDate))
      ensures Seqs.IsSubsequence(filteredFines, fines)
      ensures totalFines == |filteredFines| && totalFineRevenue == AmountWhere(filteredFines, IsPaid)
      ensures activeFines == |Seqs.Filter(fines, IsActive)| && totalAmountDue == AmountWhere(fines, IsActive)
      ensures !loading
      ensures selectedRegion == old(selectedRegion) && selectedDepartment == old(selectedDepartment)
      ensures selectedStatus == old(selectedStatus) && startDate == old(startDate) && endDate == old(endDate)
    {
      fines := data;
      filteredFines := Seqs.Filter(fines, (f: Fine) => between(f.startDate));
      Seqs.FilterIsSubsequence(fines, (f: Fine) => between(f.startDate));
      CalculateKpis();
      loading := false;
    }
  }
}
