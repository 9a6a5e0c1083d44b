/** The school certificates details view: certificates loaded page by page, a search form
    with a date type and four selections, and a category autocomplete. */
module SchoolCertificatesDetails {
  import opened JsValues
  import opened Records
  import opened QueryParams
  import opened Paging
  import Catalogue

  /** The category catalogue the autocomplete narrows. */
  const Categories: seq<string> := [
    "VEHICULO DE CARGA NO ARTICULADA",
    "BUS URBANO E INTERURBANO",
    "VEHICULO DE CARGA ARTICULADA",
    "TAXI",
    "VEHICULO DE CARGA ESPECIALIZADA",
    "BUS INTERNACIONAL",
    "BUS ESCOLAR",
    "INSTRUCTOR PRÁCTICO",
    "INSTRUCTOR TEÓRICO",
    "MOTOTAXI",
    "VEHICULO DE CARGA NO ARTICULADA MAYOR A 7,500 kg",
    "BUS URBANO E INTERURBANO HASTA 30 PASAJEROS"]

  /** The search form; every field is `''` when unset except the date type. */
  datatype Filters = Filters(
    start: string, end: string, dateType: string, noticeStatus: string,
    transportType: string, category: string, certificateType: string, searchTerm: string)

  /** The `params` object of `onSubmit`, `undefined` entries included. */
  function SubmitParams(f: Filters): Entries
  {
    [("paginated", Str("true")),
     ("page", Num(1)),
     ("startDate", OrUndefined(f.start)),
     ("endDate", OrUndefined(f.end)),
     ("dateType", OrUndefined(f.dateType)),
     ("noticeStatus", OrUndefined(f.noticeStatus)),
     ("transportType", OrUndefined(f.transportType)),
     ("categoryDescription", OrUndefined(f.category)),
     ("type", OrUndefined(f.certificateType)),
     ("searchTerm", OrUndefined(f.searchTerm))]
  }

  /** The search request names every set filter under its backend key and leaves out every
      unset one. */
  lemma SubmitRequestSendsSetFilters(f: Filters)
    ensures DistinctKeys(SubmitParams(f))
    ensures Lookup(DropUndefined(SubmitParams(f)), "page") == Num(1)
    ensures Lookup(DropUndefined(SubmitParams(f)), "dateType") == OrUndefined(f.dateType)
    ensures Lookup(DropUndefined(SubmitParams(f)), "noticeStatus") == OrUndefined(f.noticeStatus)
    ensures Lookup(DropUndefined(SubmitParams(f)), "transportType") == OrUndefined(f.transportType)
    ensures Lookup(DropUndefined(SubmitParams(f)), "categoryDescription") == OrUndefined(f.category)
    ensures Lookup(DropUndefined(SubmitParams(f)), "type") == OrUndefined(f.certificateType)
    ensures Lookup(DropUndefined(SubmitParams(f)), "searchTerm") == OrUndefined(f.searchTerm)
    ensures HasKey(DropUndefined(SubmitParams(f)), "searchTerm") <==> f.searchTerm != ""
  {
    var t := SubmitParams(f);
    TableEntrySent(t, 1);
    TableEntrySent(t, 4);
    TableEntrySent(t, 5);
    TableEntrySent(t, 6);
    TableEntrySent(t, 7);
    TableEntrySent(t, 8);
    TableEntrySent(t, 9);
  }

  /** Once a search is stored, every later load asks for page 1. */
  lemma LoadsAfterSubmitAskPageOne(f: Filters, backendPage: int)
    ensures Lookup(LoadRequest(Str("true"), backendPage, SubmitParams(f)), "page") == Num(1)
  {
    SubmitRequestSendsSetFilters(f);
    LookupAt(SubmitParams(f), 1);
    StoredPageOverridesCursor(Str("true"), backendPage, SubmitParams(f));
  }

  /** `getDate`: a missing or empty date prints as 'NO DISPONIBLE'; `format` stands for the
      `DD/MM/YYYY` formatting. */
  function GetDate(date: Option<string>, format: string -> string): (r: string)
    ensures (date.None? || date.value == "") ==> r == "NO DISPONIBLE"
    ensures date.Some? && date.value != "" ==> r == format(date.value)
  {
    if date.None? || date.value == "" then "NO DISPONIBLE" else format(date.value)
  }

  /** `formatCurrency`: a missing or zero amount prints as 'L. 0.00'; `locale` stands for the
      `es-HN` two-decimal formatting. */
  function FormatCurrency(amount: Option<int>, locale: int -> string): (r: string)
    ensures (amount.None? || amount.value == 0) ==> r == "L. 0.00"
    ensures StartsWith(r, "L. ")
  {
    if amount.None? || amount.value == 0 then "L. 0.00" else "L. " + locale(amount.value)
  }

  class SchoolCertificatesDetailsComponent {
    var schoolCertificates: seq<SchoolCertificate>
    var page: int
    var backendPage: int
    var totalCertificates: int
    var isLoading: bool
    var globalParams: Entries
    var filters: Filters
    var categories: seq<string>
    var filteredCategories: seq<string>

    constructor(start: string, end: string)
      ensures schoolCertificates == [] && page == 1 && backendPage == 1 && totalCertificates == 0
      ensures !isLoading && globalParams == []
      ensures filters == Filters(start, end, "issueDate", "", "", "", "", "")
      ensures categories == Categories && filteredCategories == Categories
    {
      schoolCertificates := [];
      page := 1;
      backendPage := 1;
      totalCertificates := 0;
      isLoading := false;
      globalParams := [];
      filters := Filters(start, end, "issueDate", "", "", "", "", "");
      categories := Categories;
      filteredCategories := categories;
    }

    /** `filterCategories`: only the suggestion list changes. */
    method FilterCategories(value: string)
      modifies this
      ensures filteredCategories == Catalogue.FilterCategories(categories, value)
      ensures categories == old(categories)
      ensures schoolCertificates == old(schoolCertificates) && page == old(page) && backendPage == old(backendPage)
      ensures totalCertificates == old(totalCertificates) && isLoading == old(isLoading)
      ensures globalParams == old(globalParams) && filters == old(filters)
    {
      if value == "" {
        filteredCategories := categories;
        return;
      }
      filteredCategories := Catalogue.FilterCategories(categories, value);
    }

    /** `filterDates`: the dates change only when both are given (`format` stands for the
        `YYYY-MM-DD` formatting); a non-empty date type is taken either way. */
    method FilterDates(startDate: Option<int>, endDate: Option<int>, dateType: Option<string>, format: int -> string)
      modifies this
      ensures startDate.Some? && endDate.Some? ==>
        filters.start == format(startDate.value) && filters.end == format(endDate.value)
      ensures !(startDate.Some? && endDate.Some?) ==>
        filters.start == old(filters.start) && filters.end == old(filters.end)
      ensures filters.dateType == (if dateType.Some? && dateType.value != "" then dateType.value else old(filters.dateType))
      ensures filters.noticeStatus == old(filters.noticeStatus) && filters.transportType == old(filters.transportType)
      ensures filters.category == old(filters.category) && filters.certificateType == old(filters.certificateType)
      ensures filters.searchTerm == old(filters.searchTerm)
      ensures schoolCertificates == old(schoolCertificates) && page == old(page) && backendPage == old(backendPage)
      ensures totalCertificates == old(totalCertificates) && isLoading == old(isLoading)
      ensures globalParams == old(globalParams) && filteredCategories == old(filteredCategories) && categories == old(categories)
    {
      if startDate.Some? && endDate.Some? {
        filters := filters.(start := format(startDate.value), end := format(endDate.value));
      }
      if dateType.Some? && dateType.value != "" {
        filters := filters.(dateType := dateType.value);
      }
    }

    /** `applyFilter`: the selection named by `filterType` takes the value (`''` when cleared);
        any other name changes nothing. */
    method ApplyFilter(filterType: string, value: Option<string>)
      modifies this
      ensures filterType == "noticeStatus" ==> filters == old(filters).(noticeStatus := OrEmpty(value))
      ensures filterType == "transportType" ==> filters == old(filters).(transportType := OrEmpty(value))
      ensures filterType == "categoryDescription" ==> filters == old(filters).(category := OrEmpty(value))
      ensures filterType == "type" ==> filters == old(filters).(certificateType := OrEmpty(value))
      ensures filterType == "searchTerm" ==> filters == old(filters).(searchTerm := OrEmpty(value))
      ensures filterType !in {"noticeStatus", "transportType", "categoryDescription", "type", "searchTerm"} ==>
        filters == old(filters)
      ensures schoolCertificates == old(schoolCertificates) && page == old(page) && backendPage == old(backendPage)
      ensures totalCertificates == old(totalCertificates) && isLoading == old(isLoading)
      ensures globalParams == old(globalParams) && filteredCategories == old(filteredCategories) && categories == old(categories)
    {
      match filterType {
        case "noticeStatus" => filters := filters.(noticeStatus := OrEmpty(value));
        case "transportType" => filters := filters.(transportType := OrEmpty(value));
        case "categoryDescription" => filters := filters.(category := OrEmpty(value));
        case "type" => filters := filters.(certificateType := OrEmpty(value));
        case "searchTerm" => filters := filters.(searchTerm := OrEmpty(value));
        case _ =>
      }
    }

    /** `loadSchoolCertificates`, the request half. */
    method LoadSchoolCertificates() returns (req: Entries)
      modifies this
      ensures isLoading
      ensures req == LoadRequest(Str("true"), backendPage, globalParams)
      ensures schoolCertificates == old(schoolCertificates) && page == old(page) && backendPage == old(backendPage)
      ensures totalCertificates == old(totalCertificates) && globalParams == old(globalParams)
      ensures filters == old(filters) && filteredCategories == old(filteredCategories) && categories == old(categories)
    {
      isLoading := true;
      req := DropUndefined(Spread([("paginated", Str("true")), ("page", Num(backendPage))], globalParams));
    }

    /** `updateDisplayedCertificates`: a load starts exactly at the end of the loaded list,
        with more remaining and none running. */
    method UpdateDisplayedCertificates() returns (req: Option<Entries>)
      modifies this
      ensures req.Some? <==> NeedsMore(page, |schoolCertificates|, totalCertificates, old(isLoading))
      ensures req.Some? ==> isLoading && req.value == LoadRequest(Str("true"), backendPage, globalParams)
      ensures req.None? ==> isLoading == old(isLoading)
      ensures schoolCertificates == old(schoolCertificates) && page == old(page) && backendPage == old(backendPage)
      ensures totalCertificates == old(totalCertificates) && globalParams == old(globalParams)
      ensures filters == old(filters) && filteredCategories == old(filteredCategories) && categories == old(categories)
    {
      var startIndex := (page - 1) * ItemsPerPage;
      var endIndex := startIndex + ItemsPerPage;
      if endIndex >= |schoolCertificates| && |schoolCertificates| < totalCertificates && !isLoading {
        var r := LoadSchoolCertificates();
        req := Some(r);
      } else {
        req := None;
      }
    }

    /** The success callback of a load: append, store the total, re-check with the flag up,
        lower the flag, advance the cursor while certificates remain. */
    method OnLoadSuccess(data: seq<SchoolCertificate>, total: int) returns (next: Option<Entries>)
      modifies this
      ensures schoolCertificates == old(schoolCertificates) + data
      ensures totalCertificates == total && !isLoading
      ensures backendPage == NextBackendPage(old(backendPage), |schoolCertificates|, total)
      ensures old(isLoading) ==> next.None?
      ensures next.Some? <==> NeedsMore(page, |schoolCertificates|, total, old(isLoading))
      ensures next.Some? ==> next.value == LoadRequest(Str("true"), old(backendPage), globalParams)
      ensures page == old(page) && globalParams == old(globalParams)
      ensures filters == old(filters) && filteredCategories == old(filteredCategories) && categories == old(categories)
    {
      schoolCertificates := schoolCertificates + data;
      totalCertificates := total;
      next := UpdateDisplayedCertificates();
      isLoading := false;
      if |schoolCertificates| < totalCertificates {
        backendPage := backendPage + 1;
      }
    }

    method OnLoadError()
      modifies this
      ensures !isLoading
      ensures schoolCertificates == old(schoolCertificates) && page == old(page) && backendPage == old(backendPage)
      ensures totalCertificates == old(totalCertificates) && globalParams == old(globalParams)
      ensures filters == old(filters) && filteredCategories == old(filteredCategories) && categories == old(categories)
    {
      isLoading := false;
    }

    method OnPageChange(p: int) returns (req: Option<Entries>)
      modifies this
      ensures page == p
      ensures req.Some? <==> NeedsMore(p, |schoolCertificates|, totalCertificates, old(isLoading))
      ensures req.Some? ==> isLoading && req.value == LoadRequest(Str("true"), backendPage, globalParams)
      ensures req.None? ==> isLoading == old(isLoading)
      ensures schoolCertificates == old(schoolCertificates) && backendPage == old(backendPage)
      ensures totalCertificates == old(totalCertificates) && globalParams == old(globalParams)
      ensures filters == old(filters) && filteredCategories == old(filteredCategories) && categories == old(categories)
    {
      page := p;
      req := UpdateDisplayedCertificates();
    }

    /** `onSubmit`, the request half: both pages go back to 1; `params` is stored only by the
        success callback. */
    method OnSubmit() returns (params: Entries, req: Entries)
      modifies this
      ensures isLoading && page == 1 && backendPage == 1
      ensures params == SubmitParams(filters) && req == DropUndefined(params)
      ensures schoolCertificates == old(schoolCertificates) && totalCertificates == old(totalCertificates)
      ensures globalParams == old(globalParams) && filters == old(filters)
      ensures filteredCategories == old(filteredCategories) && categories == old(categories)
    {
      isLoading := true;
      page := 1;
      backendPage := 1;
      params := [
        ("paginated", Str("true")),
        ("page", Or(Num(backendPage), Undefined)),
        ("startDate", Or(Str(filters.start), Undefined)),
        ("endDate", Or(Str(filters.end), Undefined)),
        ("dateType", Or(Str(filters.dateType), Undefined)),
        ("noticeStatus", Or(Str(filters.noticeStatus), Undefined)),
        ("transportType", Or(Str(filters.transportType), Undefined)),
        ("categoryDescription", Or(Str(filters.category), Undefined)),
        ("type", Or(Str(filters.certificateType), Undefined)),
        ("searchTerm", Or(Str(filters.searchTerm), Undefined))];
      req := DropUndefined(params);
    }

    /** The success callback of a search: the list is replaced, the total stored, and the
        search's parameters stored for later loads before the display is re-checked. */
    method OnSubmitSuccess(params: Entries, data: seq<SchoolCertificate>, total: int) returns (next: Option<Entries>)
      modifies this
      ensures schoolCertificates == data && totalCertificates == total && globalParams == params
      ensures !isLoading
      ensures old(isLoading) ==> next.None?
      ensures next.Some? <==> NeedsMore(page, |data|, total, old(isLoading))
      ensures next.Some? ==> next.value == LoadRequest(Str("true"), backendPage, params)
      ensures page == old(page) && backendPage == old(backendPage)
      ensures filters == old(filters) && filteredCategories == old(filteredCategories) && categories == old(categories)
    {
      schoolCertificates := data;
      totalCertificates := total;
      globalParams := params;
      next := UpdateDisplayedCertificates();
      isLoading := false;
    }

    method OnSubmitError()
      modifies this
      ensures !isLoading
      ensures schoolCertificates == old(schoolCertificates) && page == old(page) && backendPage == old(backendPage)
      ensures totalCertificates == old(totalCertificates) && globalParams == old(globalParams)
      ensures filters == old(filters) && filteredCategories == old(filteredCategories) && categories == old(categories)
    {
      isLoading := false;
    }
  }
}
