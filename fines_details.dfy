/** The fines details view: fines loaded page by page, a search form, and filter selections.
    Unlike the certificates view it stores the search parameters when the search is sent,
    before any answer. */
module FinesDetails {
  import opened JsValues
  import opened Records
  import opened QueryParams
  import opened Paging

  datatype Filters = Filters(start: string, end: string, status: string, department: string, region: string)

  /** The `params` object of `onSubmit`, `undefined` entries included. */
  function SubmitParams(f: Filters): Entries
  {
    [("paginated", Str("true")),
     ("page", Num(1)),
     ("startDate", OrUndefined(f.start)),
     ("endDate", OrUndefined(f.end)),
     ("status", OrUndefined(f.status)),
     ("department", OrUndefined(f.department)),
     ("region", OrUndefined(f.region))]
  }

  /** The search request carries each set filter and leaves out each unset one. */
  lemma SubmitRequestSendsSetFilters(f: Filters)
    ensures DistinctKeys(SubmitParams(f))
    ensures Lookup(DropUndefined(SubmitParams(f)), "page") == Num(1)
    ensures Lookup(DropUndefined(SubmitParams(f)), "startDate") == OrUndefined(f.start)
    ensures Lookup(DropUndefined(SubmitParams(f)), "endDate") == OrUndefined(f.end)
    ensures Lookup(DropUndefined(SubmitParams(f)), "status") == OrUndefined(f.status)
    ensures Lookup(DropUndefined(SubmitParams(f)), "department") == OrUndefined(f.department)
    ensures Lookup(DropUndefined(SubmitParams(f)), "region") == OrUndefined(f.region)
    ensures HasKey(DropUndefined(SubmitParams(f)), "region") <==> f.region != ""
  {
    var t := SubmitParams(f);
    TableEntrySent(t, 1);
    TableEntrySent(t, 2);
    TableEntrySent(t, 3);
    TableEntrySent(t, 4);
    TableEntrySent(t, 5);
    TableEntrySent(t, 6);
  }

  /** Once a search is stored, every later load asks for page 1. */
  lemma LoadsAfterSubmitAskPageOne(f: Filters, backendPage: int)
    ensures Lookup(LoadRequest(Str("true"), backendPage, SubmitParams(f)), "page") == Num(1)
  {
    SubmitRequestSendsSetFilters(f);
    LookupAt(SubmitParams(f), 1);
    StoredPageOverridesCursor(Str("true"), backendPage, SubmitParams(f));
  }

  class FinesDetailsComponent {
    var fines: seq<Fine>
    var page: int
    var backendPage: int
    var totalFines: int
    var isLoading: bool
    var globalParams: Entries
    var filters: Filters

    constructor(start: string, end: string)
      ensures fines == [] && page == 1 && backendPage == 1 && totalFines == 0
      ensures !isLoading && globalParams == []
      ensures filters == Filters(start, end, "", "", "")
    {
      fines := [];
      page := 1;
      backendPage := 1;
      totalFines := 0;
      isLoading := false;
      globalParams := [];
      filters := Filters(start, end, "", "", "");
    }

    /** `loadFines`, the request half. */
    method LoadFines() returns (req: Entries)
      modifies this
      ensures isLoading
      ensures req == LoadRequest(Str("true"), backendPage, globalParams)
      ensures fines == old(fines) && page == old(page) && backendPage == old(backendPage)
      ensures totalFines == old(totalFines) && globalParams == old(globalParams) && filters == old(filters)
    {
      isLoading := true;
      req := DropUndefined(Spread([("paginated", Str("true")), ("page", Num(backendPage))], globalParams));
    }

    /** `updateDisplayedFines`: load only at the end of what is loaded, with more remaining
        and no load running. */
    method UpdateDisplayedFines() returns (req: Option<Entries>)
      modifies this
      ensures req.Some? <==> NeedsMore(page, |fines|, totalFines, old(isLoading))
      ensures req.Some? ==> isLoading && req.value == LoadRequest(Str("true"), backendPage, globalParams)
      ensures req.None? ==> isLoading == old(isLoading)
      ensures fines == old(fines) && page == old(page) && backendPage == old(backendPage)
      ensures totalFines == old(totalFines) && globalParams == old(globalParams) && filters == old(filters)
    {
      var startIndex := (page - 1) * ItemsPerPage;
      var endIndex := startIndex + ItemsPerPage;
      if endIndex >= |fines| && |fines| < totalFines && !isLoading {
        var r := LoadFines();
        req := Some(r);
      } else {
        req := None;
      }
    }

    /** The success callback of a load: append in place, store the total, re-check the
        display with the flag still up, lower the flag, advance the cursor while fines remain. */
    method OnLoadSuccess(data: seq<Fine>, total: int) returns (next: Option<Entries>)
      modifies this
      ensures fines == old(fines) + data
      ensures totalFines == total && !isLoading
      ensures backendPage == NextBackendPage(old(backendPage), |fines|, total)
      ensures old(isLoading) ==> next.None?
      ensures next.Some? <==> NeedsMore(page, |fines|, total, old(isLoading))
      ensures next.Some? ==> next.value == LoadRequest(Str("true"), old(backendPage), globalParams)
      ensures page == old(page) && globalParams == old(globalParams) && filters == old(filters)
    {
      fines := fines + data;
      totalFines := total;
      next := UpdateDisplayedFines();
      isLoading := false;
      if |fines| < totalFines {
        backendPage := backendPage + 1;
      }
    }

    /** The error callback of a load: only the loading flag changes. */
    method OnLoadError()
      modifies this
      ensures !isLoading
      ensures fines == old(fines) && page == old(page) && backendPage == old(backendPage)
      ensures totalFines == old(totalFines) && globalParams == old(globalParams) && filters == old(filters)
    {
      isLoading := false;
    }

    method OnPageChange(p: int) returns (req: Option<Entries>)
      modifies this
      ensures page == p
      ensures req.Some? <==> NeedsMore(p, |fines|, totalFines, old(isLoading))
      ensures req.Some? ==> isLoading && req.value == LoadRequest(Str("true"), backendPage, globalParams)
      ensures req.None? ==> isLoading == old(isLoading)
      ensures fines == old(fines) && backendPage == old(backendPage)
      ensures totalFines == old(totalFines) && globalParams == old(globalParams) && filters == old(filters)
    {
      page := p;
      req := UpdateDisplayedFines();
    }

    /** `onSubmit`, the request half: pages back to 1, and the uncleaned parameters are stored
        at once, before the answer. */
    method OnSubmit() returns (req: Entries)
      modifies this
      ensures isLoading && page == 1 && backendPage == 1
      ensures globalParams == SubmitParams(filters) && req == DropUndefined(globalParams)
      ensures fines == old(fines) && totalFines == old(totalFines) && filters == old(filters)
    {
      isLoading := true;
      page := 1;
      backendPage := 1;
      var params := [
        ("paginated", Str("true")),
        ("page", Or(Num(backendPage), Undefined)),
        ("startDate", Or(Str(filters.start), Undefined)),
        ("endDate", Or(Str(filters.end), Undefined)),
        ("status", Or(Str(filters.status), Undefined)),
        ("department", Or(Str(filters.department), Undefined)),
        ("region", Or(Str(filters.region), Undefined))];
      globalParams := params;
      req := DropUndefined(params);
    }

    /** The success callback of a search: the list is replaced and the display re-checked
        before the flag comes down. */
    method OnSubmitSuccess(data: seq<Fine>, total: int) returns (next: Option<Entries>)
      modifies this
      ensures fines == data && totalFines == total && !isLoading
      ensures old(isLoading) ==> next.None?
      ensures next.Some? <==> NeedsMore(page, |data|, total, old(isLoading))
      ensures next.Some? ==> next.value == LoadRequest(Str("true"), backendPage, globalParams)
      ensures page == old(page) && backendPage == old(backendPage)
      ensures globalParams == old(globalParams) && filters == old(filters)
    {
      fines := data;
      totalFines := total;
      next := UpdateDisplayedFines();
      isLoading := false;
    }

    /** The error callback of a search: the flag comes down; the parameters stay stored. */
    method OnSubmitError()
      modifies this
      ensures !isLoading
      ensures fines == old(fines) && page == old(page) && backendPage == old(backendPage)
      ensures totalFines == old(totalFines) && globalParams == old(globalParams) && filters == old(filters)
    {
      isLoading := false;
    }

    /** `applyFilter`: `'fineStatus'`, `'department'` and `'region'` set their selection to the
        value or `''` (a cleared select gives no value); any other type changes nothing. */
    method ApplyFilter(filterType: string, value: Option<string>)
      modifies this
      ensures filterType == "fineStatus" ==> filters == old(filters).(status := OrEmpty(value))
      ensures filterType == "department" ==> filters == old(filters).(department := OrEmpty(value))
      ensures filterType == "region" ==> filters == old(filters).(region := OrEmpty(value))
      ensures filterType !in {"fineStatus", "department", "region"} ==> filters == old(filters)
      ensures fines == old(fines) && page == old(page) && backendPage == old(backendPage) && isLoading == old(isLoading)
      ensures totalFines == old(totalFines) && globalParams == old(globalParams)
    {
      match filterType {
        case "fineStatus" => filters := filters.(status := OrEmpty(value));
        case "department" => filters := filters.(department := OrEmpty(value));
        case "region" => filters := filters.(region := OrEmpty(value));
        case _ =>
      }
    }
  }
}
