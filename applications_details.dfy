/** The applications details view: applications loaded page by page, a search form with a
    tri-state renewal selection, and two display mappings. Its requests go through
    `ApplicationsQueries.cleanParams`, which turns every value into a string. */
module ApplicationsDetails {
  import opened JsValues
  import opened Records
  import opened QueryParams
  import opened Paging
  import ApplicationsQueries

  /** The search form. `renewal` is the renewal selection: `None` for no selection (`null`). */
  datatype Filters = Filters(
    start: string, end: string, fileStatus: string, procedureType: string, category: string,
    applicantName: string, companyName: string, applicationId: string, renewal: Option<bool>)

  /** `selectedRenewalState !== null ? selectedRenewalState : undefined` */
  function RenewalParam(renewal: Option<bool>): JsValue
  {
    if renewal.Some? then Bool(renewal.value) else Undefined
  }

  /** The `params` object of `onSubmit`, `undefined` entries included. */
  function SubmitParams(f: Filters): Entries
  {
    [("paginated", Bool(true)),
     ("page", Num(1)),
     ("startDate", OrUndefined(f.start)),
     ("endDate", OrUndefined(f.end)),
     ("fileStatus", OrUndefined(f.fileStatus)),
     ("procedureType", OrUndefined(f.procedureType)),
     ("categoryId", OrUndefined(f.category)),
     ("applicantName", OrUndefined(f.applicantName)),
     ("companyName", OrUndefined(f.companyName)),
     ("applicationId", OrUndefined(f.applicationId)),
     ("isAutomaticRenewal", RenewalParam(f.renewal))]
  }

  /** The search request: text filters only when non-empty, the renewal selection whenever
      one is made, `false` included. */
  lemma SubmitRequestSendsSetFilters(f: Filters)
    ensures DistinctKeys(SubmitParams(f))
    ensures Lookup(DropUndefined(SubmitParams(f)), "page") == Num(1)
    ensures Lookup(DropUndefined(SubmitParams(f)), "fileStatus") == OrUndefined(f.fileStatus)
    ensures Lookup(DropUndefined(SubmitParams(f)), "procedureType") == OrUndefined(f.procedureType)
    ensures Lookup(DropUndefined(SubmitParams(f)), "categoryId") == OrUndefined(f.category)
    ensures Lookup(DropUndefined(SubmitParams(f)), "applicantName") == OrUndefined(f.applicantName)
    ensures Lookup(DropUndefined(SubmitParams(f)), "companyName") == OrUndefined(f.companyName)
    ensures Lookup(DropUndefined(SubmitParams(f)), "applicationId") == OrUndefined(f.applicationId)
    ensures HasKey(DropUndefined(SubmitParams(f)), "isAutomaticRenewal") <==> f.renewal.Some?
    ensures Lookup(DropUndefined(SubmitParams(f)), "isAutomaticRenewal") == RenewalParam(f.renewal)
  {
    var t := SubmitParams(f);
    TableEntrySent(t, 1);
    TableEntrySent(t, 4);
    TableEntrySent(t, 5);
    TableEntrySent(t, 6);
    TableEntrySent(t, 7);
    TableEntrySent(t, 8);
    TableEntrySent(t, 9);
    TableEntrySent(t, 10);
  }

  /** What reaches the query string: a renewal selection of `false` is sent as "false", and
      `paginated` as "true". */
  lemma SubmitQueryKeepsFalse(f: Filters)
    ensures f.renewal == Some(false) ==>
      ApplicationsQueries.Clean(DropUndefined(SubmitParams(f))) != [] &&
      Lookup(ApplicationsQueries.Clean(DropUndefined(SubmitParams(f))), "isAutomaticRenewal") == Str("false")
    ensures Lookup(ApplicationsQueries.Clean(DropUndefined(SubmitParams(f))), "paginated") == Str("true")
  {
    var t := SubmitParams(f);
    var req := DropUndefined(t);
    SubmitRequestSendsSetFilters(f);
    FilterDistinct(t, IsDefined);
    TableEntrySent(t, 0);
    ApplicationsQueries.CleanLookup(req, "isAutomaticRenewal");
    ApplicationsQueries.CleanLookup(req, "paginated");
  }

  /** Once a search is stored, every later load asks for page 1. */
  lemma LoadsAfterSubmitAskPageOne(f: Filters, backendPage: int)
    ensures Lookup(LoadRequest(Bool(true), backendPage, SubmitParams(f)), "page") == Num(1)
  {
    SubmitRequestSendsSetFilters(f);
    LookupAt(SubmitParams(f), 1);
    StoredPageOverridesCursor(Bool(true), backendPage, SubmitParams(f));
  }

  /** `getStatusBadgeClass`: the four known statuses have their own class; any other status,
      or none, is unknown. */
  function StatusBadgeClass(status: Option<string>): (c: string)
    ensures status == Some("APROBADO") ==> c == "status-approved"
    ensures status == Some("RECHAZADO") ==> c == "status-rejected"
    ensures status == Some("PENDIENTE") ==> c == "status-pending"
    ensures status == Some("EN PROCESO") ==> c == "status-processing"
    ensures (status.None? || status.value !in {"APROBADO", "RECHAZADO", "PENDIENTE", "EN PROCESO"}) ==> c == "status-unknown"
  {
    if status.None? then "status-unknown"
    else match status.value {
      case "APROBADO" => "status-approved"
      case "RECHAZADO" => "status-rejected"
      case "PENDIENTE" => "status-pending"
      case "EN PROCESO" => "status-processing"
      case _ => "status-unknown"
    }
  }

  /** `getRenewalText` */
  function RenewalText(isAutomatic: bool): (t: string)
    ensures isAutomatic <==> t == "Automática"
    ensures !isAutomatic <==> t == "Manual"
  {
    if isAutomatic then "Automática" else "Manual"
  }

  class ApplicationsDetailsComponent {
    var applications: seq<Application>
    var page: int
    var backendPage: int
    var totalApplications: int
    var isLoading: bool
    var globalParams: Entries
    var filters: Filters

    constructor(start: string, end: string)
      ensures applications == [] && page == 1 && backendPage == 1 && totalApplications == 0
      ensures !isLoading && globalParams == []
      ensures filters == Filters(start, end, "", "", "", "", "", "", None)
    {
      applications := [];
      page := 1;
      backendPage := 1;
      totalApplications := 0;
      isLoading := false;
      globalParams := [];
      filters := Filters(start, end, "", "", "", "", "", "", None);
    }

    /** `loadApplications`, the request half; here `paginated` is the boolean `true`. */
    method LoadApplications() returns (req: Entries)
      modifies this
      ensures isLoading
      ensures req == LoadRequest(Bool(true), backendPage, globalParams)
      ensures applications == old(applications) && page == old(page) && backendPage == old(backendPage)
      ensures totalApplications == old(totalApplications) && globalParams == old(globalParams) && filters == old(filters)
    {
      isLoading := true;
      req := DropUndefined(Spread([("paginated", Bool(true)), ("page", Num(backendPage))], globalParams));
    }

    method UpdateDisplayedApplications() returns (req: Option<Entries>)
      modifies this
      ensures req.Some? <==> NeedsMore(page, |applications|, totalApplications, old(isLoading))
      ensures req.Some? ==> isLoading && req.value == LoadRequest(Bool(true), backendPage, globalParams)
      ensures req.None? ==> isLoading == old(isLoading)
      ensures applications == old(applications) && page == old(page) && backendPage == old(backendPage)
      ensures totalApplications == old(totalApplications) && globalParams == old(globalParams) && filters == old(filters)
    {
      var startIndex := (page - 1) * ItemsPerPage;
      var endIndex := startIndex + ItemsPerPage;
      if endIndex >= |applications| && |applications| < totalApplications && !isLoading {
        var r := LoadApplications();
        req := Some(r);
      } else {
        req := None;
      }
    }

    /** The success callback of a load: append, store the total, re-check with the flag up,
        lower the flag, advance the cursor while applications remain. */
    method OnLoadSuccess(data: seq<Application>, total: int) returns (next: Option<Entries>)
      modifies this
      ensures applications == old(applications) + data
      ensures totalApplications == total && !isLoading
      ensures backendPage == NextBackendPage(old(backendPage), |applications|, total)
      ensures old(isLoading) ==> next.None?
      ensures next.Some? <==> NeedsMore(page, |applications|, total, old(isLoading))
      ensures next.Some? ==> next.value == LoadRequest(Bool(true), old(backendPage), globalParams)
      ensures page == old(page) && globalParams == old(globalParams) && filters == old(filters)
    {
      applications := applications + data;
      totalApplications := total;
      next := UpdateDisplayedApplications();
      isLoading := false;
      if |applications| < totalApplications {
        backendPage := backendPage + 1;
      }
    }

    method OnLoadError()
      modifies this
      ensures !isLoading
      ensures applications == old(applications) && page == old(page) && backendPage == old(backendPage)
      ensures totalApplications == old(totalApplications) && globalParams == old(globalParams) && filters == old(filters)
    {
      isLoading := false;
    }

    method OnPageChange(p: int) returns (req: Option<Entries>)
      modifies this
      ensures page == p
      ensures req.Some? <==> NeedsMore(p, |applications|, totalApplications, old(isLoading))
      ensures req.Some? ==> isLoading && req.value == LoadRequest(Bool(true), backendPage, globalParams)
      ensures req.None? ==> isLoading == old(isLoading)
      ensures applications == old(applications) && backendPage == old(backendPage)
      ensures totalApplications == old(totalApplications) && globalParams == old(globalParams) && filters == old(filters)
    {
      page := p;
      req := UpdateDisplayedApplications();
    }

    /** `onSubmit`, the request half: pages back to 1 and the parameters stored at once. */
    method OnSubmit() returns (req: Entries)
      modifies this
      ensures isLoading && page == 1 && backendPage == 1
      ensures globalParams == SubmitParams(filters) && req == DropUndefined(globalParams)
      ensures applications == old(applications) && totalApplications == old(totalApplications)
      ensures filters == old(filters)
    {
      isLoading := true;
      page := 1;
      backendPage := 1;
      var f := filters;
      var params := [
        ("paginated", Bool(true)),
        ("page", Or(Num(backendPage), Undefined)),
        ("startDate", Or(Str(f.start), Undefined)),
        ("endDate", Or(Str(f.end), Undefined)),
        ("fileStatus", Or(Str(f.fileStatus), Undefined)),
        ("procedureType", Or(Str(f.procedureType), Undefined)),
        ("categoryId", Or(Str(f.category), Undefined)),
        ("applicantName", if f.applicantName != "" then Str(f.applicantName) else Undefined),
        ("companyName", if f.companyName != "" then Str(f.companyName) else Undefined),
        ("applicationId", if f.applicationId != "" then Str(f.applicationId) else Undefined),
        ("isAutomaticRenewal", if f.renewal.Some? then Bool(f.renewal.value) else Undefined)];
      assert params == SubmitParams(f);
      globalParams := params;
      req := DropUndefined(params);
    }

    method OnSubmitSuccess(data: seq<Application>, total: int) returns (next: Option<Entries>)
      modifies this
      ensures applications == data && totalApplications == total && !isLoading
      ensures old(isLoading) ==> next.None?
      ensures next.Some? <==> NeedsMore(page, |data|, total, old(isLoading))
      ensures next.Some? ==> next.value == LoadRequest(Bool(true), backendPage, globalParams)
      ensures page == old(page) && backendPage == old(backendPage)
      ensures globalParams == old(globalParams) && filters == old(filters)
    {
      applications := data;
      totalApplications := total;
      next := UpdateDisplayedApplications();
      isLoading := false;
    }

    method OnSubmitError()
      modifies this
      ensures !isLoading
      ensures applications == old(applications) && page == old(page) && backendPage == old(backendPage)
      ensures totalApplications == old(totalApplications) && globalParams == old(globalParams) && filters == old(filters)
    {
      isLoading := false;
    }
  }
}
