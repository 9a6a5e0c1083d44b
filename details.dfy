/** The certificates details view: a paginated table of certificates loaded page by page from
    the backend, and a search form whose parameters are kept for the following loads. */
module CertificatesDetails {
  import opened JsValues
  import opened Records
  import opened QueryParams
  import opened Paging

  /** The search form: dates as `YYYY-MM-DD` text, selections and the RTN, `''` when unset. */
  datatype Filters = Filters(
    start: string, end: string, modality: string, department: string,
    noticeStatus: string, coStatus: string, rtn: string)

  /** The `params` object of `onSubmit`, `undefined` entries included, as it is stored. */
  function SubmitParams(f: Filters): Entries
  {
    [("paginated", Str("true")),
     ("page", Num(1)),
     ("startDate", OrUndefined(f.start)),
     ("endDate", OrUndefined(f.end)),
     ("modality", OrUndefined(f.modality)),
     ("department", OrUndefined(f.department)),
     ("noticeStatus", OrUndefined(f.noticeStatus)),
     ("coStatus", OrUndefined(f.coStatus)),
     ("rtn", OrUndefined(f.rtn))]
  }

  /** The search request names every set filter under its backend key with its text and
      leaves out every unset one. */
  lemma SubmitRequestSendsSetFilters(f: Filters)
    ensures DistinctKeys(SubmitParams(f))
    ensures Lookup(DropUndefined(SubmitParams(f)), "page") == Num(1)
    ensures Lookup(DropUndefined(SubmitParams(f)), "startDate") == OrUndefined(f.start)
    ensures Lookup(DropUndefined(SubmitParams(f)), "endDate") == OrUndefined(f.end)
    ensures Lookup(DropUndefined(SubmitParams(f)), "modality") == OrUndefined(f.modality)
    ensures Lookup(DropUndefined(SubmitParams(f)), "department") == OrUndefined(f.department)
    ensures Lookup(DropUndefined(SubmitParams(f)), "noticeStatus") == OrUndefined(f.noticeStatus)
    ensures Lookup(DropUndefined(SubmitParams(f)), "coStatus") == OrUndefined(f.coStatus)
    ensures Lookup(DropUndefined(SubmitParams(f)), "rtn") == OrUndefined(f.rtn)
    ensures HasKey(DropUndefined(SubmitParams(f)), "rtn") <==> f.rtn != ""
  {
    var t := SubmitParams(f);
    TableEntrySent(t, 1);
    TableEntrySent(t, 2);
    TableEntrySent(t, 3);
    TableEntrySent(t, 4);
    TableEntrySent(t, 5);
    TableEntrySent(t, 6);
    TableEntrySent(t, 7);
    TableEntrySent(t, 8);
  }

  /** After a search has been stored, every later load asks for page 1, whatever
      `backendPage` has reached. */
  lemma LoadsAfterSubmitAskPageOne(f: Filters, backendPage: int)
    ensures Lookup(LoadRequest(Str("true"), backendPage, SubmitParams(f)), "page") == Num(1)
  {
    SubmitRequestSendsSetFilters(f);
    LookupAt(SubmitParams(f), 1);
    StoredPageOverridesCursor(Str("true"), backendPage, SubmitParams(f));
  }

  class DetailsComponent {
    var certificates: seq<Certificate>
    var page: int
    var backendPage: int
    var totalCertificates: int
    var isLoading: bool
    var globalParams: Entries
    var filters: Filters

    /** A fresh view; `start` and `end` are the first of the month and today, given here. */
    constructor(start: string, end: string)
      ensures certificates == [] && page == 1 && backendPage == 1 && totalCertificates == 0
      ensures !isLoading && globalParams == []
      ensures filters == Filters(start, end, "", "", "", "", "")
    {
      certificates := [];
      page := 1;
      backendPage := 1;
      totalCertificates := 0;
      isLoading := false;
      globalParams := [];
      filters := Filters(start, end, "", "", "", "", "");
    }

    /** `loadCertificates`, the request half: the loading flag goes up and the request is the
        base parameters overridden by the stored ones. */
    method LoadCertificates() returns (req: Entries)
      modifies this
      ensures isLoading
      ensures req == LoadRequest(Str("true"), backendPage, globalParams)
      ensures certificates == old(certificates) && page == old(page) && backendPage == old(backendPage)
      ensures totalCertificates == old(totalCertificates) && globalParams == old(globalParams) && filters == old(filters)
    {
      isLoading := true;
      req := DropUndefined(Spread([("paginated", Str("true")), ("page", Num(backendPage))], globalParams));
    }

    /** `updateDisplayedCertificates`: a load starts exactly when the display window reaches
        the end of the loaded certificates, more remain and none is running. */
    method UpdateDisplayedCertificates() returns (req: Option<Entries>)
      modifies this
      ensures req.Some? <==> NeedsMore(page, |certificates|, totalCertificates, old(isLoading))
      ensures req.Some? ==> isLoading && req.value == LoadRequest(Str("true"), backendPage, globalParams)
      ensures req.None? ==> isLoading == old(isLoading)
      ensures certificates == old(certificates) && page == old(page) && backendPage == old(backendPage)
      ensures totalCertificates == old(totalCertificates) && globalParams == old(globalParams) && filters == old(filters)
    {
      var startIndex := (page - 1) * ItemsPerPage;
      var endIndex := startIndex + ItemsPerPage;
      if endIndex >= |certificates| && |certificates| < totalCertificates && !isLoading {
        var r := LoadCertificates();
        req := Some(r);
      } else {
        req := None;
      }
    }

    /** The success callback of a load: the page received is appended after the certificates
        already loaded, the backend's total is stored, the display is re-checked while the
        flag is still up, the flag comes down, and only then does the cursor advance, and only
        while certificates remain. Called while its own load is running, it starts no other. */
    method OnLoadSuccess(data: seq<Certificate>, total: int) returns (next: Option<Entries>)
      modifies this
      ensures certificates == old(certificates) + data
      ensures totalCertificates == total && !isLoading
      ensures backendPage == NextBackendPage(old(backendPage), |certificates|, total)
      ensures old(isLoading) ==> next.None?
      ensures next.Some? <==> NeedsMore(page, |certificates|, total, old(isLoading))
      ensures next.Some? ==> next.value == LoadRequest(Str("true"), old(backendPage), globalParams)
      ensures page == old(page) && globalParams == old(globalParams) && filters == old(filters)
    {
      certificates := certificates + data;
      totalCertificates := total;
      next := UpdateDisplayedCertificates();
      isLoading := false;
      if |certificates| < totalCertificates {
        backendPage := backendPage + 1;
      }
    }

    /** The error callback of a load: only the loading flag changes. */
    method OnLoadError()
      modifies this
      ensures !isLoading
      ensures certificates == old(certificates) && page == old(page) && backendPage == old(backendPage)
      ensures totalCertificates == old(totalCertificates) && globalParams == old(globalParams) && filters == old(filters)
    {
      isLoading := false;
    }

    /** `onPageChange`: the display page is set, then the window is re-checked. */
    method OnPageChange(p: int) returns (req: Option<Entries>)
      modifies this
      ensures page == p
      ensures req.Some? <==> NeedsMore(p, |certificates|, totalCertificates, old(isLoading))
      ensures req.Some? ==> isLoading && req.value == LoadRequest(Str("true"), backendPage, globalParams)
      ensures req.None? ==> isLoading == old(isLoading)
      ensures certificates == old(certificates) && backendPage == old(backendPage)
      ensures totalCertificates == old(totalCertificates) && globalParams == old(globalParams) && filters == old(filters)
    {
      page := p;
      req := UpdateDisplayedCertificates();
    }

    /** `onSubmit`, the request half: both pages go back to 1 and the search is sent without
        its `undefined` entries; `params` is what the success callback will store. */
    method OnSubmit() returns (params: Entries, req: Entries)
      modifies this
      ensures isLoading && page == 1 && backendPage == 1
      ensures params == SubmitParams(filters) && req == DropUndefined(params)
      ensures certificates == old(certificates) && totalCertificates == old(totalCertificates)
      ensures globalParams == old(globalParams) && filters == old(filters)
    {
      isLoading := true;
      page := 1;
      backendPage := 1;
      params := [
        ("paginated", Str("true")),
        ("page", Or(Num(backendPage), Undefined)),
        ("startDate", Or(Str(filters.start), Undefined)),
        ("endDate", Or(Str(filters.end), Undefined)),
        ("modality", Or(Str(filters.modality), Undefined)),
        ("department", Or(Str(filters.department), Undefined)),
        ("noticeStatus", Or(Str(filters.noticeStatus), Undefined)),
        ("coStatus", Or(Str(filters.coStatus), Undefined)),
        ("rtn", if filters.rtn != "" then Str(filters.rtn) else Undefined)];
      req := DropUndefined(params);
    }

    /** The success callback of a search: the list is replaced, not extended, the search's
        parameters are stored for later loads, and the display is re-checked before the flag
        comes down. */
    method OnSubmitSuccess(params: Entries, data: seq<Certificate>, total: int) returns (next: Option<Entries>)
      modifies this
      ensures certificates == data && totalCertificates == total && globalParams == params
      ensures !isLoading
      ensures old(isLoading) ==> next.None?
      ensures next.Some? <==> NeedsMore(page, |data|, total, old(isLoading))
      ensures next.Some? ==> next.value == LoadRequest(Str("true"), backendPage, params)
      ensures page == old(page) && backendPage == old(backendPage) && filters == old(filters)
    {
      certificates := data;
      totalCertificates := total;
      globalParams := params;
      next := UpdateDisplayedCertificates();
      isLoading := false;
    }

    /** The error callback of a search: only the loading flag changes. */
    method OnSubmitError()
      modifies this
      ensures !isLoading
      ensures certificates == old(certificates) && page == old(page) && backendPage == old(backendPage)
      ensures totalCertificates == old(totalCertificates) && globalParams == old(globalParams) && filters == old(filters)
    {
      isLoading := false;
    }
  }
}
