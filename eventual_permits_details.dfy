/** The eventual permits details view: one request per search, the whole result shown with
    client-side paging, and two display helpers. */
module EventualPermitsDetails {
  import opened JsValues
  import opened Records
  import opened QueryParams

  /** The search form: dates, date type, six selections and two free-text filters, `''`
      when unset. */
  datatype Filters = Filters(
    start: string, end: string, dateType: string,
    permitStatus: string, serviceType: string, regionalOffice: string,
    signatureType: string, petiType: string, creationOrigin: string,
    rtn: string, applicantName: string)

  /** The `params` object of `onSubmit`, `undefined` entries included. */
  function SubmitParams(f: Filters): Entries
  {
    [("startDate", OrUndefined(f.start)),
     ("endDate", OrUndefined(f.end)),
     ("dateType", OrUndefined(f.dateType)),
     ("permitStatus", OrUndefined(f.permitStatus)),
     ("serviceType", OrUndefined(f.serviceType)),
     ("regionalOffice", OrUndefined(f.regionalOffice)),
     ("signatureType", OrUndefined(f.signatureType)),
     ("petiType", OrUndefined(f.petiType)),
     ("creationOrigin", OrUndefined(f.creationOrigin)),
     ("rtn", OrUndefined(f.rtn)),
     ("applicantName", OrUndefined(f.applicantName))]
  }

  /** No two entries of the search share a key. */
  lemma SubmitParamsDistinct(f: Filters)
    ensures DistinctKeys(SubmitParams(f))
  {
  }

  /** The request names each set selection under its own key, with its value, and leaves
      out each unset one. */
  lemma SubmitRequestSendsSetFilters(f: Filters)
    ensures Lookup(DropUndefined(SubmitParams(f)), "permitStatus") == OrUndefined(f.permitStatus)
    ensures Lookup(DropUndefined(SubmitParams(f)), "serviceType") == OrUndefined(f.serviceType)
    ensures Lookup(DropUndefined(SubmitParams(f)), "regionalOffice") == OrUndefined(f.regionalOffice)
  {
    var t := SubmitParams(f);
    SubmitParamsDistinct(f);
    TableEntrySent(t, 3);
    TableEntrySent(t, 4);
    TableEntrySent(t, 5);
  }

  /** The same for the three selections about the permit's origin. */
  lemma SubmitRequestSendsOrigin(f: Filters)
    ensures Lookup(DropUndefined(SubmitParams(f)), "signatureType") == OrUndefined(f.signatureType)
    ensures Lookup(DropUndefined(SubmitParams(f)), "petiType") == OrUndefined(f.petiType)
    ensures Lookup(DropUndefined(SubmitParams(f)), "creationOrigin") == OrUndefined(f.creationOrigin)
  {
    var t := SubmitParams(f);
    SubmitParamsDistinct(f);
    TableEntrySent(t, 6);
    TableEntrySent(t, 7);
    TableEntrySent(t, 8);
  }

  /** The two text filters are sent exactly when they are not empty. */
  lemma SubmitRequestSendsTexts(f: Filters)
    ensures HasKey(DropUndefined(SubmitParams(f)), "rtn") <==> f.rtn != ""
    ensures HasKey(DropUndefined(SubmitParams(f)), "applicantName") <==> f.applicantName != ""
  {
    var t := SubmitParams(f);
    SubmitParamsDistinct(f);
    TableEntrySent(t, 9);
    TableEntrySent(t, 10);
  }

  /** The request carries no paging parameter: the permits are paged on the client. */
  lemma SubmitRequestHasNoPaging(f: Filters)
    ensures !HasKey(DropUndefined(SubmitParams(f)), "page")
    ensures !HasKey(DropUndefined(SubmitParams(f)), "paginated")
  {
    var t := SubmitParams(f);
    SubmitParamsDistinct(f);
    DropUndefinedLookup(t, "page");
    DropUndefinedLookup(t, "paginated");
  }

  /** `getStatusColor`: four known statuses have their own class; any other, or none, gets
      the default. */
  function StatusColor(status: Option<string>): (c: string)
    ensures status == Some("ACTIVO") ==> c == "status-active"
    ensures status == Some("PROCESADO") ==> c == "status-processed"
    ensures status == Some("ANULADO") ==> c == "status-cancelled"
    ensures status == Some("PENDIENTE") ==> c == "status-pending"
    ensures (status.None? || status.value !in {"ACTIVO", "PROCESADO", "ANULADO", "PENDIENTE"}) ==> c == "status-default"
  {
    if status.None? then "status-default"
    else match status.value {
      case "ACTIVO" => "status-active"
      case "PROCESADO" => "status-processed"
      case "ANULADO" => "status-cancelled"
      case "PENDIENTE" => "status-pending"
      case _ => "status-default"
    }
  }

  const NoticeFileUrlPrefix: string := "https://satt.transporte.gob.hn:90/api_rep.php?action=get-facturaPdf&nu="
  const NoticeFileUrlSuffix: string := "&va=1"

  /** `goToNoticeFile`: the URL opened, if any. Nothing opens without a notice id or for a zero
      amount; otherwise the notice's invoice URL opens, carrying the id. */
  method GoToNoticeFile(id: Option<string>, amount: int) returns (url: Option<string>)
    ensures url.Some? <==> id.Some? && id.value != "" && amount != 0
    ensures url.Some? ==> url.value == NoticeFileUrlPrefix + id.value + NoticeFileUrlSuffix
    ensures url.Some? ==> Contains(url.value, id.value)
  {
    if id.None? || id.value == "" || amount == 0 {
      return None;
    }
    var u := NoticeFileUrlPrefix + id.value + NoticeFileUrlSuffix;
    assert u[|NoticeFileUrlPrefix|..|NoticeFileUrlPrefix| + |id.value|] == id.value;
    ContainsAt(u, id.value, |NoticeFileUrlPrefix|);
    url := Some(u);
  }

  class EventualPermitsDetailsComponent {
    var permits: seq<EventualPermit>
    var page: int
    var isLoading: bool
    var filters: Filters

    constructor(start: string, end: string)
      ensures permits == [] && page == 1 && !isLoading
      ensures filters == Filters(start, end, "system", "", "", "", "", "", "", "", "")
    {
      permits := [];
      page := 1;
      isLoading := false;
      filters := Filters(start, end, "system", "", "", "", "", "", "", "", "");
    }

    /** `onSubmit`, the request half: back to the first display page; the request holds the
        set filters only. */
    method OnSubmit() returns (req: Entries)
      modifies this
      ensures isLoading && page == 1
      ensures req == DropUndefined(SubmitParams(filters))
      ensures permits == old(permits) && filters == old(filters)
    {
      isLoading := true;
      page := 1;
      var params := [
        ("startDate", Or(Str(filters.start), Undefined)),
        ("endDate", Or(Str(filters.end), Undefined)),
        ("dateType", Or(Str(filters.dateType), Undefined)),
        ("permitStatus", Or(Str(filters.permitStatus), Undefined)),
        ("serviceType", Or(Str(filters.serviceType), Undefined)),
        ("regionalOffice", Or(Str(filters.regionalOffice), Undefined)),
        ("signatureType", Or(Str(filters.signatureType), Undefined)),
        ("petiType", Or(Str(filters.petiType), Undefined)),
        ("creationOrigin", Or(Str(filters.creationOrigin), Undefined)),
        ("rtn", if filters.rtn != "" then Str(filters.rtn) else Undefined),
        ("applicantName", if filters.applicantName != "" then Str(filters.applicantName) else Undefined)];
      assert params == SubmitParams(filters);
      req := DropUndefined(params);
    }

    /** The success callback: the list is replaced by the response. */
    method OnSubmitSuccess(data: seq<EventualPermit>)
      modifies this
      ensures permits == data && !isLoading
      ensures page == old(page) && filters == old(filters)
    {
      permits := data;
      isLoading := false;
    }

    /** The error callback: the list is kept. */
    method OnSubmitError()
      modifies this
      ensures !isLoading
      ensures permits == old(permits) && page == old(page) && filters == old(filters)
    {
      isLoading := false;
    }

    /** `onPageChange`: paging is client-side, so only the page changes and nothing is
        requested. */
    method OnPageChange(p: int)
      modifies this
      ensures page == p
      ensures permits == old(permits) && isLoading == old(isLoading) && filters == old(filters)
    {
      page := p;
    }

    /** `filterDates`: only when both dates are given do they change, and then the date type
        is forced to 'system' whatever the picker sent. */
    method FilterDates(startDate: Option<int>, endDate: Option<int>, dateType: Option<string>, format: int -> string)
      modifies this
      ensures startDate.Some? && endDate.Some? ==>
        filters == old(filters).(start := format(startDate.value), end := format(endDate.value), dateType := "system")
      ensures !(startDate.Some? && endDate.Some?) ==> filters == old(filters)
      ensures permits == old(permits) && page == old(page) && isLoading == old(isLoading)
    {
      if startDate.Some? && endDate.Some? {
        filters := filters.(start := format(startDate.value), end := format(endDate.value), dateType := "system");
      }
    }

    /** `applyFilter`: the selection named by `filterType` takes the value (`''` when cleared);
        any other name, the text filters included, changes nothing. */
    method ApplyFilter(filterType: string, value: Option<string>)
      modifies this
      ensures filterType == "permitStatus" ==> filters == old(filters).(permitStatus := OrEmpty(value))
      ensures filterType == "serviceType" ==> filters == old(filters).(serviceType := OrEmpty(value))
      ensures filterType == "regionalOffice" ==> filters == old(filters).(regionalOffice := OrEmpty(value))
      ensures filterType == "signatureType" ==> filters == old(filters).(signatureType := OrEmpty(value))
      ensures filterType == "petiType" ==> filters == old(filters).(petiType := OrEmpty(value))
      ensures filterType == "creationOrigin" ==> filters == old(filters).(creationOrigin := OrEmpty(value))
      ensures filterType !in {"permitStatus", "serviceType", "regionalOffice", "signatureType", "petiType", "creationOrigin"} ==>
        filters == old(filters)
      ensures permits == old(permits) && page == old(page) && isLoading == old(isLoading)
    {
      match filterType {
        case "permitStatus" => filters := filters.(permitStatus := OrEmpty(value));
        case "serviceType" => filters := filters.(serviceType := OrEmpty(value));
        case "regionalOffice" => filters := filters.(regionalOffice := OrEmpty(value));
        case "signatureType" => filters := filters.(signatureType := OrEmpty(value));
        case "petiType" => filters := filters.(petiType := OrEmpty(value));
        case "creationOrigin" => filters := filters.(creationOrigin := OrEmpty(value));
        case _ =>
      }
    }
  }

  /** After picking a date range the next search filters by system date. */
  lemma DateRangeSearchesBySystemDate(f: Filters, start: string, end: string)
    ensures Lookup(DropUndefined(SubmitParams(f.(start := start, end := end, dateType := "system"))), "dateType") == Str("system")
  {
    TableEntrySent(SubmitParams(f.(start := start, end := end, dateType := "system")), 2);
  }
}
