/** The school certificates reports view: it loads the school certificates matching a date
    range, a date type and four selections, and announces its reports and its Excel export. */
module SchoolCertificatesReports {
  import opened JsValues
  import opened Records
  import opened QueryParams
  import Catalogue
  import opened SchoolCertificatesDetails
  import ApplicationsReports

  /** The parameters of a load, `undefined` entries included, before they are dropped. */
  function LoadParams(f: Filters): Entries
  {
    [("startDate", OrUndefined(f.start)),
     ("endDate", OrUndefined(f.end)),
     ("dateType", OrUndefined(f.dateType)),
     ("noticeStatus", OrUndefined(f.noticeStatus)),
     ("transportType", OrUndefined(f.transportType)),
     ("categoryDescription", OrUndefined(f.category)),
     ("type", OrUndefined(f.certificateType)),
     ("searchTerm", OrUndefined(f.searchTerm))]
  }

  /** A load names every set filter under its backend key, with its text, and leaves out
      every unset one. */
  lemma LoadRequestSendsSetFilters(f: Filters)
    ensures var q := DropUndefined(LoadParams(f));
      Lookup(q, "startDate") == OrUndefined(f.start) &&
      Lookup(q, "endDate") == OrUndefined(f.end) &&
      Lookup(q, "dateType") == OrUndefined(f.dateType) &&
      Lookup(q, "noticeStatus") == OrUndefined(f.noticeStatus) &&
      Lookup(q, "transportType") == OrUndefined(f.transportType) &&
      Lookup(q, "categoryDescription") == OrUndefined(f.category) &&
      Lookup(q, "type") == OrUndefined(f.certificateType) &&
      Lookup(q, "searchTerm") == OrUndefined(f.searchTerm) &&
      (HasKey(q, "searchTerm") <==> f.searchTerm != "") &&
      (HasKey(q, "noticeStatus") <==> f.noticeStatus != "")
  {
    var t := LoadParams(f);
    TableEntrySent(t, 0);
    TableEntrySent(t, 1);
    TableEntrySent(t, 2);
    TableEntrySent(t, 3);
    TableEntrySent(t, 4);
    TableEntrySent(t, 5);
    TableEntrySent(t, 6);
    TableEntrySent(t, 7);
  }

  const SinDatos := "No hay datos para generar el reporte"
  const SinDatosExcel := "No hay datos para exportar"
  const EjecutivoEnDesarrollo := "Funcionalidad de reporte ejecutivo en desarrollo. Próximamente estará disponible."
  const DetalladoEnDesarrollo := "Funcionalidad de reporte detallado en desarrollo. Próximamente estará disponible."
  const ExcelEnDesarrollo := "Funcionalidad de exportación a Excel en desarrollo. Próximamente estará disponible."

  class SchoolCertificatesReportsComponent {
    var loading: bool
    var schoolCertificates: seq<SchoolCertificate>
    var tipoReporte: ApplicationsReports.TipoReporte
    var filters: Filters
    var categories: seq<string>
    var filteredCategories: seq<string>

    /** A fresh view; `start` and `end` are the first of the month and today, given here. */
    constructor(start: string, end: string)
      ensures !loading && schoolCertificates == [] && tipoReporte == ApplicationsReports.Analisis
      ensures filters == Filters(start, end, "issueDate", "", "", "", "", "")
      ensures categories == Categories && filteredCategories == Categories
    {
      loading := false;
      schoolCertificates := [];
      tipoReporte := ApplicationsReports.Analisis;
      filters := Filters(start, end, "issueDate", "", "", "", "", "");
      categories := Categories;
      filteredCategories := Categories;
    }

    /** `filterCategories`: only the suggestion list changes. */
    method FilterCategories(value: string)
      modifies this
      ensures filteredCategories == Catalogue.FilterCategories(categories, value)
      ensures categories == old(categories) && filters == old(filters) && loading == old(loading)
      ensures schoolCertificates == old(schoolCertificates) && tipoReporte == old(tipoReporte)
    {
      if value == "" {
        filteredCategories := categories;
        return;
      }
      filteredCategories := Catalogue.FilterCategories(categories, value);
    }

    /** `loadSchoolCertificates`, the request half: an empty filter is not sent. */
    method LoadSchoolCertificates() returns (req: Entries)
      modifies this
      ensures loading && req == DropUndefined(LoadParams(filters))
      ensures schoolCertificates == old(schoolCertificates) && filters == old(filters)
      ensures categories == old(categories) && filteredCategories == old(filteredCategories) && tipoReporte == old(tipoReporte)
    {
      loading := true;
      var params := LoadParams(filters);
      req := DropUndefined(params);
    }

    /** The success callback of a load: a response without data empties the list. */
    method OnLoadSuccess(data: Option<seq<SchoolCertificate>>)
      modifies this
      ensures schoolCertificates == (if data.Some? then data.value else []) && !loading
      ensures filters == old(filters) && tipoReporte == old(tipoReporte)
      ensures categories == old(categories) && filteredCategories == old(filteredCategories)
    {
      schoolCertificates := if data.Some? then data.value else [];
      loading := false;
    }

    /** The error callback of a load: only the loading flag changes. */
    method OnLoadError()
      modifies this
      ensures !loading && schoolCertificates == old(schoolCertificates)
      ensures filters == old(filters) && tipoReporte == old(tipoReporte)
      ensures categories == old(categories) && filteredCategories == old(filteredCategories)
    {
      loading := false;
    }

    /** `filterDates`: the range changes only when both dates are given (`format` stands for
        the `YYYY-MM-DD` formatting); a non-empty date type is taken either way; nothing is
        reloaded. */
    method FilterDates(startDate: Option<int>, endDate: Option<int>, dateType: Option<string>, format: int -> string)
      modifies this
      ensures startDate.Some? && endDate.Some? ==>
        filters.start == format(startDate.value) && filters.end == format(endDate.value)
      ensures !(startDate.Some? && endDate.Some?) ==>
        filters.start == old(filters.start) && filters.end == old(filters.end)
      ensures filters.dateType == (if dateType.Some? && dateType.value != "" then dateType.value else old(filters.dateType))
      ensures filters.noticeStatus == old(filters.noticeStatus) && filters.transportType == old(filters.transportType)
      ensures filters.category == old(filters.category) && filters.certificateType == old(filters.certificateType)
      ensures filters.searchTerm == old(filters.searchTerm)
      ensures loading == old(loading) && schoolCertificates == old(schoolCertificates) && tipoReporte == old(tipoReporte)
      ensures categories == old(categories) && filteredCategories == old(filteredCategories)
    {
      if startDate.Some? && endDate.Some? {
        filters := filters.(start := format(startDate.value), end := format(endDate.value));
      }
      if dateType.Some? && dateType.value != "" {
        filters := filters.(dateType := dateType.value);
      }
    }

    /** `applyFilter`: the selection named by `filterType` takes the value (`''` when cleared);
        any other name changes nothing; nothing is reloaded. */
    method ApplyFilter(filterType: string, value: Option<string>)
      modifies this
      ensures filterType == "noticeStatus" ==> filters == old(filters).(noticeStatus := OrEmpty(value))
      ensures filterType == "transportType" ==> filters == old(filters).(transportType := OrEmpty(value))
      ensures filterType == "categoryDescription" ==> filters == old(filters).(category := OrEmpty(value))
      ensures filterType == "type" ==> filters == old(filters).(certificateType := OrEmpty(value))
      ensures filterType == "searchTerm" ==> filters == old(filters).(searchTerm := OrEmpty(value))
      ensures filterType !in {"noticeStatus", "transportType", "categoryDescription", "type", "searchTerm"} ==>
        filters == old(filters)
      ensures loading == old(loading) && schoolCertificates == old(schoolCertificates) && tipoReporte == old(tipoReporte)
      ensures categories == old(categories) && filteredCategories == old(filteredCategories)
    {
      match filterType {
        case "noticeStatus" => filters := filters.(noticeStatus := OrEmpty(value));
        case "transportType" => filters := filters.(transportType := OrEmpty(value));
        case "categoryDescription" => filters := filters.(category := OrEmpty(value));
        case "type" => filters := filters.(certificateType := OrEmpty(value));
        case "searchTerm" => filters := filters.(searchTerm := OrEmpty(value));
        case _ =>
      }
    }

    /** `limpiarFiltros`: the current month's range, the issue date as date type, every
        selection and the search term cleared, the whole catalogue offered again, then a
        reload that sends only the range and the date type. */
    method LimpiarFiltros(start: string, end: string) returns (req: Entries)
      modifies this
      ensures filters == Filters(start, end, "issueDate", "", "", "", "", "")
      ensures filteredCategories == categories && categories == old(categories)
      ensures loading && req == DropUndefined(LoadParams(filters))
      ensures Lookup(req, "dateType") == Str("issueDate")
      ensures !HasKey(req, "searchTerm") && !HasKey(req, "noticeStatus")
      ensures schoolCertificates == old(schoolCertificates) && tipoReporte == old(tipoReporte)
    {
      filters := Filters(start, end, "issueDate", "", "", "", "", "");
      filteredCategories := categories;
      req := LoadSchoolCertificates();
      LoadRequestSendsSetFilters(filters);
    }

    /** `generarReportePDF`: neither report exists yet; the analytical one only announces
        itself, the detailed one first checks that there is something to report. */
    function GenerarReportePdf(): (alerta: string)
      reads this
      ensures tipoReporte == ApplicationsReports.Analisis ==> alerta == EjecutivoEnDesarrollo
      ensures tipoReporte == ApplicationsReports.Lista && |schoolCertificates| == 0 ==> alerta == SinDatos
      ensures tipoReporte == ApplicationsReports.Lista && |schoolCertificates| > 0 ==> alerta == DetalladoEnDesarrollo
    {
      if tipoReporte == ApplicationsReports.Analisis then EjecutivoEnDesarrollo
      else if |schoolCertificates| == 0 then SinDatos
      else DetalladoEnDesarrollo
    }

    /** `exportToExcel`: not available yet, after the same check for data. */
    function ExportToExcel(): (alerta: string)
      reads this
      ensures |schoolCertificates| == 0 ==> alerta == SinDatosExcel
      ensures |schoolCertificates| > 0 ==> alerta == ExcelEnDesarrollo
    {
      if |schoolCertificates| == 0 then SinDatosExcel else ExcelEnDesarrollo
    }
  }
}
