# ihtt-stats front end, modelled in Dafny

ihtt-stats is the Angular statistics and reporting front end of the Honduran transport
institute (IHTT). This project models its views and helpers as Dafny code. The views are
the certificate, fine, application, school-certificate and eventual-permit dashboards,
details and reports. The helpers are the PDF and Excel builders, the side bar, the header
and the date filter. The model keeps what those components compute and how their state
changes. Rendering and transport are not part of it.

- Each component becomes a `class`. Its fields are the component's fields, and its methods
  are the component's methods with their `modifies` frames.
- An HTTP call becomes a request method that returns the parameters it would send. The
  `next` and `error` callbacks become methods that take the response as an argument.
- The pure parts become functions, proved against specifications as lemmas:
  - the parameter builders and the queries service's `cleanParams`;
  - the de-duplication of certificates, fines and permits;
  - the PDF and Excel row builders;
  - the group-bys and pivots behind the charts;
  - the KPIs;
  - the URL parsing of the side bar.
- Values received from the backend are JavaScript values (`JsValues.JsValue`: undefined,
  null, boolean, number or string). Truthiness, `||` and `String()` are written out.
  `toLowerCase()` is written out for the Basic Latin and Latin-1 letters only (see
  "Left out").
- Money is an integer. Dates are integers (timestamps). Date parsing, date formatting and
  the clock are function parameters.

Module layout:

- Helper modules: `JsValues`, `Seqs`, `QueryParams`, `Records`.
- Services and helpers:
  - `Dedup` and `ReportesPdf`: reportes-pdf.service.ts;
  - `PdfGenerator`: pdf-generator.helper.ts;
  - `ExcelHelper`: excel.helper.ts;
  - `ApplicationsQueries`: applications.queries.ts.
- Details views:
  - `Paging` holds what the page-by-page loaders share;
  - `CertificatesDetails`, `FinesDetails`, `ApplicationsDetails`,
    `SchoolCertificatesDetails`, `EventualPermitsDetails`;
  - `Catalogue` holds the category autocomplete.
- Dashboards:
  - `Dashboard`, `FinesDashboard`, `ApplicationsDashboard`, `EventualPermitsDashboard`,
    `SchoolCertificatesDashboard`, `Operations`;
  - `Grouping` and `ChartSeries` hold the shared reductions.
- Reports: `CertificatesReports`, `FinesReports`, `ApplicationsReports`,
  `SchoolCertificatesReports`, `EventualPermitsReports`, `DashboardGeneralReport`.
- Shell: `SideBar`, `Header`, `DateFilter`.

## Model

| member | source | states |
|---|---|---|
| Dedup.CodesMembership | src/app/reports/services/reportes-pdf.service.ts:106-121 | a code is among the codes of a list exactly when some record of the list carries it |
| Dedup.DedupIsSubsequence | src/app/reports/services/reportes-pdf.service.ts:106-121 | de-duplication keeps the input order: the result is the input with some records removed |
| Dedup.DedupCodes | src/app/reports/services/reportes-pdf.service.ts:106-121 | exactly the codes of the input survive de-duplication |
| Dedup.DedupUniqueCodes | src/app/reports/services/reportes-pdf.service.ts:106-121 | no code is carried by two kept records |
| Dedup.DedupKeepsKeyless | src/app/reports/services/reportes-pdf.service.ts:106-121 | records without a notice code each get a fresh key, so all of them are kept, in order |
| Dedup.DedupFirstWins | src/app/reports/services/reportes-pdf.service.ts:106-121 | for every code the kept record is the first one in input order that carries it (`if (!map.has(key))`) |
| Dedup.DedupOfUnique | src/app/reports/services/reportes-pdf.service.ts:106-121 | a list whose codes are already unique comes back unchanged |
| Dedup.DedupIdempotent | src/app/reports/services/reportes-pdf.service.ts:106-121 | de-duplicating twice is the same as de-duplicating once |
| Dedup.DedupByCode | src/app/reports/services/reportes-pdf.service.ts:106-121 | the Map-filling loop returns the de-duplicated list: map keys and values grow together and the values, in insertion order, are the result |
| ReportesPdf.DeduplicarCertificados | src/app/reports/services/reportes-pdf.service.ts:106-121 | certificates de-duplicated by notice code: an order-preserving subsequence of the input with unique codes |
| ReportesPdf.DeduplicarMultas | src/app/reports/services/reportes-pdf.service.ts:124-139 | fines de-duplicated by notice code: an order-preserving subsequence of the input with unique codes |
| ReportesPdf.FormatearParametrosVacio | src/app/reports/services/reportes-pdf.service.ts:79-86 | the footer's parameter text is empty exactly when no parameter is set, and starts with the start date when that is set |
| ReportesPdf.FormatearParametrosNombra | src/app/reports/services/reportes-pdf.service.ts:79-86 | the footer's parameter text names the end date, the department and the region whenever they are set |
| ReportesPdf.FormatearParametrosOrden | src/app/reports/services/reportes-pdf.service.ts:79-86 | with every parameter set, the text is exactly 'Desde: …, Hasta: …, Departamento: …, Región: …', in that order |
| ReportesPdf.ObtenerFecha | src/app/reports/services/reportes-pdf.service.ts:88-93 | a missing date prints as 'NO DISPONIBLE', a present one is formatted |
| ReportesPdf.FormatearMoneda | src/app/reports/services/reportes-pdf.service.ts:95-98 | a missing or zero amount prints as 'L. 0.00'; any other amount is prefixed with 'L. ' |
| ReportesPdf.FormatearPorcentaje | src/app/reports/services/reportes-pdf.service.ts:100-103 | a missing or zero value prints as '0.00%'; any other value ends in '%' |
| ReportesPdf.TextoONA | src/app/reports/services/reportes-pdf.service.ts:190-201 | a cell shows the value's text, or 'N/A' for a falsy value |
| ReportesPdf.CodigosDistintosEnReporteMultas | src/app/reports/services/reportes-pdf.service.ts:367-400 | no two rows of the fines report show the same notice code, for every keyed code: a number, a boolean or a non-empty string |
| ReportesPdf.ReportesPdfService.constructor | src/app/reports/services/reportes-pdf.service.ts:17-20 | the service starts with the title-header flag down and the table cursor at 0 |
| ReportesPdf.ReportesPdfService.ConfigurarDocumento | src/app/reports/services/reportes-pdf.service.ts:22-27 | every new document resets the flag, so its first page gets the title header |
| ReportesPdf.ReportesPdfService.DibujarPagina | src/app/reports/services/reportes-pdf.service.ts:29-57 | the page callback draws the title header only while the flag is down and then raises it; the cursor becomes the reported y or 95 |
| ReportesPdf.ReportesPdfService.DibujarPaginas | src/app/reports/services/reportes-pdf.service.ts:29-57 | over the pages of one document the title header is drawn on page 1 only, and only when the flag was down; afterwards it is up |
| ReportesPdf.PieDePagina | src/app/reports/services/reportes-pdf.service.ts:59-77 | a page footer has at least two lines, opens with 'Página i de n', and has a third line exactly when the parameter text is non-empty |
| ReportesPdf.ReportesPdfService.AgregarPiesDePagina | src/app/reports/services/reportes-pdf.service.ts:59-77 | one footer per page, numbered 'Página i de n' from 1 to n, each with the parameter text when it is non-empty |
| ReportesPdf.ReportesPdfService.GenerarReporteCertificados | src/app/reports/services/reportes-pdf.service.ts:172-215 | the title 'Reporte Detallado de Certificados'; the certificates are de-duplicated first, then one 8-cell row per kept certificate, matching the 8 headers; the title on page 1 only; footer i is 'Página i de n' with the parameter text; the title flag ends up as set exactly when a page was drawn |
| ReportesPdf.ReportesPdfService.GenerarReporteMultas | src/app/reports/services/reportes-pdf.service.ts:367-410 | the title 'Reporte Detallado de Multas'; the fines are de-duplicated first, then one 8-cell row per kept fine, matching the 8 headers; the title on page 1 only; footer i is 'Página i de n' with the parameter text; the title flag ends up as set exactly when a page was drawn |
| EventualPermitsReports.ClavesDistintas | src/app/admin/containers/eventual-permits-reports/eventual-permits-reports.component.ts:101-129 | the request object never holds a key twice |
| EventualPermitsReports.SinFiltrosNoHayParametros | src/app/admin/containers/eventual-permits-reports/eventual-permits-reports.component.ts:101-129 | with every filter unset, not even `dateType` is sent: the request is empty |
| EventualPermitsReports.InactivoCuentaComoActivo | src/app/admin/containers/eventual-permits-reports/eventual-permits-reports.component.ts:225-228 | the status match is a case-insensitive substring test, so 'INACTIVO' counts as active |
| EventualPermitsReports.EventualPermitsReportsComponent.constructor | src/app/admin/containers/eventual-permits-reports/eventual-permits-reports.component.ts:42-79 | the view starts idle, with no permit, cleared pickers, unset filters and the analytical report selected |
| EventualPermitsReports.EventualPermitsReportsComponent.ConstruirParametros | src/app/admin/containers/eventual-permits-reports/eventual-permits-reports.component.ts:101-129 | the request holds each set filter under its backend name, and `dateType = 'system'` exactly when a date is set; nothing else |
| EventualPermitsReports.EventualPermitsReportsComponent.CargarPermisos | src/app/admin/containers/eventual-permits-reports/eventual-permits-reports.component.ts:85-88 | loading starts and the request is built from the current filters; nothing else changes |
| EventualPermitsReports.EventualPermitsReportsComponent.OnCargaExito | src/app/admin/containers/eventual-permits-reports/eventual-permits-reports.component.ts:90-93 | the received permits replace the list and loading ends |
| EventualPermitsReports.EventualPermitsReportsComponent.OnCargaError | src/app/admin/containers/eventual-permits-reports/eventual-permits-reports.component.ts:94-97 | only the loading flag comes down; the list is kept |
| EventualPermitsReports.EventualPermitsReportsComponent.LimpiarFiltros | src/app/admin/containers/eventual-permits-reports/eventual-permits-reports.component.ts:135-147 | pickers cleared, the six filters unset, and the reload sends no parameter at all |
| EventualPermitsReports.EventualPermitsReportsComponent.GenerarReportePermisosPdf | src/app/admin/containers/eventual-permits-reports/eventual-permits-reports.component.ts:149-187 | the analytical report requests analytics with the filters and raises the flag; the list report alerts on an empty list and otherwise hands the raw list and the filters to the PDF service, without touching the flag |
| EventualPermitsReports.EventualPermitsReportsComponent.OnAnalisisRespuesta | src/app/admin/containers/eventual-permits-reports/eventual-permits-reports.component.ts:162-173 | either response lowers the loading flag; on success the response and the filters go to the PDF service's analytical report (`generarReportePermisosEventualesAnalisis`); on failure the view alerts 'Error al generar el reporte de análisis' |
| EventualPermitsReports.EventualPermitsReportsComponent.OnFechaInicioChange | src/app/admin/containers/eventual-permits-reports/eventual-permits-reports.component.ts:189-192 | the picker keeps the date and the filter holds its formatted text, or '' when cleared |
| EventualPermitsReports.EventualPermitsReportsComponent.OnFechaFinChange | src/app/admin/containers/eventual-permits-reports/eventual-permits-reports.component.ts:194-197 | the same for the end date |
| EventualPermitsReports.EventualPermitsReportsComponent.DeduplicarPermisos | src/app/admin/containers/eventual-permits-reports/eventual-permits-reports.component.ts:200-213 | an order-preserving subsequence of the permits with unique notice codes that keeps every permit without a code |
| EventualPermitsReports.EventualPermitsReportsComponent.TotalPermisos | src/app/admin/containers/eventual-permits-reports/eventual-permits-reports.component.ts:216-218 | the number of distinct permits, never more than were loaded |
| EventualPermitsReports.EventualPermitsReportsComponent.MontoTotalPermisos | src/app/admin/containers/eventual-permits-reports/eventual-permits-reports.component.ts:220-223 | the reduce loop adds up the amounts of the distinct permits, a missing amount as 0 |
| EventualPermitsReports.EventualPermitsReportsComponent.PermisosConEstado | src/app/admin/containers/eventual-permits-reports/eventual-permits-reports.component.ts:225-233 | distinct permits whose status contains the word in any letter case; never more than the distinct total |
| EventualPermitsReports.EventualPermitsReportsComponent.PermisosActivos | src/app/admin/containers/eventual-permits-reports/eventual-permits-reports.component.ts:225-228 | distinct permits whose status contains 'activo'; never more than the distinct total |
| EventualPermitsReports.EventualPermitsReportsComponent.PermisosProcesados | src/app/admin/containers/eventual-permits-reports/eventual-permits-reports.component.ts:230-233 | distinct permits whose status contains 'procesado'; never more than the distinct total |
| ApplicationsQueries.CleanShape | src/app/admin/services/applications.queries.ts:19-29 | the cleaned record never repeats a key and holds only non-empty strings |
| ApplicationsQueries.CleanLookup | src/app/admin/services/applications.queries.ts:19-29 | a key is in the cleaned record exactly when its value is not undefined, null or '', and then it holds `String(value)` |
| ApplicationsQueries.FalseAndZeroKept | src/app/admin/services/applications.queries.ts:22-26 | `false` and `0` are kept, as "false" and "0" |
| ApplicationsQueries.CleanOfClean | src/app/admin/services/applications.queries.ts:19-29 | a record of non-empty strings with distinct keys is already clean |
| ApplicationsQueries.CleanIdempotent | src/app/admin/services/applications.queries.ts:19-29 | cleaning twice is cleaning once |
| ApplicationsQueries.CleanParams | src/app/admin/services/applications.queries.ts:19-29 | the forEach loop builds exactly the cleaned record |
| Paging.NextBackendPage | src/app/admin/containers/details/details.component.ts:205-208 | after a successful load the cursor moves one page further exactly while records remain |
| Paging.LoadRequestLookup | src/app/admin/containers/details/details.component.ts:187-196 | a load request reads a key from the stored parameters when they have it, from the base parameters otherwise, and sends it exactly when that value is not `undefined` |
| Paging.FirstLoadFollowsCursor | src/app/admin/containers/details/details.component.ts:185-196 | before any search is stored, a load asks for the cursor's page |
| Paging.StoredPageOverridesCursor | src/app/admin/containers/details/details.component.ts:187-196 | once the stored parameters hold `page: 1`, every load asks for page 1 whatever the cursor says |
| CertificatesDetails.SubmitRequestSendsSetFilters | src/app/admin/containers/details/details.component.ts:81-96 | the search request holds page 1 and every set filter under its backend key with its text, and leaves out every unset one |
| CertificatesDetails.LoadsAfterSubmitAskPageOne | src/app/admin/containers/details/details.component.ts:102-196 | after a search has been stored, every later load asks for page 1, whatever `backendPage` has reached |
| CertificatesDetails.DetailsComponent.constructor | src/app/admin/containers/details/details.component.ts:30-59 | a fresh view: nothing loaded, both pages 1, nothing stored, the month's range and no selection |
| CertificatesDetails.DetailsComponent.LoadCertificates | src/app/admin/containers/details/details.component.ts:185-196 | the flag goes up and the request is the base parameters overridden by the stored ones, undefined entries dropped |
| CertificatesDetails.DetailsComponent.UpdateDisplayedCertificates | src/app/admin/containers/details/details.component.ts:217-225 | a load starts exactly when the display window reaches the end of what is loaded, more remain and no load is running |
| CertificatesDetails.DetailsComponent.OnLoadSuccess | src/app/admin/containers/details/details.component.ts:199-209 | the page is appended after what was loaded, the total stored, the display re-checked while the flag is up (so no second load starts), the flag lowered, and the cursor advanced only while certificates remain |
| CertificatesDetails.DetailsComponent.OnLoadError | src/app/admin/containers/details/details.component.ts:210-213 | only the loading flag changes |
| CertificatesDetails.DetailsComponent.OnPageChange | src/app/admin/containers/details/details.component.ts:227-230 | the display page is set, then the window re-checked |
| CertificatesDetails.DetailsComponent.OnSubmit | src/app/admin/containers/details/details.component.ts:76-98 | both pages go back to 1 and the search is sent without its undefined entries |
| CertificatesDetails.DetailsComponent.OnSubmitSuccess | src/app/admin/containers/details/details.component.ts:99-105 | the list is replaced, the total and the search's parameters stored, and the display re-checked before the flag comes down |
| CertificatesDetails.DetailsComponent.OnSubmitError | src/app/admin/containers/details/details.component.ts:106-109 | only the loading flag changes |
| FinesDetails.SubmitRequestSendsSetFilters | src/app/admin/containers/fines-details/fines-details.component.ts:105-118 | the search request carries page 1 and each set filter, and leaves out each unset one |
| FinesDetails.LoadsAfterSubmitAskPageOne | src/app/admin/containers/fines-details/fines-details.component.ts:114-173 | once a search is stored, every later load asks for page 1 |
| FinesDetails.FinesDetailsComponent.constructor | src/app/admin/containers/fines-details/fines-details.component.ts:30-57 | a fresh view: nothing loaded, both pages 1, nothing stored |
| FinesDetails.FinesDetailsComponent.LoadFines | src/app/admin/containers/fines-details/fines-details.component.ts:162-173 | the flag goes up and the request is the base parameters overridden by the stored ones |
| FinesDetails.FinesDetailsComponent.UpdateDisplayedFines | src/app/admin/containers/fines-details/fines-details.component.ts:193-200 | a load starts exactly at the end of what is loaded, with more remaining and no load running |
| FinesDetails.FinesDetailsComponent.OnLoadSuccess | src/app/admin/containers/fines-details/fines-details.component.ts:176-185 | append, store the total, re-check with the flag up, lower the flag, advance the cursor only while fines remain |
| FinesDetails.FinesDetailsComponent.OnLoadError | src/app/admin/containers/fines-details/fines-details.component.ts:186-189 | only the loading flag changes |
| FinesDetails.FinesDetailsComponent.OnPageChange | src/app/admin/containers/fines-details/fines-details.component.ts:202-205 | the display page is set, then the window re-checked |
| FinesDetails.FinesDetailsComponent.OnSubmit | src/app/admin/containers/fines-details/fines-details.component.ts:100-120 | pages back to 1, and the uncleaned parameters are stored at once, before any answer |
| FinesDetails.FinesDetailsComponent.OnSubmitSuccess | src/app/admin/containers/fines-details/fines-details.component.ts:121-126 | the list is replaced and the display re-checked before the flag comes down |
| FinesDetails.FinesDetailsComponent.OnSubmitError | src/app/admin/containers/fines-details/fines-details.component.ts:127-130 | the flag comes down and the stored parameters stay |
| FinesDetails.FinesDetailsComponent.ApplyFilter | src/app/admin/containers/fines-details/fines-details.component.ts:148-160 | 'fineStatus', 'department' and 'region' set their selection to the value or ''; any other filter type changes nothing |
| ApplicationsDetails.SubmitRequestSendsSetFilters | src/app/admin/containers/applications-details/applications-details.component.ts:130-147 | text filters are sent only when non-empty, the renewal selection whenever one is made, `false` included |
| ApplicationsDetails.SubmitQueryKeepsFalse | src/app/admin/containers/applications-details/applications-details.component.ts:130-147 | a renewal selection of `false` reaches the query as "false", and `paginated` as "true" |
| ApplicationsDetails.LoadsAfterSubmitAskPageOne | src/app/admin/containers/applications-details/applications-details.component.ts:93-143 | once a search is stored, every later load asks for page 1 |
| ApplicationsDetails.StatusBadgeClass | src/app/admin/containers/applications-details/applications-details.component.ts:214-227 | each of the four known statuses has its own class; any other status, or none, gets 'status-unknown' |
| ApplicationsDetails.RenewalText | src/app/admin/containers/applications-details/applications-details.component.ts:229-231 | 'Automática' for an automatic renewal, 'Manual' otherwise |
| ApplicationsDetails.ApplicationsDetailsComponent.constructor | src/app/admin/containers/applications-details/applications-details.component.ts:40-43 | a fresh view: nothing loaded, both pages 1, nothing stored, empty text filters |
| ApplicationsDetails.ApplicationsDetailsComponent.LoadApplications | src/app/admin/containers/applications-details/applications-details.component.ts:90-101 | the flag goes up and the request is the base parameters (`paginated` the boolean true) overridden by the stored ones |
| ApplicationsDetails.ApplicationsDetailsComponent.UpdateDisplayedApplications | src/app/admin/containers/applications-details/applications-details.component.ts:205-212 | a load starts exactly at the end of what is loaded, with more remaining and no load running |
| ApplicationsDetails.ApplicationsDetailsComponent.OnLoadSuccess | src/app/admin/containers/applications-details/applications-details.component.ts:104-113 | append, store the total, re-check with the flag up, lower the flag, advance the cursor only while applications remain |
| ApplicationsDetails.ApplicationsDetailsComponent.OnLoadError | src/app/admin/containers/applications-details/applications-details.component.ts:114-117 | only the loading flag changes |
| ApplicationsDetails.ApplicationsDetailsComponent.OnPageChange | src/app/admin/containers/applications-details/applications-details.component.ts:200-203 | the display page is set, then the window re-checked |
| ApplicationsDetails.ApplicationsDetailsComponent.OnSubmit | src/app/admin/containers/applications-details/applications-details.component.ts:125-149 | pages back to 1 and the parameters stored at once |
| ApplicationsDetails.ApplicationsDetailsComponent.OnSubmitSuccess | src/app/admin/containers/applications-details/applications-details.component.ts:150-155 | the list is replaced and the display re-checked before the flag comes down |
| ApplicationsDetails.ApplicationsDetailsComponent.OnSubmitError | src/app/admin/containers/applications-details/applications-details.component.ts:156-159 | the flag comes down and the stored parameters stay |
| Catalogue.FilterCategoriesSpec | src/app/admin/containers/school-certificates-details/school-certificates-details.component.ts:103-113 | the narrowed list keeps, in catalogue order, exactly the categories that contain the typed text ignoring case; an empty text keeps the whole catalogue |
| JsValues.LowerCharIdempotent | src/app/admin/containers/school-certificates-details/school-certificates-details.component.ts:109-112 | lower-casing a character twice is lower-casing it once |
| JsValues.LowerIdempotent | src/app/admin/containers/school-certificates-details/school-certificates-details.component.ts:109-112 | lower-casing a text twice is lower-casing it once |
| Catalogue.FilterIgnoresCase | src/app/admin/containers/school-certificates-details/school-certificates-details.component.ts:109-112 | typing in upper or lower case narrows the catalogue alike |
| SchoolCertificatesDetails.SubmitRequestSendsSetFilters | src/app/admin/containers/school-certificates-details/school-certificates-details.component.ts:120-136 | the search request holds page 1 and names every set filter under its backend key, leaving out every unset one |
| SchoolCertificatesDetails.LoadsAfterSubmitAskPageOne | src/app/admin/containers/school-certificates-details/school-certificates-details.component.ts:142-239 | once a search is stored, every later load asks for page 1 |
| SchoolCertificatesDetails.GetDate | src/app/admin/containers/school-certificates-details/school-certificates-details.component.ts:222-227 | a missing or empty date prints as 'NO DISPONIBLE', any other is formatted |
| SchoolCertificatesDetails.FormatCurrency | src/app/admin/containers/school-certificates-details/school-certificates-details.component.ts:273-276 | a missing or zero amount prints as 'L. 0.00'; any other is prefixed with 'L. ' |
| SchoolCertificatesDetails.SchoolCertificatesDetailsComponent.constructor | src/app/admin/containers/school-certificates-details/school-certificates-details.component.ts:60-82 | a fresh view: nothing loaded, both pages 1, the issue date as date type, the whole catalogue offered |
| SchoolCertificatesDetails.SchoolCertificatesDetailsComponent.FilterCategories | src/app/admin/containers/school-certificates-details/school-certificates-details.component.ts:103-113 | only the suggestion list changes, to the narrowed catalogue |
| SchoolCertificatesDetails.SchoolCertificatesDetailsComponent.FilterDates | src/app/admin/containers/school-certificates-details/school-certificates-details.component.ts:192-200 | the dates change only when both are given; a non-empty date type is taken either way; nothing else changes |
| SchoolCertificatesDetails.SchoolCertificatesDetailsComponent.ApplyFilter | src/app/admin/containers/school-certificates-details/school-certificates-details.component.ts:202-220 | the selection named by the filter type takes the value or ''; any other filter type changes nothing |
| SchoolCertificatesDetails.SchoolCertificatesDetailsComponent.LoadSchoolCertificates | src/app/admin/containers/school-certificates-details/school-certificates-details.component.ts:229-239 | the flag goes up and the request is the base parameters overridden by the stored ones |
| SchoolCertificatesDetails.SchoolCertificatesDetailsComponent.UpdateDisplayedCertificates | src/app/admin/containers/school-certificates-details/school-certificates-details.component.ts:259-266 | a load starts exactly at the end of what is loaded, with more remaining and no load running |
| SchoolCertificatesDetails.SchoolCertificatesDetailsComponent.OnLoadSuccess | src/app/admin/containers/school-certificates-details/school-certificates-details.component.ts:242-251 | append, store the total, re-check with the flag up, lower the flag, advance the cursor only while certificates remain |
| SchoolCertificatesDetails.SchoolCertificatesDetailsComponent.OnLoadError | src/app/admin/containers/school-certificates-details/school-certificates-details.component.ts:252-255 | only the loading flag changes |
| SchoolCertificatesDetails.SchoolCertificatesDetailsComponent.OnPageChange | src/app/admin/containers/school-certificates-details/school-certificates-details.component.ts:268-271 | the display page is set, then the window re-checked |
| SchoolCertificatesDetails.SchoolCertificatesDetailsComponent.OnSubmit | src/app/admin/containers/school-certificates-details/school-certificates-details.component.ts:115-138 | both pages back to 1 and the search sent without its undefined entries; nothing stored yet |
| SchoolCertificatesDetails.SchoolCertificatesDetailsComponent.OnSubmitSuccess | src/app/admin/containers/school-certificates-details/school-certificates-details.component.ts:139-145 | the list is replaced, the total and the search's parameters stored, then the display re-checked before the flag comes down |
| SchoolCertificatesDetails.SchoolCertificatesDetailsComponent.OnSubmitError | src/app/admin/containers/school-certificates-details/school-certificates-details.component.ts:146-149 | only the loading flag changes |
| EventualPermitsDetails.SubmitRequestSendsSetFilters | src/app/admin/containers/eventual-permits-details/eventual-permits-details.component.ts:101-117 | permit status, service type and regional office are sent with their selected values when set and left out when not |
| EventualPermitsDetails.SubmitRequestSendsOrigin | src/app/admin/containers/eventual-permits-details/eventual-permits-details.component.ts:101-117 | signature type, PETI type and creation origin are sent with their selected values when set and left out when not |
| EventualPermitsDetails.SubmitRequestSendsTexts | src/app/admin/containers/eventual-permits-details/eventual-permits-details.component.ts:101-117 | the RTN and the applicant name are sent exactly when typed |
| EventualPermitsDetails.SubmitRequestHasNoPaging | src/app/admin/containers/eventual-permits-details/eventual-permits-details.component.ts:101-117 | the search request carries neither a page nor a paginated flag |
| EventualPermitsDetails.StatusColor | src/app/admin/containers/eventual-permits-details/eventual-permits-details.component.ts:187-200 | each of the four known statuses has its own class; any other status, or none, gets 'status-default' |
| EventualPermitsDetails.GoToNoticeFile | src/app/admin/containers/eventual-permits-details/eventual-permits-details.component.ts:202-207 | nothing opens without a notice id or for a zero amount; otherwise the invoice URL opens, carrying the id |
| EventualPermitsDetails.EventualPermitsDetailsComponent.constructor | src/app/admin/containers/eventual-permits-details/eventual-permits-details.component.ts:29-77 | a fresh view: no permit, page 1, idle, the month's range with the system date as date type |
| EventualPermitsDetails.EventualPermitsDetailsComponent.OnSubmit | src/app/admin/containers/eventual-permits-details/eventual-permits-details.component.ts:97-119 | back to display page 1; the request holds the set filters only |
| EventualPermitsDetails.EventualPermitsDetailsComponent.OnSubmitSuccess | src/app/admin/containers/eventual-permits-details/eventual-permits-details.component.ts:120-123 | the list is replaced by the response and the flag comes down |
| EventualPermitsDetails.EventualPermitsDetailsComponent.OnSubmitError | src/app/admin/containers/eventual-permits-details/eventual-permits-details.component.ts:124-127 | the flag comes down and the list is kept |
| EventualPermitsDetails.EventualPermitsDetailsComponent.OnPageChange | src/app/admin/containers/eventual-permits-details/eventual-permits-details.component.ts:178-180 | paging is client-side: only the page changes and nothing is requested |
| EventualPermitsDetails.EventualPermitsDetailsComponent.FilterDates | src/app/admin/containers/eventual-permits-details/eventual-permits-details.component.ts:139-146 | only when both dates are given do they change, and then the date type becomes 'system' whatever the picker sent |
| EventualPermitsDetails.EventualPermitsDetailsComponent.ApplyFilter | src/app/admin/containers/eventual-permits-details/eventual-permits-details.component.ts:148-169 | the selection named by the filter type takes the value or ''; any other name, the text filters included, changes nothing |
| EventualPermitsDetails.DateRangeSearchesBySystemDate | src/app/admin/containers/eventual-permits-details/eventual-permits-details.component.ts:101-146 | after a date range is picked, the next search filters by system date |
| PdfGenerator.GetDate | src/app/core/helpers/pdf-generator.helper.ts:145-150 | null, undefined and '' print as 'NO DISPONIBLE'; any other date is formatted |
| PdfGenerator.OrNA | src/app/core/helpers/pdf-generator.helper.ts:108-143 | a truthy value is printed as itself, anything else as 'N/A'; the result is never falsy |
| PdfGenerator.CertificateRow | src/app/core/helpers/pdf-generator.helper.ts:108-120 | 7 cells matching the 7 headers: the expiry date or 'NO DISPONIBLE', the amount or 0, and five text cells that are never falsy |
| PdfGenerator.FineRow | src/app/core/helpers/pdf-generator.helper.ts:129-143 | 8 cells matching the 8 headers: amount, status and department pass through unchanged, the four text cells after them fall back to 'N/A' |
| PdfGenerator.PermitRow | src/app/core/helpers/pdf-generator.helper.ts:69-90 | 9 cells matching the 9 headers, with the amount defaulting to 0 |
| PdfGenerator.JoinedText | src/app/core/helpers/pdf-generator.helper.ts:61 | `join` prints undefined and null as nothing and a string as itself |
| PdfGenerator.ParamsParts | src/app/core/helpers/pdf-generator.helper.ts:61 | the footer prints the parameter values after the first two, in order |
| PdfGenerator.ParamsTextContents | src/app/core/helpers/pdf-generator.helper.ts:61 | the parameter text includes every value after the first two |
| PdfGenerator.ParamsTextLength | src/app/core/helpers/pdf-generator.helper.ts:61 | the parameter text is as long as those values plus one ', ' between each pair, empty values included |
| PdfGenerator.FooterNumbersDistinct | src/app/core/helpers/pdf-generator.helper.ts:56-63 | no two pages of a document carry the same page number in their footers |
| PdfGenerator.PdfHelper.constructor | src/app/core/helpers/pdf-generator.helper.ts:10-14 | the helper starts with the title-header flag down and the cursor at 0 |
| PdfGenerator.PdfHelper.DrawPage | src/app/core/helpers/pdf-generator.helper.ts:28-48 | the title header is drawn only while the flag is down, which it then raises; the cursor becomes the reported y or 95 |
| PdfGenerator.PdfHelper.DrawPages | src/app/core/helpers/pdf-generator.helper.ts:22-49 | over the pages of one table the title header is drawn on page 1 only, and only when the flag was down |
| PdfGenerator.PdfHelper.AddFooters | src/app/core/helpers/pdf-generator.helper.ts:56-63 | one footer per page, numbered 'Página i de n' from 1 to n, each with the parameter text |
| PdfGenerator.PdfHelper.GeneratePdf | src/app/core/helpers/pdf-generator.helper.ts:16-66 | the flag is reset first, so every document draws its title header on its first page, whatever earlier documents did |
| PdfGenerator.PdfHelper.GenerateCertificatePdf | src/app/core/helpers/pdf-generator.helper.ts:94-106 | one row per certificate, in input order, with no de-duplication; the title on page 1 only; footer i is 'Página i de n' with the parameter text; the title flag ends up as set exactly when a page was drawn |
| PdfGenerator.PdfHelper.GenerateFinePdf | src/app/core/helpers/pdf-generator.helper.ts:123-127 | one row per fine, in input order; the title on page 1 only; footer i is 'Página i de n' with the parameter text; the title flag ends up as set exactly when a page was drawn |
| PdfGenerator.PdfHelper.GenerateEventualPermitsPdf | src/app/core/helpers/pdf-generator.helper.ts:68-92 | one row per permit, in input order; the title on page 1 only; footer i is 'Página i de n' with the parameter text; the title flag ends up as set exactly when a page was drawn |
| ExcelHelper.GetDate | src/app/core/helpers/excel.helper.ts:230-245 | a missing value gives an empty cell; a string gives its date when it parses and an empty cell otherwise; a date is kept |
| ExcelHelper.Headings | src/app/core/helpers/excel.helper.ts:15-34 | the header row holds the column titles, in order |
| ExcelHelper.FineRow | src/app/core/helpers/excel.helper.ts:40-61 | 18 cells matching the 18 headers, 'N/A' for missing text, 0 for a missing amount |
| ExcelHelper.CertificateRow | src/app/core/helpers/excel.helper.ts:123-152 | 26 cells matching the 26 headers, 0 for a missing amount, 'N/A' for missing text, an empty cell for a missing date |
| ExcelHelper.PermitRow | src/app/core/helpers/excel.helper.ts:195-208 | 10 cells matching the 10 headers, 0 for a missing amount |
| ExcelHelper.MaxLengthIsMaximum | src/app/core/helpers/excel.helper.ts:64-76 | the column's longest text bounds every cell of the column and is reached by one of them, unless no cell has text |
| ExcelHelper.AutoFit | src/app/core/helpers/excel.helper.ts:64-76 | the auto-fit loop gives each column its longest truthy cell text, header included, plus 2 |
| ExcelHelper.WidthsFitCells | src/app/core/helpers/excel.helper.ts:64-76 | every column is at least 2 wide and wide enough for each of its non-empty cells; a column with no such cell is exactly 2 wide |
| ExcelHelper.Export | src/app/core/helpers/excel.helper.ts:10-83 | the sheet is the header row followed by one row per record, in input order, then auto-fitted |
| ExcelHelper.ExportFines | src/app/core/helpers/excel.helper.ts:10-83 | the 18 headers, then one row per fine in input order |
| ExcelHelper.ExportCertificates | src/app/core/helpers/excel.helper.ts:85-174 | the 26 headers, then one row per certificate in input order |
| ExcelHelper.ExportEventualPermits | src/app/core/helpers/excel.helper.ts:176-228 | the 10 headers, then one row per permit in input order |
| FinesDashboard.StatusCountsAddUp | src/app/admin/containers/fines-dasboard/fines-dashboard.component.ts:138-146 | the status chart counts every fine once: its slices add up to the number of fines and no status appears twice |
| FinesDashboard.DebtChartMatchesAmountDue | src/app/admin/containers/fines-dasboard/fines-dashboard.component.ts:129-169 | the debt chart splits the amount due among departments: its bars add up to the `totalAmountDue` KPI and each bar holds exactly its department's active fines |
| FinesDashboard.MonthlyRevenueAddsUp | src/app/admin/containers/fines-dasboard/fines-dashboard.component.ts:148-158 | the monthly revenue adds up to the paid amount over all fines |
| FinesDashboard.FinesByDepartmentAddsUp | src/app/admin/containers/fines-dasboard/fines-dashboard.component.ts:179-203 | the department counts add up to the number of fines inside the twelve-month window, the amounts to their total, and no department appears twice |
| FinesDashboard.AmountWhereBounded | src/app/admin/containers/fines-dasboard/fines-dashboard.component.ts:123-132 | with no negative amount, the paid revenue and the amount due are never negative and never exceed the amount of all fines considered |
| FinesDashboard.FinesDashboardComponent.constructor | src/app/admin/containers/fines-dasboard/fines-dashboard.component.ts:25-58 | a fresh dashboard: no fines, zero KPIs, empty selections, the given date range |
| FinesDashboard.FinesDashboardComponent.CalculateKpis | src/app/admin/containers/fines-dasboard/fines-dashboard.component.ts:123-132 | the count and paid revenue are over the filtered fines, the active count and amount due over all fines, whatever the filters |
| FinesDashboard.FinesDashboardComponent.ApplyFilter | src/app/admin/containers/fines-dasboard/fines-dashboard.component.ts:68-77 | only 'department' and 'region' are handled; the status selection is never changed here |
| FinesDashboard.FinesDashboardComponent.FilterDates | src/app/admin/containers/fines-dasboard/fines-dashboard.component.ts:79-84 | the dates change only when both are given; nothing is requested |
| FinesDashboard.FinesDashboardComponent.OnSubmit | src/app/admin/containers/fines-dasboard/fines-dashboard.component.ts:86-100 | the dates are always sent, even empty; the selections only when set |
| FinesDashboard.FinesDashboardComponent.OnSubmitResponse | src/app/admin/containers/fines-dasboard/fines-dashboard.component.ts:102-106 | a search's response replaces only the filtered fines; all fines, which feed the active KPIs and the charts, stay as they were |
| FinesDashboard.FinesDashboardComponent.FetchFines | src/app/admin/containers/fines-dasboard/fines-dashboard.component.ts:109-111 | all fines are asked for, with no parameter |
| FinesDashboard.FinesDashboardComponent.OnFetchResponse | src/app/admin/containers/fines-dasboard/fines-dashboard.component.ts:111-120 | all fines are stored, the filtered ones are exactly those dated strictly inside the chosen range, then the KPIs are computed from them |
| Dashboard.FilteredSpec | src/app/admin/containers/dashboard/dashboard.component.ts:86-97 | the filtered list keeps, in order, exactly the certificates that match every non-empty selection and were paid strictly inside the date range |
| Dashboard.EmptySelectionsFilterByDateOnly | src/app/admin/containers/dashboard/dashboard.component.ts:86-97 | with every selection empty only the payment date filters |
| Dashboard.KpisSpec | src/app/admin/containers/dashboard/dashboard.component.ts:113-135 | the expiration count never exceeds the certificates and counts exactly those expiring within three months; with no negative amount the paid total lies between 0 and the filtered certificates' amount and the owed total between 0 and all certificates' amount |
| Dashboard.DashboardComponent.constructor | src/app/admin/containers/dashboard/dashboard.component.ts:23-49 | a fresh dashboard with no certificate, zero KPIs, empty selections and the given range |
| Dashboard.DashboardComponent.CalculateKpis | src/app/admin/containers/dashboard/dashboard.component.ts:113-135 | the paid total is over the filtered certificates, the owed total and the expiration count over all of them |
| Dashboard.DashboardComponent.FilterCertificates | src/app/admin/containers/dashboard/dashboard.component.ts:86-98 | the list is refiltered with the current selections and dates and the KPIs recomputed |
| Dashboard.DashboardComponent.ApplyFilter | src/app/admin/containers/dashboard/dashboard.component.ts:68-84 | exactly the named selection changes (to '' when cleared) and the list is refiltered; an unknown type only refilters |
| Dashboard.DashboardComponent.FilterDates | src/app/admin/containers/dashboard/dashboard.component.ts:60-66 | with both dates they are stored and the list refiltered; with either missing nothing changes |
| Dashboard.DashboardComponent.FetchDashboard | src/app/admin/containers/dashboard/dashboard.component.ts:100-104 | every certificate is asked for, with no parameter |
| Dashboard.DashboardComponent.OnFetchResponse | src/app/admin/containers/dashboard/dashboard.component.ts:104-110 | the certificates are stored, filtered with the current selections and dates, and the KPIs computed |
| Operations.TypeGraph | src/app/admin/containers/operations/operations.component.ts:187-208 | the regional chart's labels and both series follow the rows, in order |
| Operations.CellSpec | src/app/admin/containers/operations/operations.component.ts:71-77 | a cell holds the count of the first row with its type and series, and 0 exactly when no row has them |
| Operations.PivotLabels | src/app/admin/containers/operations/operations.component.ts:69-77 | the bars are exactly the distinct procedure types, in order of first appearance |
| Operations.PivotDatasets | src/app/admin/containers/operations/operations.component.ts:69-77 | there is one dataset per distinct series value, labelled by it, in order of first appearance |
| Operations.PivotCells | src/app/admin/containers/operations/operations.component.ts:69-77 | every dataset has one value per bar: the cell of that bar's type and the dataset's series |
| Operations.CellIsSum | src/app/admin/containers/operations/operations.component.ts:71-77 | when no two rows share a type and a series, a cell is the sum of the counts of the rows with its type and series |
| Operations.CellsSum | src/app/admin/containers/operations/operations.component.ts:100-104 | with unique pairs, adding a type's cells over distinct series values adds the counts of the rows of that type whose series is among them |
| Operations.ColumnTotalIsTypeTotal | src/app/admin/containers/operations/operations.component.ts:100-104 | the stacked total over each bar is the total count of that procedure type, provided no two rows share a type and a series |
| Operations.PivotBarLabel | src/app/admin/containers/operations/operations.component.ts:93-104 | on a pivot chart only the last dataset shows a label over each bar, and with unique type and series pairs that label is the procedure type's total count |
| Operations.OperationsComponent.constructor | src/app/admin/containers/operations/operations.component.ts:18-30 | a fresh view with no rows and the given range |
| Operations.OperationsComponent.GetExpedients | src/app/admin/containers/operations/operations.component.ts:44-57 | all three queries are asked for the current range |
| Operations.OperationsComponent.FilterDates | src/app/admin/containers/operations/operations.component.ts:36-42 | with both dates the range is stored and the three queries asked again; with either missing nothing changes and nothing is asked |
| Operations.OperationsComponent.OnExpedientsByType | src/app/admin/containers/operations/operations.component.ts:45-48 | the regional rows are stored and the chart rebuilt from them |
| Operations.OperationsComponent.OnExpedientsByProcedure | src/app/admin/containers/operations/operations.component.ts:126-140 | the procedure and category rows are stored and pivoted |
| Operations.OperationsComponent.OnExpedientsByModality | src/app/admin/containers/operations/operations.component.ts:53-77 | the procedure and modality rows are stored and pivoted |
| ChartSeries.Series | src/app/admin/containers/applications-dashboard/applications-dashboard.component.ts:166-189 | one chart point per entry of the distribution, in order, with the entry's key as category and its number as value |
| ChartSeries.MonthlySeriesSpec | src/app/admin/containers/applications-dashboard/applications-dashboard.component.ts:337-339 | the sorted monthly series holds exactly the month points, each as often as in the response, in ascending order of their time |
| Grouping.KeyOr | src/app/admin/containers/fines-dasboard/fines-dashboard.component.ts:139-189 | a missing, null or empty key falls back to its default; a non-empty text is its own key |
| Grouping.Find | src/app/admin/containers/fines-dasboard/fines-dashboard.component.ts:140 | the position of a key in the record, or -1 exactly when it is absent |
| Grouping.Sums | src/app/admin/containers/fines-dasboard/fines-dashboard.component.ts:143-146 | one chart point per key, in record order, carrying that key's sum |
| Grouping.Counts | src/app/admin/containers/fines-dasboard/fines-dashboard.component.ts:198-202 | one chart point per key, in record order, carrying that key's count |
| Grouping.GroupKeys | src/app/admin/containers/fines-dasboard/fines-dashboard.component.ts:138-142 | the grouped record's keys are distinct and are exactly the keys of the records grouped |
| Grouping.GroupTotals | src/app/admin/containers/fines-dasboard/fines-dashboard.component.ts:138-196 | grouping loses nothing: the sums add up to the total value and the counts to the number of records |
| Grouping.GroupPerKey | src/app/admin/containers/fines-dasboard/fines-dashboard.component.ts:188-196 | each key holds the sum and the count of exactly the records filed under it |
| ApplicationsDashboard.SubmitQueryEntry | src/app/admin/services/applications.queries.ts:19-29 | an entry of the search reaches the query exactly when the queries service keeps its value, and then as its text |
| ApplicationsDashboard.SubmitQuerySendsRenewal | src/app/admin/containers/applications-dashboard/applications-dashboard.component.ts:121-139 | the search sends the renewal state whenever one is chosen, false included (as 'false'), and never when it is null |
| ApplicationsDashboard.SubmitQuerySendsSetFilters | src/app/admin/containers/applications-dashboard/applications-dashboard.component.ts:124-137 | the search leaves out every cleared selection and empty text field and sends the text fields as typed |
| ApplicationsDashboard.RenewalSeries | src/app/admin/containers/applications-dashboard/applications-dashboard.component.ts:181-184 | one point per entry with its count; the label is 'Automática' for the key 'AUTOMATICA' and 'Manual' for any other key |
| ApplicationsDashboard.ChartsSpec | src/app/admin/containers/applications-dashboard/applications-dashboard.component.ts:158-196 | every series has one point per entry of its distribution, the monthly one is in time order, the renewal one only says 'Automática' or 'Manual' |
| ApplicationsDashboard.ApplicationsDashboardComponent.constructor | src/app/admin/containers/applications-dashboard/applications-dashboard.component.ts:30-68 | a fresh dashboard with zero KPIs, no analytics, empty selections, no renewal state and the given range |
| ApplicationsDashboard.ApplicationsDashboardComponent.FilterDates | src/app/admin/containers/applications-dashboard/applications-dashboard.component.ts:83-88 | the dates change only when both are given; nothing is fetched |
| ApplicationsDashboard.ApplicationsDashboardComponent.ApplyFilter | src/app/admin/containers/applications-dashboard/applications-dashboard.component.ts:90-105 | a cleared selection becomes ''; the renewal state is kept as given, false included, and only '' becomes null; any other type changes nothing |
| ApplicationsDashboard.ApplicationsDashboardComponent.FetchDashboard | src/app/admin/containers/applications-dashboard/applications-dashboard.component.ts:107-113 | only the date range is asked for |
| ApplicationsDashboard.ApplicationsDashboardComponent.OnSubmit | src/app/admin/containers/applications-dashboard/applications-dashboard.component.ts:121-139 | the form's parameters without undefined entries, as the queries service cleans them |
| ApplicationsDashboard.ApplicationsDashboardComponent.UpdateKpisFromAnalytics | src/app/admin/containers/applications-dashboard/applications-dashboard.component.ts:147-156 | with a KPI block its six values are copied; without one nothing changes |
| ApplicationsDashboard.ApplicationsDashboardComponent.GenerateGraphsFromAnalytics | src/app/admin/containers/applications-dashboard/applications-dashboard.component.ts:158-196 | with chart data the five series are rebuilt from it; without, the charts stay as they were |
| ApplicationsDashboard.ApplicationsDashboardComponent.OnAnalytics | src/app/admin/containers/applications-dashboard/applications-dashboard.component.ts:113-144 | the response to either request is stored, the KPIs and charts follow it, and loading ends |
| EventualPermitsDashboard.SubmitRequestEntry | src/app/admin/containers/eventual-permits-dashboard/eventual-permits-dashboard.component.ts:104-116 | an entry of the search is sent exactly when it is not empty, with its text |
| EventualPermitsDashboard.SubmitRequestSendsSetFilters | src/app/admin/containers/eventual-permits-dashboard/eventual-permits-dashboard.component.ts:104-116 | the search omits every empty selection and text field and sends the others as they are |
| EventualPermitsDashboard.ChartsSpec | src/app/admin/containers/eventual-permits-dashboard/eventual-permits-dashboard.component.ts:136-313 | every series has one point per entry of its distribution and the monthly one is in time order |
| EventualPermitsDashboard.EventualPermitsDashboardComponent.constructor | src/app/admin/containers/eventual-permits-dashboard/eventual-permits-dashboard.component.ts:30-53 | a fresh dashboard with zero KPIs, no analytics, empty selections, the given range and the system date type |
| EventualPermitsDashboard.EventualPermitsDashboardComponent.FilterDates | src/app/admin/containers/eventual-permits-dashboard/eventual-permits-dashboard.component.ts:66-73 | with both dates they are stored and the date type forced to 'system', whatever the date filter sent; otherwise nothing changes |
| EventualPermitsDashboard.EventualPermitsDashboardComponent.ApplyFilter | src/app/admin/containers/eventual-permits-dashboard/eventual-permits-dashboard.component.ts:75-84 | 'permitStatus' and 'serviceType' set their selection ('' when cleared); any other type changes nothing |
| EventualPermitsDashboard.EventualPermitsDashboardComponent.FetchDashboard | src/app/admin/containers/eventual-permits-dashboard/eventual-permits-dashboard.component.ts:86-92 | the date range and its type are asked for, as they are |
| EventualPermitsDashboard.EventualPermitsDashboardComponent.OnSubmit | src/app/admin/containers/eventual-permits-dashboard/eventual-permits-dashboard.component.ts:101-117 | the form's parameters without undefined entries |
| EventualPermitsDashboard.EventualPermitsDashboardComponent.UpdateKpisFromAnalytics | src/app/admin/containers/eventual-permits-dashboard/eventual-permits-dashboard.component.ts:126-134 | with a KPI block its five values are copied; without one nothing changes |
| EventualPermitsDashboard.EventualPermitsDashboardComponent.GenerateGraphsFromAnalytics | src/app/admin/containers/eventual-permits-dashboard/eventual-permits-dashboard.component.ts:136-174 | with chart data the five series are rebuilt from it; without, the charts stay as they were |
| EventualPermitsDashboard.EventualPermitsDashboardComponent.OnAnalytics | src/app/admin/containers/eventual-permits-dashboard/eventual-permits-dashboard.component.ts:93-123 | the response to either request is stored, the KPIs and charts follow it, and loading ends |
| SchoolCertificatesDashboard.AnalyticsRequestOmitsUnset | src/app/admin/containers/school-certificates-dashboard/school-certificates-dashboard.component.ts:149-163 | the analytics request carries each filter exactly when it is set |
| SchoolCertificatesDashboard.Shorten | src/app/admin/containers/school-certificates-dashboard/school-certificates-dashboard.component.ts:598-793 | a text within the limit is kept; a longer one becomes its first characters and '...', and never exceeds the limit |
| SchoolCertificatesDashboard.CategoryBars | src/app/admin/containers/school-certificates-dashboard/school-certificates-dashboard.component.ts:596-600 | one bar per entry with its count; labels over 20 characters become their first 17 and '...' |
| SchoolCertificatesDashboard.RawRow | src/app/admin/containers/school-certificates-dashboard/school-certificates-dashboard.component.ts:792-798 | the label is at most 15 characters, a missing count is 0, and the total is paid plus unpaid |
| SchoolCertificatesDashboard.Find | src/app/admin/containers/school-certificates-dashboard/school-certificates-dashboard.component.ts:803 | the position of a label among the merged rows, or -1 exactly when it is absent |
| SchoolCertificatesDashboard.Combine | src/app/admin/containers/school-certificates-dashboard/school-certificates-dashboard.component.ts:804-810 | a merged row adds, field by field, the existing row and the new one |
| SchoolCertificatesDashboard.AggregateCategories | src/app/admin/containers/school-certificates-dashboard/school-certificates-dashboard.component.ts:800-818 | the merged rows have distinct labels, exactly the labels of the raw rows |
| SchoolCertificatesDashboard.AggregateOrder | src/app/admin/containers/school-certificates-dashboard/school-certificates-dashboard.component.ts:800-818 | the merged labels are the raw labels without repeats, in the order in which each label first appears |
| SchoolCertificatesDashboard.AggregateKeepsTotals | src/app/admin/containers/school-certificates-dashboard/school-certificates-dashboard.component.ts:800-818 | merging loses nothing: each field's grand total over the chart equals the one over the raw rows |
| SchoolCertificatesDashboard.AggregateKeepsBalance | src/app/admin/containers/school-certificates-dashboard/school-certificates-dashboard.component.ts:794-818 | every merged row's total is its paid plus its unpaid |
| SchoolCertificatesDashboard.AggregateSumsByCategory | src/app/admin/containers/school-certificates-dashboard/school-certificates-dashboard.component.ts:800-818 | each merged row holds, field by field, the sum over exactly the raw rows that carry its label |
| SchoolCertificatesDashboard.AggregatePerformance | src/app/admin/containers/school-certificates-dashboard/school-certificates-dashboard.component.ts:800-818 | the aggregation loop over the insertion-ordered map computes the merged rows |
| SchoolCertificatesDashboard.SchoolCertificatesDashboardComponent.constructor | src/app/admin/containers/school-certificates-dashboard/school-certificates-dashboard.component.ts:30-72 | a fresh dashboard: not loading, the given range by issue date, no selection, the whole category catalogue offered |
| SchoolCertificatesDashboard.SchoolCertificatesDashboardComponent.FilterCategories | src/app/admin/containers/school-certificates-dashboard/school-certificates-dashboard.component.ts:134-144 | only the suggestion list changes, to the categories containing the text ignoring case |
| SchoolCertificatesDashboard.SchoolCertificatesDashboardComponent.LoadAnalytics | src/app/admin/containers/school-certificates-dashboard/school-certificates-dashboard.component.ts:146-213 | the flag goes up and the request holds the set filters only |
| SchoolCertificatesDashboard.SchoolCertificatesDashboardComponent.OnAnalyticsResponse | src/app/admin/containers/school-certificates-dashboard/school-certificates-dashboard.component.ts:165-178 | either callback lowers the flag and leaves the filters alone |
| SchoolCertificatesDashboard.SchoolCertificatesDashboardComponent.FilterDates | src/app/admin/containers/school-certificates-dashboard/school-certificates-dashboard.component.ts:181-189 | the dates change only when both are given; a non-empty date type is taken either way |
| SchoolCertificatesDashboard.SchoolCertificatesDashboardComponent.ApplyFilter | src/app/admin/containers/school-certificates-dashboard/school-certificates-dashboard.component.ts:191-209 | only the named field changes, to the value or ''; an unknown name changes nothing |
| CertificatesReports.ParametrosRenombrados | src/app/admin/containers/reports/reports.component.ts:110-133 | each filter is sent exactly when it is set, under its backend name and with its value |
| CertificatesReports.LimpiosSoloTipoFecha | src/app/admin/containers/reports/reports.component.ts:139-151 | with the filters cleared the request carries the date type and nothing else |
| CertificatesReports.ReportsComponent.constructor | src/app/admin/containers/reports/reports.component.ts:43-56 | a fresh view: not loading, no certificate, no picked date, every filter unset but the date type 'certificateExpiration' |
| CertificatesReports.ReportsComponent.ConstruirParametros | src/app/admin/containers/reports/reports.component.ts:110-133 | a key is added only for a set filter, under the backend's name |
| CertificatesReports.ReportsComponent.CargarCertificados | src/app/admin/containers/reports/reports.component.ts:94-98 | the flag goes up and the request is built from the filters |
| CertificatesReports.ReportsComponent.OnCargaExito | src/app/admin/containers/reports/reports.component.ts:99-102 | the certificates are replaced by the response and the flag comes down |
| CertificatesReports.ReportsComponent.OnCargaError | src/app/admin/containers/reports/reports.component.ts:103-106 | the flag comes down and the certificates are kept |
| CertificatesReports.ReportsComponent.LimpiarFiltros | src/app/admin/containers/reports/reports.component.ts:139-151 | every filter is unset except the date type, which goes back to 'certificateExpiration', so the reload sends it and only it |
| CertificatesReports.ReportsComponent.GenerarReportePdf | src/app/admin/containers/reports/reports.component.ts:153-163 | with no certificate it only alerts; otherwise the loaded certificates and the filters go to the PDF service |
| CertificatesReports.ReportsComponent.GenerarReporteDetalladoPdf | src/app/admin/containers/reports/reports.component.ts:165-173 | with no certificate it only alerts; otherwise the analytics are requested with the same parameters as the list |
| CertificatesReports.ReportsComponent.OnAnalisisRespuesta | src/app/admin/containers/reports/reports.component.ts:174-184 | on success the response and the filters go to the PDF service's analytical report (`generarReporteCertificadosAnalisis`); on failure the view alerts 'Error al generar el reporte de análisis' |
| CertificatesReports.ReportsComponent.OnFechaInicioChange | src/app/admin/containers/reports/reports.component.ts:187-190 | the start filter becomes the picked date, formatted, or '' when cleared |
| CertificatesReports.ReportsComponent.OnFechaFinChange | src/app/admin/containers/reports/reports.component.ts:192-195 | the end filter becomes the picked date, formatted, or '' when cleared |
| FinesReports.ParametrosRenombrados | src/app/admin/containers/fines-reports/fines-reports.component.ts:94-111 | each filter is sent exactly when it is set, under its backend name; with no filter set the request is empty |
| JsValues.StatusIgnoresCase | src/app/admin/containers/fines-reports/fines-reports.component.ts:160-166 | a status and its lower-case form match the same words |
| JsValues.StatusNamedInAnyCase | src/app/admin/containers/fines-reports/fines-reports.component.ts:160-166 | a status that is the word in any letter case matches it |
| JsValues.CapitalWordNeverMatches | src/app/admin/containers/fines-reports/fines-reports.component.ts:160-166 | the word is compared against the lower-cased status, so a word holding a capital A-Z matches no status |
| FinesReports.EstadoIgnoraMayusculas | src/app/admin/containers/fines-reports/fines-reports.component.ts:160-166 | a fine whose status is the word in any letter case ('PAGADA', 'Pagada') counts under that word, and lower-casing a status does not change which words it matches |
| FinesReports.MontoAcotado | src/app/admin/containers/fines-reports/fines-reports.component.ts:156-158 | with no negative amount the total is never negative and no single amount exceeds it |
| FinesReports.FinesReportsComponent.constructor | src/app/admin/containers/fines-reports/fines-reports.component.ts:41-52 | a fresh view: not loading, no fine, no picked date, every filter unset |
| FinesReports.FinesReportsComponent.ConstruirParametros | src/app/admin/containers/fines-reports/fines-reports.component.ts:94-111 | a key is added only for a set filter, under the backend's name |
| FinesReports.FinesReportsComponent.CargarMultas | src/app/admin/containers/fines-reports/fines-reports.component.ts:78-82 | the flag goes up and the request is built from the filters |
| FinesReports.FinesReportsComponent.OnCargaExito | src/app/admin/containers/fines-reports/fines-reports.component.ts:83-86 | the fines are replaced by the response and the flag comes down |
| FinesReports.FinesReportsComponent.OnCargaError | src/app/admin/containers/fines-reports/fines-reports.component.ts:87-90 | the flag comes down and the fines are kept |
| FinesReports.FinesReportsComponent.LimpiarFiltros | src/app/admin/containers/fines-reports/fines-reports.component.ts:117-127 | the four filters are unset, both pickers cleared, and the reload sends no parameter |
| FinesReports.FinesReportsComponent.GenerarReporteMultasPdf | src/app/admin/containers/fines-reports/fines-reports.component.ts:129-139 | with no fine it only alerts; otherwise the loaded fines, not de-duplicated here, go to the PDF service with the filters |
| FinesReports.FinesReportsComponent.OnFechaInicioChange | src/app/admin/containers/fines-reports/fines-reports.component.ts:141-144 | the start filter becomes the picked date, formatted, or '' when cleared |
| FinesReports.FinesReportsComponent.OnFechaFinChange | src/app/admin/containers/fines-reports/fines-reports.component.ts:146-149 | the end filter becomes the picked date, formatted, or '' when cleared |
| FinesReports.FinesReportsComponent.MontoTotalMultas | src/app/admin/containers/fines-reports/fines-reports.component.ts:156-158 | with no negative amount the total of the loaded fines is at least 0 and at least each fine's amount |
| FinesReports.FinesReportsComponent.MultasConEstado | src/app/admin/containers/fines-reports/fines-reports.component.ts:160-166 | the pending or paid count never exceeds the number of loaded fines |
| ApplicationsReports.SolicitudEntrada | src/app/admin/services/applications.queries.ts:19-29 | a field of the filter object reaches the query exactly when the queries service keeps its value, and then as its text |
| ApplicationsReports.SolicitudEnviaFechas | src/app/admin/services/applications.queries.ts:19-29 | each date of the range is sent exactly when it is set, as typed; the report kind is always sent |
| ApplicationsReports.SolicitudEnviaSelecciones | src/app/admin/services/applications.queries.ts:19-29 | file status, procedure type and category are sent exactly when selected; the file status as selected |
| ApplicationsReports.SolicitudEnviaTextos | src/app/admin/services/applications.queries.ts:19-29 | applicant name, company name and application number are sent exactly when typed; the applicant name and the number as typed |
| ApplicationsReports.SolicitudEnviaRenovacion | src/app/admin/services/applications.queries.ts:19-29 | the renewal choice is sent whenever one is made, as the text 'true' or 'false', `false` included; no choice sends nothing |
| ApplicationsReports.InicialesSoloFechas | src/app/admin/containers/applications-reports/applications-reports.component.ts:151-156 | with only the date range chosen the query holds the two dates and the report kind and none of the other filters |
| ApplicationsReports.ApplicationsReportsComponent.constructor | src/app/admin/containers/applications-reports/applications-reports.component.ts:42-59 | a fresh view after the range is set: not loading, no application, the analytical report chosen, every other filter unset |
| ApplicationsReports.ApplicationsReportsComponent.CargarSolicitudes | src/app/admin/containers/applications-reports/applications-reports.component.ts:158-162 | the flag goes up and the whole filter object is sent, cleaned |
| ApplicationsReports.ApplicationsReportsComponent.OnCargaExito | src/app/admin/containers/applications-reports/applications-reports.component.ts:162-165 | the applications are replaced by the response and the flag comes down |
| ApplicationsReports.ApplicationsReportsComponent.OnRespuestaSinDatos | src/app/admin/containers/applications-reports/applications-reports.component.ts:166-170 | every error callback only lowers the flag |
| ApplicationsReports.ApplicationsReportsComponent.OnAnalisisExito | src/app/admin/containers/applications-reports/applications-reports.component.ts:201-204 | the analytical report's response and the filter object go to the PDF service's analytical report (`generarReporteSolicitudesAnalisis`), then the flag comes down |
| ApplicationsReports.ApplicationsReportsComponent.FiltrarDatos | src/app/admin/containers/applications-reports/applications-reports.component.ts:173-179 | only a complete range is taken, formatted, and reloads; a partial one changes nothing |
| ApplicationsReports.ApplicationsReportsComponent.AplicarFiltros | src/app/admin/containers/applications-reports/applications-reports.component.ts:181-184 | the chosen report kind is copied into the filter object, which is then sent |
| ApplicationsReports.ApplicationsReportsComponent.GenerarReporte | src/app/admin/containers/applications-reports/applications-reports.component.ts:186-211 | with no application it only alerts and the flag is untouched; a list report is produced at once and the flag ends down; an analytical one is requested with the filter object and the flag stays up |
| ApplicationsReports.ApplicationsReportsComponent.LimpiarFiltros | src/app/admin/containers/applications-reports/applications-reports.component.ts:213-230 | the filter object is rebuilt with the month's range, the report kind goes back to analytical, the pickers are cleared and the view reloads |
| ApplicationsReports.ApplicationsReportsComponent.TextoBoton | src/app/admin/containers/applications-reports/applications-reports.component.ts:232-236 | the detailed list gets 'Generar Lista Detallada'; the text is 'Generar Reporte Analítico' exactly when the analytic report is chosen |
| ApplicationsReports.ApplicationsReportsComponent.DescripcionReporte | src/app/admin/containers/applications-reports/applications-reports.component.ts:238-242 | the detailed list gets its description; the analytic description appears exactly when the analytic report is chosen |
| SchoolCertificatesReports.LoadRequestSendsSetFilters | src/app/admin/containers/school-certificates-reports/school-certificates-reports.component.ts:119-136 | a load names every set filter under its backend key, with its text, and leaves out every unset one |
| SchoolCertificatesReports.SchoolCertificatesReportsComponent.constructor | src/app/admin/containers/school-certificates-reports/school-certificates-reports.component.ts:42-89 | a fresh view: not loading, no certificate, the given range by issue date, no selection, the whole catalogue offered |
| SchoolCertificatesReports.SchoolCertificatesReportsComponent.FilterCategories | src/app/admin/containers/school-certificates-reports/school-certificates-reports.component.ts:107-117 | only the suggestion list changes, to the categories containing the text ignoring case |
| SchoolCertificatesReports.SchoolCertificatesReportsComponent.LoadSchoolCertificates | src/app/admin/containers/school-certificates-reports/school-certificates-reports.component.ts:119-138 | the flag goes up and no empty filter is sent |
| SchoolCertificatesReports.SchoolCertificatesReportsComponent.OnLoadSuccess | src/app/admin/containers/school-certificates-reports/school-certificates-reports.component.ts:139-142 | the list becomes the response's data, or empty when it has none, and the flag comes down |
| SchoolCertificatesReports.SchoolCertificatesReportsComponent.OnLoadError | src/app/admin/containers/school-certificates-reports/school-certificates-reports.component.ts:143-146 | only the loading flag changes |
| SchoolCertificatesReports.SchoolCertificatesReportsComponent.FilterDates | src/app/admin/containers/school-certificates-reports/school-certificates-reports.component.ts:150-158 | the range changes only when both dates are given; a non-empty date type is taken either way; nothing is reloaded |
| SchoolCertificatesReports.SchoolCertificatesReportsComponent.ApplyFilter | src/app/admin/containers/school-certificates-reports/school-certificates-reports.component.ts:160-178 | the named selection takes the value or ''; any other name changes nothing; nothing is reloaded |
| SchoolCertificatesReports.SchoolCertificatesReportsComponent.LimpiarFiltros | src/app/admin/containers/school-certificates-reports/school-certificates-reports.component.ts:184-195 | the month's range by issue date, every selection cleared, the whole catalogue offered, then a reload that sends only the range and the date type |
| SchoolCertificatesReports.SchoolCertificatesReportsComponent.GenerarReportePdf | src/app/admin/containers/school-certificates-reports/school-certificates-reports.component.ts:197-216 | the analytical report only announces that it is not available; the detailed one alerts about missing data first, and otherwise announces that it is not available |
| SchoolCertificatesReports.SchoolCertificatesReportsComponent.ExportToExcel | src/app/admin/containers/school-certificates-reports/school-certificates-reports.component.ts:218-225 | with no data it alerts 'No hay datos para exportar'; otherwise it announces that the export is not available |
| DashboardGeneralReport.ParametrosSoloSiDefinidos | src/app/reports/components/dashboard-general-report.component.ts:412-426 | a parameter is sent exactly when it is set, as typed, under its backend name; nothing else is sent |
| DashboardGeneralReport.ProcesarDatos | src/app/reports/components/dashboard-general-report.component.ts:428-456 | the paid total, 0 when missing, becomes the period's certificates and income; the response's total the accumulated certificates; the accumulated income is eight times the period's; the variations are the ones drawn and the departments and alerts the fixed sample lists |
| DashboardGeneralReport.ProcesarDatosCoherente | src/app/reports/components/dashboard-general-report.component.ts:428-456 | with a non-negative total, fines never exceed permits, permits never exceed the total, each period count never exceeds its accumulated count, and the four income parts add up to the period's income in exact reals |
| DashboardGeneralReport.IconoAlerta | src/app/reports/components/dashboard-general-report.component.ts:511-518 | each of the three known alert states has its own icon; any other state gets the neutral icon |
| DashboardGeneralReport.DashboardGeneralReportComponent.constructor | src/app/reports/components/dashboard-general-report.component.ts:365-376 | a fresh view: not loading, no figures, no parameter set |
| DashboardGeneralReport.DashboardGeneralReportComponent.ConstruirParametros | src/app/reports/components/dashboard-general-report.component.ts:412-426 | a key is assigned only for a set parameter |
| DashboardGeneralReport.DashboardGeneralReportComponent.CargarDatos | src/app/reports/components/dashboard-general-report.component.ts:394-400 | the flag goes up and the request is built from the parameters |
| DashboardGeneralReport.DashboardGeneralReportComponent.OnCargaExito | src/app/reports/components/dashboard-general-report.component.ts:400-403 | the figures derived from the response become available and the flag comes down |
| DashboardGeneralReport.DashboardGeneralReportComponent.OnCargaError | src/app/reports/components/dashboard-general-report.component.ts:404-409 | the sample figures take the place of the missing ones and are offered for a report like real ones |
| DashboardGeneralReport.DashboardGeneralReportComponent.GenerarReportePdf | src/app/reports/components/dashboard-general-report.component.ts:489-499 | with no figures it only alerts, otherwise the figures and the parameters go to the PDF service; since figures are offered exactly when loaded, it alerts exactly when none are offered, that is, when the view disables its button |
| DashboardGeneralReport.DashboardGeneralReportComponent.OnFechaInicioChange | src/app/reports/components/dashboard-general-report.component.ts:501-504 | the start parameter becomes the picked date, formatted, or '' when cleared |
| DashboardGeneralReport.DashboardGeneralReportComponent.OnFechaFinChange | src/app/reports/components/dashboard-general-report.component.ts:506-509 | the end parameter becomes the picked date, formatted, or '' when cleared |
| SideBar.Split | src/app/shared/side-bar/side-bar.component.ts:25-40 | the pieces between the slashes, empty ones included; never empty |
| SideBar.SplitJoin | src/app/shared/side-bar/side-bar.component.ts:25-40 | splitting loses nothing: joining the pieces back gives the URL |
| SideBar.SplitNoSlash | src/app/shared/side-bar/side-bar.component.ts:25-40 | no piece of a split URL holds a slash |
| SideBar.SegmentOr | src/app/shared/side-bar/side-bar.component.ts:26-42 | a missing or empty segment gives the fallback; any other is kept |
| SideBar.NavigationRoundTrip | src/app/shared/side-bar/side-bar.component.ts:23-54 | the URL that selecting an option navigates to, read back after the navigation, selects that option and the mode it was built from |
| SideBar.RouteOptionOf | src/app/shared/side-bar/side-bar.component.ts:60-76 | the first of dashboard, reports and details the URL contains, the dashboard when it contains none |
| SideBar.MarkerAfter | src/app/shared/side-bar/side-bar.component.ts:79-95 | the marker goes to the option's position (3.5, 18, 32.5), except that reports in the eventual-permits mode and an unknown option leave it where it was; a known position stays known |
| SideBar.InitMarkerFollowsRoute | src/app/shared/side-bar/side-bar.component.ts:39-45 | outside the eventual-permits mode, the marker `ngOnInit` leaves depends only on the URL, not on where it was |
| SideBar.SideBarComponent.constructor | src/app/shared/side-bar/side-bar.component.ts:15-17 | the dashboard selected, the marker at 4.5, the certificates mode |
| SideBar.SideBarComponent.AnimateIcon | src/app/shared/side-bar/side-bar.component.ts:79-95 | the marker becomes `MarkerAfter` of the selected option and mode; the reports position is not taken in the eventual-permits mode, and an unknown option leaves the marker where it is |
| SideBar.SideBarComponent.OnNavigationEnd | src/app/shared/side-bar/side-bar.component.ts:23-36 | option and mode are read from the new URL; a reports page in the eventual-permits mode is redirected to that mode's dashboard; the marker becomes `MarkerAfter` of the new option and mode |
| SideBar.SideBarComponent.NgOnInit | src/app/shared/side-bar/side-bar.component.ts:39-45 | option and mode come from the URL, then the option is chosen again by keyword; the marker is placed twice, first for the URL's option and then for the keyword's |
| SideBar.SideBarComponent.RouteOption | src/app/shared/side-bar/side-bar.component.ts:60-76 | the option named in the URL by priority is selected and the marker becomes `MarkerAfter` of it and the mode |
| SideBar.SideBarComponent.SelectOption | src/app/shared/side-bar/side-bar.component.ts:47-54 | selection and marker change at once, the marker to `MarkerAfter` of the option and mode; the navigation, to the option in the current mode, is returned to be carried out later |
| Header.HeaderComponent.constructor | src/app/shared/header/header.component.ts:16 | before the first navigation the title is 'Sistema de Estadísticas' |
| Header.TitleFor | src/app/shared/header/header.component.ts:36-51 | the title is one of the area titles or 'IHTT', never the pre-navigation title |
| Header.HeaderComponent.SetTitle | src/app/shared/header/header.component.ts:36-51 | the first area the URL names, in the order inspection, emissions, operations, gives the title; 'IHTT' when it names none; the new title is `TitleFor(url)` |
| Header.InspectionBeforeOperations | src/app/shared/header/header.component.ts:38-47 | a URL naming both operations and inspection gets the earlier case's title: `TitleFor` gives it 'Inspectoría' |
| DateFilter.Announce | src/app/shared/date-filter/date-filter.component.ts:50-57 | a change of the form is announced, with the whole form, exactly when both dates are set |
| DateFilter.Clamp | src/app/shared/date-filter/date-filter.component.ts:75-80 | afterwards the end date is never before the start date, and it changes only when it was |
| DateFilter.ClearedEndTakesStart | src/app/shared/date-filter/date-filter.component.ts:75-80 | a cleared end date is replaced by any start date after the epoch |
| DateFilter.ClampIdempotent | src/app/shared/date-filter/date-filter.component.ts:75-80 | clamping twice is clamping once |
| DateFilter.DateFilterComponent.constructor | src/app/shared/date-filter/date-filter.component.ts:23-28 | the inputs start at today, the first of the month and 'certificateExpiration'; no form yet |
| DateFilter.DateFilterComponent.NgOnInit | src/app/shared/date-filter/date-filter.component.ts:41-59 | the form starts from the inputs as they are; building it announces nothing |
| DateFilter.DateFilterComponent.ClearEndDate | src/app/shared/date-filter/date-filter.component.ts:75-80 | afterwards the end date is never before the start date |
| DateFilter.WithStart | src/app/shared/date-filter/date-filter.component.ts:47-49 | a new start date is set and the end date clamped to it; an end date already after it is kept |
| DateFilter.StartAnnouncements | src/app/shared/date-filter/date-filter.component.ts:47-58 | a start date that does not pull the end date announces the final form once; at most two announcements |
| DateFilter.PatchOnlyChanged | src/app/shared/date-filter/date-filter.component.ts:61-73 | `ngOnChanges` patches only the changed inputs: an unchanged date type or start date keeps the form's value, and the end date changes only when it changed or a new start date clamps it |
| DateFilter.PatchNothing | src/app/shared/date-filter/date-filter.component.ts:61-73 | with no input changed the form stays as it was and nothing is announced |
| DateFilter.SingleChangeAnnouncesOnce | src/app/shared/date-filter/date-filter.component.ts:61-73 | a single changed input that causes no clamp announces the final form once when both its dates are set, and nothing otherwise |
| DateFilter.DateFilterComponent.SetStartDate | src/app/shared/date-filter/date-filter.component.ts:47-58 | the form becomes `WithStart` of the new date: the end date is clamped first and that change is announced, then the start date's change is; every announcement carries the final form |
| DateFilter.DateFilterComponent.SetEndDate | src/app/shared/date-filter/date-filter.component.ts:50-57 | the change is announced and the end date is not clamped |
| DateFilter.DateFilterComponent.SetDateType | src/app/shared/date-filter/date-filter.component.ts:50-57 | the change is announced with the new date type |
| DateFilter.DateFilterComponent.NgOnChanges | src/app/shared/date-filter/date-filter.component.ts:61-73 | the changed inputs take their new values; once the form exists it becomes `Patch` of the old form (date type, then start date with its clamp, then end date) and the announcements are those of each patch in turn; before the form exists nothing is announced |

## Left out

- HTTP transport and subscriptions are left out. `DashboardQueries`, `OperationsQueries` and the HTTP half of `ApplicationsQueries` become request methods plus response methods. The source has no stale-response guard and no retry, and the model adds none.
- The analytical PDF reports (`generarReporteCertificadosAnalisis`, `generarReportePermisosEventualesAnalisis`, `generarReporteSolicitudesAnalisis`) are opaque calls. The views' callbacks return them as a `PdfAnalisis` action carrying the response, uninterpreted, and the filters. Their page layout, which draws tables from the response's breakdowns, is not modelled.
- Service methods outside these files are opaque calls. Examples are `getFines`, `getEventualPermits*`, `generarReporteSolicitudes*`, `generateApplicationsPDF` and `generateApplicationsExcel`. Each component method returns an action naming the call and its arguments.
- Chart rendering is left out. This covers amCharts roots, Chart.js instances, disposal, the `setTimeout` retry of the school-certificates dashboard and animation. Only the data handed to the charts is modelled.
- jsPDF/autotable layout, ExcelJS workbooks, FileSaver, `window.open`, `alert` dialogs and console logging are left out. Only the rows, cells, footers, title-page flag and column widths are modelled. An alert is returned as its message.
- Locale and number formatting are left out. `toLocaleString('es-HN')` and `toFixed` are replaced by a formatting parameter; only their zero and missing branches are modelled. Money sums are integers, not IEEE doubles.
- moment and Date are left out. Parsing, formatting, `isBetween` and the current time are parameters (`formato`, `between`, `time`, a `Calendar`). Dates are integer timestamps, and an unparsable date is whatever the parameter makes of it.
- Dedup.DedupKeepsKeyless: the random `Math.random()` key given to a record without a notice code is a fresh token that never collides with another key. A real collision, however unlikely, is not modelled.
- DashboardGeneralReport.ProcesarDatos: the `Math.random()` variations are a parameter. The fractions use exact real arithmetic and `Floor`, not IEEE doubles. The floored counts agree with doubles for ordinary totals, but the four income parts can differ from the program's in the last bits even for small totals.
- DashboardGeneralReport.OrZero: `total` and `kpis.totalPaid` are read as numbers, and anything that is not a number counts as 0. The source's `x || 0` keeps a truthy non-number such as `"5"` or `true`, which JavaScript then stores as it is or coerces in the products. The backend sends numbers there.
- DashboardGeneralReport.ProcesarDatosCoherente: its income clause, that the four parts add up to the period's income, is a fact of exact reals. In the program's doubles `3*0.6 + 3*0.25 + 3*0.1 + 3*0.05` is 2.9999999999999996, not 3.
- Object key order is modelled as insertion order. This affects group-bys and `Object.entries` over a record built by `reduce`. JavaScript lists integer-like keys first in ascending order, and month keys such as '2024-05' are not integer-like.
- ChartSeries.MonthlySeriesSpec: the time-order promise assumes every month key parses to a time. The source sorts with a comparator that gives NaN for an unparsable category, and the order it then produces is not specified.
- ChartSeries.MonthlySeries: `Array.prototype.sort` works in place on the response's array. The model sorts a copy, so aliasing of that array is not captured.
- Operations.ColumnTotalIsTypeTotal: the stacked total equals the procedure type's total only when no two rows share a type and a series. `find` reads only the first such row, and the lemma states this precondition rather than claiming more. The backend groups by both, so that is the expected case.
- Operations: `generateGraphs` is never called in the source, so it is not modelled. It would also draw the procedure chart twice.
- ApplicationsDashboard.ApplicationsDashboardComponent.UpdateKpisFromAnalytics: the `inProcessApplications` KPI of the response is not copied, because the source does not copy it.
- JsValues.LowerChar, JsValues.Lower, JsValues.StatusIgnoresCase, JsValues.StatusNamedInAnyCase: lower-casing covers only A-Z and À-Þ (except ×). JavaScript's `toLowerCase()` covers all of Unicode; for example U+212A KELVIN SIGN lowers to 'k'.
- Catalogue.FilterCategoriesSpec: it inherits the lower-casing limit above, as do the status matches of EventualPermitsReports (`PermisosConEstado`) and FinesReports (`MultasConEstado`, `EstadoIgnoraMayusculas`). For text holding other cased letters, the model and the source can keep different entries.
- SchoolCertificatesDashboard.Shorten, SchoolCertificatesDashboard.CategoryBars, SchoolCertificatesDashboard.RawRow, ExcelHelper.AutoFit: a Dafny string counts code points, while JavaScript's `.length` and `substring` count UTF-16 units. For text with characters outside the Basic Multilingual Plane, such as emoji, the truncation points and column widths differ from the source's.
- The `startDateObject`/`endDateObject` getters are left out. They only wrap a string in a `Date` for the date filter.
- Angular machinery is left out: dependency injection, routing, reactive-form internals and change detection. Template `ngModel` bindings are treated as direct field writes; the model has no method for them. An example is `isAutomaticRenewal` in the applications reports, written by the template.
- Header: the cookie-backed `position` and the user `name` are left out, since cookie access is framework machinery. So is `logout` in the side bar, a bare navigation.
- DateFilter.DateFilterComponent.SetStartDate: a start-date change announces twice when the end date is clamped. One announcement comes from the clamp's own value change and one from the start date's. Reactive forms fire these nested, and the model states both as carrying the final form; emission timing is not modelled beyond that.
- DateFilter.ClearedEndTakesStart: a null date compares as 0, as JavaScript's `>` does. The lemma is stated for start dates after the epoch only.
- SideBar.SideBarComponent.SelectOption: the 500 ms `setTimeout` before navigating is not modelled. The navigation target is returned and the caller performs it.
- SchoolCertificatesDashboard.SchoolCertificatesDashboardComponent.OnAnalyticsResponse: the charts drawn from the response are left out, as above. Only the loading flag is modelled.
- The interface files, charts.services.ts, admin.routes.ts, side-nav-button and the `.spec.ts` files have no logic of their own. They only supply the record shapes used by `Records`.
