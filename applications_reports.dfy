/** The applications reports view: it loads the applications matching its filter object and
    produces either a detailed list or an analytical report of them. */
module ApplicationsReports {
  import opened JsValues
  import opened Records
  import opened QueryParams
  import ApplicationsQueries

  /** The two kinds of report the view can produce. */
  datatype TipoReporte = Lista | Analisis

  function TipoTexto(t: TipoReporte): string
  {
    if t == Lista then "lista" else "analisis"
  }

  /** The filter object, handed as a whole to the applications service; `''` is an unset
      field and the renewal state is `undefined`, `true` or `false`. */
  datatype Filtros = Filtros(
    startDate: string, endDate: string, fileStatus: string, procedureType: string,
    categoryId: string, applicantName: string, companyName: string, applicationId: string,
    isAutomaticRenewal: JsValue, tipoReporte: TipoReporte)

  /** The filter object with both dates of the range and nothing else chosen. */
  function FiltrosIniciales(start: string, end: string): Filtros
  {
    Filtros(start, end, "", "", "", "", "", "", Undefined, Analisis)
  }

  /** `Object.entries(filtros)`, in the order the object literal declares them. */
  function Entradas(f: Filtros): Entries
  {
    [("startDate", Str(f.startDate)),
     ("endDate", Str(f.endDate)),
     ("fileStatus", Str(f.fileStatus)),
     ("procedureType", Str(f.procedureType)),
     ("categoryId", Str(f.categoryId)),
     ("applicantName", Str(f.applicantName)),
     ("companyName", Str(f.companyName)),
     ("applicationId", Str(f.applicationId)),
     ("isAutomaticRenewal", f.isAutomaticRenewal),
     ("tipoReporte", Str(TipoTexto(f.tipoReporte)))]
  }

  /** The query record both the list and the analytics requests send. */
  function Solicitud(f: Filtros): Entries
  {
    ApplicationsQueries.Clean(Entradas(f))
  }

  /** Field `i` of the filter object reaches the query exactly when the service keeps its
      value, and then as `String(value)`. */
  lemma SolicitudEntrada(f: Filtros, i: nat)
    requires i < 10
    ensures var t := Entradas(f);
      (HasKey(Solicitud(f), t[i].0) <==> ApplicationsQueries.Kept(t[i].1)) &&
      Lookup(Solicitud(f), t[i].0) == if ApplicationsQueries.Kept(t[i].1) then Str(ToJsString(t[i].1)) else Undefined
  {
    var t := Entradas(f);
    assert DistinctKeys(t);
    LookupAt(t, i);
    ApplicationsQueries.CleanLookup(t, t[i].0);
  }

  /** The two dates are sent exactly when they are set, as typed, and the report kind is
      always sent. */
  lemma SolicitudEnviaFechas(f: Filtros)
    ensures HasKey(Solicitud(f), "startDate") <==> f.startDate != ""
    ensures HasKey(Solicitud(f), "endDate") <==> f.endDate != ""
    ensures f.startDate != "" ==> Lookup(Solicitud(f), "startDate") == Str(f.startDate)
    ensures f.endDate != "" ==> Lookup(Solicitud(f), "endDate") == Str(f.endDate)
    ensures Lookup(Solicitud(f), "tipoReporte") == Str(TipoTexto(f.tipoReporte))
  {
    SolicitudEntrada(f, 0);
    SolicitudEntrada(f, 1);
    SolicitudEntrada(f, 9);
  }

  /** Each of the three selections is sent exactly when one is chosen, as chosen. */
  lemma SolicitudEnviaSelecciones(f: Filtros)
    ensures HasKey(Solicitud(f), "fileStatus") <==> f.fileStatus != ""
    ensures HasKey(Solicitud(f), "procedureType") <==> f.procedureType != ""
    ensures HasKey(Solicitud(f), "categoryId") <==> f.categoryId != ""
    ensures f.fileStatus != "" ==> Lookup(Solicitud(f), "fileStatus") == Str(f.fileStatus)
  {
    SolicitudEntrada(f, 2);
    SolicitudEntrada(f, 3);
    SolicitudEntrada(f, 4);
  }

  /** Each of the three text filters is sent exactly when it is not empty, as typed. */
  lemma SolicitudEnviaTextos(f: Filtros)
    ensures HasKey(Solicitud(f), "applicantName") <==> f.applicantName != ""
    ensures HasKey(Solicitud(f), "companyName") <==> f.companyName != ""
    ensures HasKey(Solicitud(f), "applicationId") <==> f.applicationId != ""
    ensures f.applicantName != "" ==> Lookup(Solicitud(f), "applicantName") == Str(f.applicantName)
    ensures f.applicationId != "" ==> Lookup(Solicitud(f), "applicationId") == Str(f.applicationId)
  {
    SolicitudEntrada(f, 5);
    SolicitudEntrada(f, 6);
    SolicitudEntrada(f, 7);
  }

  /** The renewal state is sent whenever one is chosen, `false` included (as "false"), and
      never when it is left undefined. */
  lemma SolicitudEnviaRenovacion(f: Filtros)
    ensures f.isAutomaticRenewal == Undefined ==> !HasKey(Solicitud(f), "isAutomaticRenewal")
    ensures f.isAutomaticRenewal == Bool(false) ==> Lookup(Solicitud(f), "isAutomaticRenewal") == Str("false")
    ensures f.isAutomaticRenewal == Bool(true) ==> Lookup(Solicitud(f), "isAutomaticRenewal") == Str("true")
  {
    SolicitudEntrada(f, 8);
  }

  /** With only the date range chosen, the query holds the two dates and the report kind,
      and none of the other filters. */
  lemma InicialesSoloFechas(start: string, end: string)
    requires start != "" && end != ""
    ensures var q := Solicitud(FiltrosIniciales(start, end));
      Lookup(q, "startDate") == Str(start) && Lookup(q, "endDate") == Str(end) &&
      Lookup(q, "tipoReporte") == Str("analisis") &&
      !HasKey(q, "fileStatus") && !HasKey(q, "procedureType") && !HasKey(q, "categoryId") &&
      !HasKey(q, "applicantName") && !HasKey(q, "companyName") && !HasKey(q, "applicationId") &&
      !HasKey(q, "isAutomaticRenewal")
  {
    var f := FiltrosIniciales(start, end);
    SolicitudEnviaFechas(f);
    SolicitudEnviaSelecciones(f);
    SolicitudEnviaTextos(f);
    SolicitudEnviaRenovacion(f);
  }

  /** What a click on "generate" leads to. */
  datatype Accion =
    | Alerta(mensaje: string)
    | PdfLista(solicitudes: seq<Application>, filtros: Filtros)
    | SolicitarAnalisis(parametros: Entries)
    | PdfAnalisis(datos: Entries, filtros: Filtros)

  const SinDatos := "No hay datos para generar el reporte"

  /** The button labels and descriptions of the two kinds of report. */
  const BotonLista := "Generar Lista Detallada"
  const BotonAnalisis := "Generar Reporte Analítico"
  const DescripcionLista := "Lista detallada de solicitudes con filtros aplicados en formato tabular"
  const DescripcionAnalisis := "Reporte ejecutivo con análisis estadístico, tendencias, insights y recomendaciones"

  class ApplicationsReportsComponent {
    var cargando: bool
    var solicitudes: seq<Application>
    /** The date pickers; `None` is a cleared picker. */
    var fechaInicio: Option<int>
    var fechaFin: Option<int>
    var tipoReporte: TipoReporte
    var filtros: Filtros

    /** A fresh view after `ngOnInit` has set the range: `start` and `end` are the first of
        the month and today, given here. */
    constructor(start: string, end: string)
      ensures !cargando && solicitudes == [] && fechaInicio.None? && fechaFin.None?
      ensures tipoReporte == Analisis && filtros == FiltrosIniciales(start, end)
    {
      cargando := false;
      solicitudes := [];
      fechaInicio := None;
      fechaFin := None;
      tipoReporte := Analisis;
      filtros := FiltrosIniciales(start, end);
    }

    /** `cargarSolicitudes`, the request half: the whole filter object, cleaned. */
    method CargarSolicitudes() returns (req: Entries)
      modifies this
      ensures cargando && req == Solicitud(filtros)
      ensures solicitudes == old(solicitudes) && filtros == old(filtros) && tipoReporte == old(tipoReporte)
      ensures fechaInicio == old(fechaInicio) && fechaFin == old(fechaFin)
    {
      cargando := true;
      req := ApplicationsQueries.CleanParams(Entradas(filtros));
    }

    method OnCargaExito(data: seq<Application>)
      modifies this
      ensures solicitudes == data && !cargando
      ensures filtros == old(filtros) && tipoReporte == old(tipoReporte)
      ensures fechaInicio == old(fechaInicio) && fechaFin == old(fechaFin)
    {
      solicitudes := data;
      cargando := false;
    }

    /** Every error callback: only the loading flag comes down. */
    method OnRespuestaSinDatos()
      modifies this
      ensures !cargando && solicitudes == old(solicitudes)
      ensures filtros == old(filtros) && tipoReporte == old(tipoReporte)
      ensures fechaInicio == old(fechaInicio) && fechaFin == old(fechaFin)
    {
      cargando := false;
    }

    /** The success callback of the analytical report: the response, as received, and the
        filter object go to the PDF service's analytical report, then the flag comes down. */
    method OnAnalisisExito(datos: Entries) returns (accion: Accion)
      modifies this
      ensures accion == PdfAnalisis(datos, filtros) && !cargando
      ensures solicitudes == old(solicitudes) && filtros == old(filtros) && tipoReporte == old(tipoReporte)
      ensures fechaInicio == old(fechaInicio) && fechaFin == old(fechaFin)
    {
      accion := PdfAnalisis(datos, filtros);
      cargando := false;
    }

    /** `filtrarDatos`: only a complete range is taken, re-formatted by `formato`, and
        reloads; a partial one changes nothing. */
    method FiltrarDatos(inicio: Option<int>, fin: Option<int>, formato: int -> string) returns (req: Option<Entries>)
      modifies this
      ensures req.Some? <==> inicio.Some? && fin.Some?
      ensures req.Some? ==>
        cargando && req.value == Solicitud(filtros) &&
        filtros == old(filtros).(startDate := formato(inicio.value), endDate := formato(fin.value))
      ensures req.None? ==> filtros == old(filtros) && cargando == old(cargando)
      ensures solicitudes == old(solicitudes) && tipoReporte == old(tipoReporte)
      ensures fechaInicio == old(fechaInicio) && fechaFin == old(fechaFin)
    {
      if inicio.Some? && fin.Some? {
        filtros := filtros.(startDate := formato(inicio.value), endDate := formato(fin.value));
        var r := CargarSolicitudes();
        req := Some(r);
      } else {
        req := None;
      }
    }

    /** `aplicarFiltros`: the chosen report kind is copied into the filter object, which is
        then sent. */
    method AplicarFiltros() returns (req: Entries)
      modifies this
      ensures filtros == old(filtros).(tipoReporte := tipoReporte) && cargando
      ensures req == Solicitud(filtros)
      ensures Lookup(req, "tipoReporte") == Str(TipoTexto(tipoReporte))
      ensures solicitudes == old(solicitudes) && tipoReporte == old(tipoReporte)
      ensures fechaInicio == old(fechaInicio) && fechaFin == old(fechaFin)
    {
      filtros := filtros.(tipoReporte := tipoReporte);
      req := CargarSolicitudes();
      SolicitudEnviaFechas(filtros);
    }

    /** `generarReporte`: with no application it only alerts and the flag is untouched; a
        list report is produced at once and the flag, raised, comes straight back down; an
        analytical report is requested with the filter object and the flag stays up until the
        response. */
    method GenerarReporte() returns (accion: Accion)
      modifies this
      ensures |solicitudes| == 0 ==> accion == Alerta(SinDatos) && cargando == old(cargando)
      ensures |solicitudes| > 0 && tipoReporte == Lista ==> accion == PdfLista(solicitudes, filtros) && !cargando
      ensures |solicitudes| > 0 && tipoReporte == Analisis ==> accion == SolicitarAnalisis(Solicitud(filtros)) && cargando
      ensures solicitudes == old(solicitudes) && filtros == old(filtros) && tipoReporte == old(tipoReporte)
      ensures fechaInicio == old(fechaInicio) && fechaFin == old(fechaFin)
    {
      if |solicitudes| == 0 {
        accion := Alerta(SinDatos);
        return;
      }
      cargando := true;
      if tipoReporte == Lista {
        accion := PdfLista(solicitudes, filtros);
        cargando := false;
      } else {
        var req := ApplicationsQueries.CleanParams(Entradas(filtros));
        accion := SolicitarAnalisis(req);
      }
    }

    /** `limpiarFiltros`: the filter object is rebuilt with the current month's range, the
        report kind goes back to analytical in both places, the pickers are cleared, and the
        view reloads. */
    method LimpiarFiltros(start: string, end: string) returns (req: Entries)
      modifies this
      ensures filtros == FiltrosIniciales(start, end) && tipoReporte == Analisis
      ensures fechaInicio.None? && fechaFin.None? && cargando
      ensures req == Solicitud(filtros) && solicitudes == old(solicitudes)
    {
      filtros := FiltrosIniciales(start, end);
      tipoReporte := Analisis;
      fechaInicio := None;
      fechaFin := None;
      req := CargarSolicitudes();
    }

    /** `obtenerTextoBoton`: the button names the report the click will produce. */
    function TextoBoton(): (texto: string)
      reads this
      ensures tipoReporte == Lista ==> texto == BotonLista
      ensures texto == BotonAnalisis <==> tipoReporte == Analisis
    {
      assert |BotonLista| != |BotonAnalisis|;
      match tipoReporte
      case Lista => BotonLista
      case Analisis => BotonAnalisis
    }

    /** `obtenerDescripcionReporte`: the description of that report. */
    function DescripcionReporte(): (texto: string)
      reads this
      ensures tipoReporte == Lista ==> texto == DescripcionLista
      ensures texto == DescripcionAnalisis <==> tipoReporte == Analisis
    {
      assert |DescripcionLista| != |DescripcionAnalisis|;
      match tipoReporte
      case Lista => DescripcionLista
      case Analisis => DescripcionAnalisis
    }
  }
}
