/** The certificates reports view: it loads the certificates matching its filters and offers a
    list PDF and a detailed (analytics) PDF. */
module CertificatesReports {
  import opened JsValues
  import opened Records
  import opened QueryParams
  import Seqs

  /** The filters; `''` is an unset filter. `tipoFecha` says which date the range applies to. */
  datatype Filtros = Filtros(
    fechaInicio: string, fechaFin: string, departamento: string, tipoDocumento: string,
    estado: string, tipoFecha: string)

  /** The filters after `limpiarFiltros`, which are also the initial ones. */
  const FiltrosLimpios := Filtros("", "", "", "", "", "certificateExpiration")

  /** What a click on a "generate" button leads to. */
  datatype Accion =
    | Alerta(mensaje: string)
    | PdfCertificados(certificados: seq<Certificate>, filtros: Filtros)
    | SolicitarAnalisis(parametros: Entries)
    | PdfAnalisis(datos: Entries, filtros: Filtros)

  const SinDatos := "No hay datos para generar el reporte"

  /** The request parameters the filters stand for: each set filter under its backend name; a
      date is re-formatted by `fecha` (moment's `YYYY-MM-DD` formatting). */
  function TablaParametros(f: Filtros, fecha: string -> string): Entries
  {
    [("startDate", if f.fechaInicio != "" then Str(fecha(f.fechaInicio)) else Undefined),
     ("endDate", if f.fechaFin != "" then Str(fecha(f.fechaFin)) else Undefined),
     ("department", OrUndefined(f.departamento)),
     ("documentType", OrUndefined(f.tipoDocumento)),
     ("status", OrUndefined(f.estado)),
     ("dateType", OrUndefined(f.tipoFecha))]
  }

  /** Each filter is sent exactly when it is set, under its backend name and with its value. */
  lemma ParametrosRenombrados(f: Filtros, fecha: string -> string)
    ensures var p := DropUndefined(TablaParametros(f, fecha));
      (HasKey(p, "startDate") <==> f.fechaInicio != "") &&
      (HasKey(p, "endDate") <==> f.fechaFin != "") &&
      (HasKey(p, "department") <==> f.departamento != "") &&
      (HasKey(p, "documentType") <==> f.tipoDocumento != "") &&
      (HasKey(p, "status") <==> f.estado != "") &&
      (HasKey(p, "dateType") <==> f.tipoFecha != "") &&
      Lookup(p, "department") == OrUndefined(f.departamento) &&
      Lookup(p, "documentType") == OrUndefined(f.tipoDocumento) &&
      Lookup(p, "status") == OrUndefined(f.estado) &&
      Lookup(p, "dateType") == OrUndefined(f.tipoFecha)
  {
    var t := TablaParametros(f, fecha);
    TableEntrySent(t, 0);
    TableEntrySent(t, 1);
    TableEntrySent(t, 2);
    TableEntrySent(t, 3);
    TableEntrySent(t, 4);
    TableEntrySent(t, 5);
  }

  /** With the filters cleared, the request carries the date type and nothing else. */
  lemma LimpiosSoloTipoFecha(fecha: string -> string)
    ensures DropUndefined(TablaParametros(FiltrosLimpios, fecha)) == [("dateType", Str("certificateExpiration"))]
  {
    var t := TablaParametros(FiltrosLimpios, fecha);
    assert t == [("startDate", Undefined), ("endDate", Undefined), ("department", Undefined),
                 ("documentType", Undefined), ("status", Undefined), ("dateType", Str("certificateExpiration"))];
    assert t[..5] + [t[5]] == t;
    Seqs.FilterAppend(t[..5], [t[5]], IsDefined);
    DropUndefinedMembers(t[..5]);
    assert forall en :: en !in DropUndefined(t[..5]);
    Seqs.NoMembersEmpty(DropUndefined(t[..5]));
  }

  class ReportsComponent {
    var cargando: bool
    var certificados: seq<Certificate>
    /** The date pickers; `None` is a cleared picker. */
    var fechaInicio: Option<int>
    var fechaFin: Option<int>
    var filtros: Filtros

    constructor()
      ensures !cargando && certificados == [] && fechaInicio.None? && fechaFin.None?
      ensures filtros == FiltrosLimpios
    {
      cargando := false;
      certificados := [];
      fechaInicio := None;
      fechaFin := None;
      filtros := FiltrosLimpios;
    }

    /** `construirParametros`: a key only for a set filter, renamed to the backend's name. */
    method ConstruirParametros(fecha: string -> string) returns (params: Entries)
      ensures params == DropUndefined(TablaParametros(filtros, fecha))
    {
      ghost var tabla := TablaParametros(filtros, fecha);
      params := [];
      params := PutIfDefined(params, tabla, 0, "startDate", if filtros.fechaInicio != "" then Str(fecha(filtros.fechaInicio)) else Undefined);
      params := PutIfDefined(params, tabla, 1, "endDate", if filtros.fechaFin != "" then Str(fecha(filtros.fechaFin)) else Undefined);
      params := PutIfDefined(params, tabla, 2, "department", OrUndefined(filtros.departamento));
      params := PutIfDefined(params, tabla, 3, "documentType", OrUndefined(filtros.tipoDocumento));
      params := PutIfDefined(params, tabla, 4, "status", OrUndefined(filtros.estado));
      params := PutIfDefined(params, tabla, 5, "dateType", OrUndefined(filtros.tipoFecha));
    }

    /** `cargarCertificados` (and `aplicarFiltros`), the request half. */
    method CargarCertificados(fecha: string -> string) returns (req: Entries)
      modifies this
      ensures cargando && req == DropUndefined(TablaParametros(filtros, fecha))
      ensures certificados == old(certificados) && filtros == old(filtros)
      ensures fechaInicio == old(fechaInicio) && fechaFin == old(fechaFin)
    {
      cargando := true;
      req := ConstruirParametros(fecha);
    }

    method OnCargaExito(data: seq<Certificate>)
      modifies this
      ensures certificados == data && !cargando
      ensures filtros == old(filtros) && fechaInicio == old(fechaInicio) && fechaFin == old(fechaFin)
    {
      certificados := data;
      cargando := false;
    }

    method OnCargaError()
      modifies this
      ensures !cargando && certificados == old(certificados)
      ensures filtros == old(filtros) && fechaInicio == old(fechaInicio) && fechaFin == old(fechaFin)
    {
      cargando := false;
    }

    /** `limpiarFiltros`: every filter unset except the date type, which goes back to
        'certificateExpiration', so the reload still sends it, and only it. */
    method LimpiarFiltros(fecha: string -> string) returns (req: Entries)
      modifies this
      ensures filtros == FiltrosLimpios && fechaInicio.None? && fechaFin.None?
      ensures cargando && certificados == old(certificados)
      ensures req == [("dateType", Str("certificateExpiration"))]
    {
      fechaInicio := None;
      fechaFin := None;
      filtros := FiltrosLimpios;
      req := CargarCertificados(fecha);
      LimpiosSoloTipoFecha(fecha);
    }

    /** `generarReportePDF`: with no certificate it only alerts; otherwise the loaded
        certificates and the filters go to the PDF service. */
    method GenerarReportePdf() returns (accion: Accion)
      ensures |certificados| == 0 ==> accion == Alerta(SinDatos)
      ensures |certificados| > 0 ==> accion == PdfCertificados(certificados, filtros)
    {
      if |certificados| == 0 {
        accion := Alerta(SinDatos);
        return;
      }
      accion := PdfCertificados(certificados, filtros);
    }

    /** `generarReporteDetalladoPDF`: with no certificate it only alerts; otherwise the
        analytics are requested with the same parameters as the list. */
    method GenerarReporteDetalladoPdf(fecha: string -> string) returns (accion: Accion)
      ensures |certificados| == 0 ==> accion == Alerta(SinDatos)
      ensures |certificados| > 0 ==> accion == SolicitarAnalisis(DropUndefined(TablaParametros(filtros, fecha)))
    {
      if |certificados| == 0 {
        accion := Alerta(SinDatos);
        return;
      }
      var parametros := ConstruirParametros(fecha);
      accion := SolicitarAnalisis(parametros);
    }

    /** The analytics response of the detailed report: on success the response, as received,
        and the filters go to the PDF service's analytical report; a failure only alerts. */
    method OnAnalisisRespuesta(exito: bool, datos: Entries) returns (accion: Accion)
      ensures exito ==> accion == PdfAnalisis(datos, filtros)
      ensures !exito ==> accion == Alerta("Error al generar el reporte de análisis")
    {
      if exito {
        accion := PdfAnalisis(datos, filtros);
      } else {
        accion := Alerta("Error al generar el reporte de análisis");
      }
    }

    /** The start-date picker: the picked date, formatted, or `''` when cleared. */
    method OnFechaInicioChange(f: Option<int>, formato: int -> string)
      modifies this
      ensures fechaInicio == f
      ensures filtros == old(filtros).(fechaInicio := if f.Some? then formato(f.value) else "")
      ensures certificados == old(certificados) && fechaFin == old(fechaFin) && cargando == old(cargando)
    {
      fechaInicio := f;
      filtros := filtros.(fechaInicio := if f.Some? then formato(f.value) else "");
    }

    /** The end-date picker: the picked date, formatted, or `''` when cleared. */
    method OnFechaFinChange(f: Option<int>, formato: int -> string)
      modifies this
      ensures fechaFin == f
      ensures filtros == old(filtros).(fechaFin := if f.Some? then formato(f.value) else "")
      ensures certificados == old(certificados) && fechaInicio == old(fechaInicio) && cargando == old(cargando)
    {
      fechaFin := f;
      filtros := filtros.(fechaFin := if f.Some? then formato(f.value) else "");
    }
  }
}
