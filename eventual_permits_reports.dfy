/** The eventual-permits reports view: it loads the permits matching its filters, offers a
    list or an analytics PDF, and shows statistics computed over the permits after
    de-duplication by notice code. */
module EventualPermitsReports {
  import opened JsValues
  import opened Records
  import opened QueryParams
  import Seqs
  import Dedup

  datatype TipoReporte = Lista | Analisis

  /** The six text filters; `''` is an unset filter. */
  datatype Filtros = Filtros(
    fechaInicio: string, fechaFin: string, estadoPermiso: string,
    tipoServicio: string, rtn: string, nombreSolicitante: string)

  const FiltrosVacios := Filtros("", "", "", "", "", "")

  /** What a click on "generate" leads to. */
  datatype Accion =
    | SolicitarAnalisis(parametros: Entries)
    | Alerta(mensaje: string)
    | PdfLista(permisos: seq<EventualPermit>, filtros: Filtros)
    | PdfAnalisis(datos: Entries, filtros: Filtros)

  function CodigoPermiso(p: EventualPermit): Option<string>
  {
    NoticeKey(p.noticeCode)
  }

  /** The request parameters the filters stand for: each set filter under its backend name,
      and `dateType = 'system'` once either date is set. */
  function TablaParametros(f: Filtros): Entries
  {
    [("startDate", OrUndefined(f.fechaInicio)),
     ("endDate", OrUndefined(f.fechaFin)),
     ("permitStatus", OrUndefined(f.estadoPermiso)),
     ("serviceType", OrUndefined(f.tipoServicio)),
     ("rtn", OrUndefined(f.rtn)),
     ("applicantName", OrUndefined(f.nombreSolicitante)),
     ("dateType", if f.fechaInicio != "" || f.fechaFin != "" then Str("system") else Undefined)]
  }

  lemma ClavesDistintas(f: Filtros)
    ensures DistinctKeys(TablaParametros(f))
  {
  }

  /** With every filter unset, not even `dateType` is sent: the request has no parameter. */
  lemma SinFiltrosNoHayParametros()
    ensures DropUndefined(TablaParametros(FiltrosVacios)) == []
  {
    var t := TablaParametros(FiltrosVacios);
    var r := DropUndefined(t);
    DropUndefinedMembers(t);
    assert forall en :: en in t ==> en.1 == Undefined by {
      assert t == [("startDate", Undefined), ("endDate", Undefined), ("permitStatus", Undefined),
        ("serviceType", Undefined), ("rtn", Undefined), ("applicantName", Undefined), ("dateType", Undefined)];
    }
    assert forall en :: en !in r;
    Seqs.NoMembersEmpty(r);
  }

  /** `permiso.amount || 0`. */
  function Monto(p: EventualPermit): int
  {
    AmountOrZero(p.amount)
  }

  /** A status containing "activo" in any letter case counts as active, so "INACTIVO" does. */
  lemma InactivoCuentaComoActivo(p: EventualPermit)
    requires p.permitStatus == Str("INACTIVO")
    ensures StatusIncludes(p.permitStatus, "activo")
  {
    var l := Lower("INACTIVO");
    assert l == "inactivo";
    assert l[2..8] == "activo";
    ContainsAt(l, "activo", 2);
  }

  class EventualPermitsReportsComponent {
    var cargando: bool
    var permisos: seq<EventualPermit>
    /** The date pickers; `None` is a cleared picker. */
    var fechaInicio: Option<int>
    var fechaFin: Option<int>
    var tipoReporte: TipoReporte
    var filtros: Filtros

    constructor()
      ensures !cargando && permisos == [] && fechaInicio.None? && fechaFin.None?
      ensures tipoReporte == Analisis && filtros == FiltrosVacios
    {
      cargando := false;
      permisos := [];
      fechaInicio := None;
      fechaFin := None;
      tipoReporte := Analisis;
      filtros := FiltrosVacios;
    }

    /** `construirParametros`: a key only for a set filter, renamed to the backend's name. */
    method ConstruirParametros() returns (params: Entries)
      ensures params == DropUndefined(TablaParametros(filtros))
    {
      ghost var tabla := TablaParametros(filtros);
      ClavesDistintas(filtros);
      params := [];
      params := PutIfDefined(params, tabla, 0, "startDate", OrUndefined(filtros.fechaInicio));
      params := PutIfDefined(params, tabla, 1, "endDate", OrUndefined(filtros.fechaFin));
      params := PutIfDefined(params, tabla, 2, "permitStatus", OrUndefined(filtros.estadoPermiso));
      params := PutIfDefined(params, tabla, 3, "serviceType", OrUndefined(filtros.tipoServicio));
      params := PutIfDefined(params, tabla, 4, "rtn", OrUndefined(filtros.rtn));
      params := PutIfDefined(params, tabla, 5, "applicantName", OrUndefined(filtros.nombreSolicitante));
      var tipoFecha := if filtros.fechaInicio != "" || filtros.fechaFin != "" then Str("system") else Undefined;
      params := PutIfDefined(params, tabla, 6, "dateType", tipoFecha);
    }

    /** `cargarPermisos`: the request half; the response arrives through `OnCargaExito` or
        `OnCargaError`. */
    method CargarPermisos() returns (req: Entries)
      modifies this
      ensures cargando
      ensures req == DropUndefined(TablaParametros(filtros))
      ensures permisos == old(permisos) && filtros == old(filtros) && tipoReporte == old(tipoReporte)
      ensures fechaInicio == old(fechaInicio) && fechaFin == old(fechaFin)
    {
      cargando := true;
      req := ConstruirParametros();
    }

    method OnCargaExito(data: seq<EventualPermit>)
      modifies this
      ensures permisos == data && !cargando
      ensures filtros == old(filtros) && tipoReporte == old(tipoReporte)
      ensures fechaInicio == old(fechaInicio) && fechaFin == old(fechaFin)
    {
      permisos := data;
      cargando := false;
    }

    method OnCargaError()
      modifies this
      ensures permisos == old(permisos) && !cargando
      ensures filtros == old(filtros) && tipoReporte == old(tipoReporte)
      ensures fechaInicio == old(fechaInicio) && fechaFin == old(fechaFin)
    {
      cargando := false;
    }

    /** `limpiarFiltros`: everything unset, then a reload that sends no parameter at all. */
    method LimpiarFiltros() returns (req: Entries)
      modifies this
      ensures filtros == FiltrosVacios && fechaInicio.None? && fechaFin.None?
      ensures cargando && permisos == old(permisos)
      ensures req == []
    {
      fechaInicio := None;
      fechaFin := None;
      filtros := FiltrosVacios;
      req := CargarPermisos();
      SinFiltrosNoHayParametros();
    }

    /** `generarReportePermisosPDF`: the analytics report is requested from the backend; the
        list report needs at least one loaded permit. */
    method GenerarReportePermisosPdf() returns (accion: Accion)
      modifies this
      ensures tipoReporte == Analisis ==>
        (cargando && accion.SolicitarAnalisis? && accion.parametros == DropUndefined(TablaParametros(filtros)))
      ensures tipoReporte == Lista && |permisos| == 0 ==> accion == Alerta("No hay datos para generar el reporte")
      ensures tipoReporte == Lista && |permisos| > 0 ==> accion == PdfLista(permisos, filtros)
      ensures tipoReporte == Lista ==> cargando == old(cargando)
      ensures permisos == old(permisos) && filtros == old(filtros) && tipoReporte == old(tipoReporte)
      ensures fechaInicio == old(fechaInicio) && fechaFin == old(fechaFin)
    {
      if tipoReporte == Analisis {
        cargando := true;
        var params := ConstruirParametros();
        accion := SolicitarAnalisis(params);
      } else if |permisos| == 0 {
        accion := Alerta("No hay datos para generar el reporte");
      } else {
        accion := PdfLista(permisos, filtros);
      }
    }

    /** The analytics response, successful or not, ends the loading state. On success the
        response, as received, and the filters go to the PDF service's analytical report; a
        failure only alerts. */
    method OnAnalisisRespuesta(exito: bool, datos: Entries) returns (accion: Accion)
      modifies this
      ensures !cargando
      ensures exito ==> accion == PdfAnalisis(datos, filtros)
      ensures !exito ==> accion == Alerta("Error al generar el reporte de análisis")
      ensures permisos == old(permisos) && filtros == old(filtros) && tipoReporte == old(tipoReporte)
      ensures fechaInicio == old(fechaInicio) && fechaFin == old(fechaFin)
    {
      if exito {
        accion := PdfAnalisis(datos, filtros);
      } else {
        accion := Alerta("Error al generar el reporte de análisis");
      }
      cargando := false;
    }

    /** The start-date picker: the picked date, formatted for the backend, or `''` when cleared. */
    method OnFechaInicioChange(fecha: Option<int>, formato: int -> string)
      modifies this
      ensures fechaInicio == fecha
      ensures filtros == old(filtros).(fechaInicio := if fecha.Some? then formato(fecha.value) else "")
      ensures permisos == old(permisos) && fechaFin == old(fechaFin) && cargando == old(cargando)
    {
      fechaInicio := fecha;
      filtros := filtros.(fechaInicio := if fecha.Some? then formato(fecha.value) else "");
    }

    method OnFechaFinChange(fecha: Option<int>, formato: int -> string)
      modifies this
      ensures fechaFin == fecha
      ensures filtros == old(filtros).(fechaFin := if fecha.Some? then formato(fecha.value) else "")
      ensures permisos == old(permisos) && fechaInicio == old(fechaInicio) && cargando == old(cargando)
    {
      fechaFin := fecha;
      filtros := filtros.(fechaFin := if fecha.Some? then formato(fecha.value) else "");
    }

    /** `deduplicarPermisos`. */
    method DeduplicarPermisos() returns (r: seq<EventualPermit>)
      ensures r == Dedup.Dedup(permisos, CodigoPermiso)
      ensures Seqs.IsSubsequence(r, permisos)
      ensures Dedup.UniqueCodes(r, CodigoPermiso)
      ensures Seqs.Filter(r, p => Dedup.Keyless(CodigoPermiso, p)) == Seqs.Filter(permisos, p => Dedup.Keyless(CodigoPermiso, p))
    {
      r := Dedup.DedupByCode(permisos, CodigoPermiso);
      Dedup.DedupIsSubsequence(permisos, CodigoPermiso);
      Dedup.DedupUniqueCodes(permisos, CodigoPermiso);
      Dedup.DedupKeepsKeyless(permisos, CodigoPermiso);
    }

    /** `totalPermisos`: the number of distinct permits, never more than were loaded. */
    method TotalPermisos() returns (n: nat)
      ensures n == |Dedup.Dedup(permisos, CodigoPermiso)|
      ensures n <= |permisos|
    {
      var unicos := DeduplicarPermisos();
      Seqs.SubsequenceProperties(unicos, permisos);
      n := |unicos|;
    }

    /** `montoTotalPermisos`: the amounts of the distinct permits, a missing amount as 0. */
    method MontoTotalPermisos() returns (total: int)
      ensures total == Seqs.Sum(Dedup.Dedup(permisos, CodigoPermiso), Monto)
    {
      var unicos := DeduplicarPermisos();
      total := 0;
      var i := 0;
      while i < |unicos|
        invariant 0 <= i <= |unicos|
        invariant total == Seqs.Sum(unicos[..i], Monto)
      {
        assert unicos[..i + 1][..i] == unicos[..i];
        total := total + AmountOrZero(unicos[i].amount);
        i := i + 1;
      }
      assert unicos[..|unicos|] == unicos;
    }

    /** `permisosActivos` / `permisosProcesados`: distinct permits whose status contains the
        word, in any letter case; never more than `totalPermisos`. */
    method PermisosConEstado(palabra: string) returns (n: nat)
      ensures n == Seqs.Count(Dedup.Dedup(permisos, CodigoPermiso), (p: EventualPermit) => StatusIncludes(p.permitStatus, palabra))
      ensures n <= |Dedup.Dedup(permisos, CodigoPermiso)|
    {
      var unicos := DeduplicarPermisos();
      n := |Seqs.Filter(unicos, (p: EventualPermit) => StatusIncludes(p.permitStatus, palabra))|;
    }

    method PermisosActivos() returns (n: nat)
      ensures n == Seqs.Count(Dedup.Dedup(permisos, CodigoPermiso), (p: EventualPermit) => StatusIncludes(p.permitStatus, "activo"))
      ensures n <= |Dedup.Dedup(permisos, CodigoPermiso)|
    {
      n := PermisosConEstado("activo");
    }

    method PermisosProcesados() returns (n: nat)
      ensures n == Seqs.Count(Dedup.Dedup(permisos, CodigoPermiso), (p: EventualPermit) => StatusIncludes(p.permitStatus, "procesado"))
      ensures n <= |Dedup.Dedup(permisos, CodigoPermiso)|
    {
      n := PermisosConEstado("procesado");
    }
  }
}
