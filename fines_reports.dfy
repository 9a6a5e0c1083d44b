/** The fines reports view: it loads the fines matching its filters, offers a PDF of them and
    shows quick statistics over the loaded fines. */
module FinesReports {
  import opened JsValues
  import opened Records
  import opened QueryParams
  import Seqs

  /** The four filters; `''` is an unset filter. */
  datatype Filtros = Filtros(fechaInicio: string, fechaFin: string, departamento: string, estado: string)

  const FiltrosVacios := Filtros("", "", "", "")

  /** What a click on "generate" leads to. */
  datatype Accion = Alerta(mensaje: string) | PdfMultas(multas: seq<Fine>, filtros: Filtros)

  /** The request parameters the filters stand for; a date is re-formatted by `fecha`. */
  function TablaParametros(f: Filtros, fecha: string -> string): Entries
  {
    [("startDate", if f.fechaInicio != "" then Str(fecha(f.fechaInicio)) else Undefined),
     ("endDate", if f.fechaFin != "" then Str(fecha(f.fechaFin)) else Undefined),
     ("department", OrUndefined(f.departamento)),
     ("status", OrUndefined(f.estado))]
  }

  /** Each filter is sent exactly when it is set, under its backend name; with no filter set
      the request has no parameter. */
  lemma ParametrosRenombrados(f: Filtros, fecha: string -> string)
    ensures var p := DropUndefined(TablaParametros(f, fecha));
      (HasKey(p, "startDate") <==> f.fechaInicio != "") &&
      (HasKey(p, "endDate") <==> f.fechaFin != "") &&
      (HasKey(p, "department") <==> f.departamento != "") &&
      (HasKey(p, "status") <==> f.estado != "") &&
      Lookup(p, "department") == OrUndefined(f.departamento) &&
      Lookup(p, "status") == OrUndefined(f.estado)
    ensures f == FiltrosVacios ==> DropUndefined(TablaParametros(f, fecha)) == []
  {
    var t := TablaParametros(f, fecha);
    TableEntrySent(t, 0);
    TableEntrySent(t, 1);
    TableEntrySent(t, 2);
    TableEntrySent(t, 3);
    if f == FiltrosVacios {
      DropUndefinedMembers(t);
      assert forall en :: en in t ==> en.1 == Undefined;
      assert forall en :: en !in DropUndefined(t);
      Seqs.NoMembersEmpty(DropUndefined(t));
    }
  }

  /** The status match of `multa.fineStatus?.toLowerCase().includes(palabra)` ignores letter
      case: a status that is the word in any case ('PAGADA', 'Pagada', 'pagada') counts under
      that word, and lower-casing a status changes none of the words it matches. */
  lemma EstadoIgnoraMayusculas(m: Fine, palabra: string)
    requires m.fineStatus.Str?
    ensures Lower(m.fineStatus.s) == palabra ==> StatusIncludes(m.fineStatus, palabra)
    ensures StatusIncludes(Str(Lower(m.fineStatus.s)), palabra) <==> StatusIncludes(m.fineStatus, palabra)
  {
    StatusIgnoresCase(m.fineStatus.s, palabra);
    if Lower(m.fineStatus.s) == palabra {
      StatusNamedInAnyCase(m.fineStatus.s, palabra);
    }
  }

  function Monto(m: Fine): int { AmountOrZero(m.totalAmount) }

  class FinesReportsComponent {
    var cargando: bool
    var multas: seq<Fine>
    /** The date pickers; `None` is a cleared picker. */
    var fechaInicio: Option<int>
    var fechaFin: Option<int>
    var filtros: Filtros

    constructor()
      ensures !cargando && multas == [] && fechaInicio.None? && fechaFin.None? && filtros == FiltrosVacios
    {
      cargando := false;
      multas := [];
      fechaInicio := None;
      fechaFin := None;
      filtros := FiltrosVacios;
    }

    /** `construirParametros`: a key only for a set filter, renamed to the backend's name. */
    method ConstruirParametros(fecha: string -> string) returns (params: Entries)
      ensures params == DropUndefined(TablaParametros(filtros, fecha))
    {
      ghost var tabla := TablaParametros(filtros, fecha);
      params := [];
      params := PutIfDefined(params, tabla, 0, "startDate", if filtros.fechaInicio != "" then Str(fecha(filtros.fechaInicio)) else Undefined);
      params := PutIfDefined(params, tabla, 1, "endDate", if filtros.fechaFin != "" then Str(fecha(filtros.fechaFin)) else Undefined);
      params := PutIfDefined(params, tabla, 2, "department", OrUndefined(filtros.departamento));
      params := PutIfDefined(params, tabla, 3, "status", OrUndefined(filtros.estado));
    }

    /** `cargarMultas` (and `aplicarFiltros`), the request half. */
    method CargarMultas(fecha: string -> string) returns (req: Entries)
      modifies this
      ensures cargando && req == DropUndefined(TablaParametros(filtros, fecha))
      ensures multas == old(multas) && filtros == old(filtros)
      ensures fechaInicio == old(fechaInicio) && fechaFin == old(fechaFin)
    {
      cargando := true;
      req := ConstruirParametros(fecha);
    }

    method OnCargaExito(data: seq<Fine>)
      modifies this
      ensures multas == data && !cargando
      ensures filtros == old(filtros) && fechaInicio == old(fechaInicio) && fechaFin == old(fechaFin)
    {
      multas := data;
      cargando := false;
    }

    method OnCargaError()
      modifies this
      ensures !cargando && multas == old(multas)
      ensures filtros == old(filtros) && fechaInicio == old(fechaInicio) && fechaFin == old(fechaFin)
    {
      cargando := false;
    }

    /** `limpiarFiltros`: the four filters unset, both pickers cleared, then a reload with no
        parameter. */
    method LimpiarFiltros(fecha: string -> string) returns (req: Entries)
      modifies this
      ensures filtros == FiltrosVacios && fechaInicio.None? && fechaFin.None?
      ensures cargando && multas == old(multas) && req == []
    {
      fechaInicio := None;
      fechaFin := None;
      filtros := FiltrosVacios;
      req := CargarMultas(fecha);
      ParametrosRenombrados(filtros, fecha);
    }

    /** `generarReporteMultasPDF`: with no fine it only alerts; otherwise the loaded fines,
        not de-duplicated here, go to the PDF service with the filters. */
    method GenerarReporteMultasPdf() returns (accion: Accion)
      ensures |multas| == 0 ==> accion == Alerta("No hay datos para generar el reporte")
      ensures |multas| > 0 ==> accion == PdfMultas(multas, filtros)
    {
      if |multas| == 0 {
        accion := Alerta("No hay datos para generar el reporte");
        return;
      }
      accion := PdfMultas(multas, filtros);
    }

    /** The start-date picker: the picked date, formatted, or `''` when cleared. */
    method OnFechaInicioChange(f: Option<int>, formato: int -> string)
      modifies this
      ensures fechaInicio == f
      ensures filtros == old(filtros).(fechaInicio := if f.Some? then formato(f.value) else "")
      ensures multas == old(multas) && fechaFin == old(fechaFin) && cargando == old(cargando)
    {
      fechaInicio := f;
      filtros := filtros.(fechaInicio := if f.Some? then formato(f.value) else "");
    }

    /** The end-date picker: the picked date, formatted, or `''` when cleared. */
    method OnFechaFinChange(f: Option<int>, formato: int -> string)
      modifies this
      ensures fechaFin == f
      ensures filtros == old(filtros).(fechaFin := if f.Some? then formato(f.value) else "")
      ensures multas == old(multas) && fechaInicio == old(fechaInicio) && cargando == old(cargando)
    {
      fechaFin := f;
      filtros := filtros.(fechaFin := if f.Some? then formato(f.value) else "");
    }

    /** `totalMultas`: every loaded fine, duplicates included. */
    function TotalMultas(): nat
      reads this
    {
      |multas|
    }

    /** `montoTotalMultas`: the amounts of the loaded fines, a missing amount as 0; with no
        negative amount it is at least each fine's amount. */
    function MontoTotalMultas(): (total: int)
      reads this
      ensures (forall i :: 0 <= i < |multas| ==> Monto(multas[i]) >= 0) ==>
        total >= 0 && forall i :: 0 <= i < |multas| ==> Monto(multas[i]) <= total
    {
      MontoAcotado(multas);
      Seqs.Sum(multas, Monto)
    }

    /** `multasPendientes` / `multasPagadas`: the loaded fines whose status contains the word
        in any letter case; never more than `totalMultas`. */
    function MultasConEstado(palabra: string): (n: nat)
      reads this
      ensures n <= TotalMultas()
      ensures n == |Seqs.Filter(multas, (m: Fine) => StatusIncludes(m.fineStatus, palabra))|
    {
      Seqs.Count(multas, (m: Fine) => StatusIncludes(m.fineStatus, palabra))
    }
  }

  /** With no negative amount, the total is never negative and no single amount exceeds it. */
  lemma {:induction false} MontoAcotado(ms: seq<Fine>)
    ensures (forall i :: 0 <= i < |ms| ==> Monto(ms[i]) >= 0) ==>
      Seqs.Sum(ms, Monto) >= 0 && forall i :: 0 <= i < |ms| ==> Monto(ms[i]) <= Seqs.Sum(ms, Monto)
  {
    if ms != [] && forall i :: 0 <= i < |ms| ==> Monto(ms[i]) >= 0 {
      var init := ms[..|ms| - 1];
      MontoAcotado(init);
      assert forall i :: 0 <= i < |init| ==> init[i] == ms[i];
    }
  }
}
