/** The general dashboard report: it loads the analytics of a period, derives the figures of
    the report from them (falling back to fixed sample figures when the load fails), shows
    them with their alerts and hands them to the PDF service. */
module DashboardGeneralReport {
  import opened JsValues
  import opened QueryParams

  /** The report parameters; `''` is an unset one. */
  datatype Filtros = Filtros(fechaInicio: string, fechaFin: string, departamento: string)

  /** The request the parameters stand for, `undefined` where the parameter is unset. */
  function TablaParametros(f: Filtros): Entries
  {
    [("startDate", OrUndefined(f.fechaInicio)),
     ("endDate", OrUndefined(f.fechaFin)),
     ("department", OrUndefined(f.departamento))]
  }

  /** A parameter is sent exactly when it is set, as typed, under its backend name; nothing
      else is sent. */
  lemma ParametrosSoloSiDefinidos(f: Filtros)
    ensures var p := DropUndefined(TablaParametros(f));
      (HasKey(p, "startDate") <==> f.fechaInicio != "") &&
      (HasKey(p, "endDate") <==> f.fechaFin != "") &&
      (HasKey(p, "department") <==> f.departamento != "") &&
      Lookup(p, "startDate") == OrUndefined(f.fechaInicio) &&
      Lookup(p, "endDate") == OrUndefined(f.fechaFin) &&
      Lookup(p, "department") == OrUndefined(f.departamento) &&
      |p| <= 3
  {
    var t := TablaParametros(f);
    TableEntrySent(t, 0);
    TableEntrySent(t, 1);
    TableEntrySent(t, 2);
    FilterDistinct(t, IsDefined);
  }

  /** A department row of the report. */
  datatype Departamento = Departamento(nombre: string, certificados: int, permisos: int, multas: int, ingresos: int)

  /** An alert of the report: a concept, its current value, its threshold and its state. */
  datatype AlertaDato = AlertaDato(concepto: string, valorActual: int, umbral: int, estado: string)

  /** The four percentage variations, which the view draws at random. */
  datatype Variaciones = Variaciones(certificados: real, permisos: real, multas: real, ingresos: real)

  /** The figures of the report. */
  datatype DatosGenerales = DatosGenerales(
    certificadosEmitidos: int, certificadosAcumulados: int,
    permisosOtorgados: int, permisosAcumulados: int,
    multasAplicadas: int, multasAcumuladas: int,
    ingresosMensuales: int, ingresosAcumulados: int,
    variaciones: Variaciones,
    ingresosCertificados: real, ingresosPermisos: real, ingresosMultas: real, ingresosOtros: real,
    departamentos: seq<Departamento>,
    alertas: seq<AlertaDato>)

  /** The fields of an analytics response the report reads: `total` and `kpis?.totalPaid`. */
  datatype Respuesta = Respuesta(total: JsValue, totalPaid: JsValue)

  /** `x || 0` on a count. */
  function OrZero(v: JsValue): int
  {
    if v.Num? then v.n else 0
  }

  const DepartamentosMuestra: seq<Departamento> := [
    Departamento("Francisco Morazán", 45, 28, 22, 45000),
    Departamento("Cortés", 38, 25, 18, 38000),
    Departamento("Atlántida", 32, 20, 15, 28000)]

  const AlertasMuestra: seq<AlertaDato> := [
    AlertaDato("Certificados Vencidos", 25, 20, "ADVERTENCIA"),
    AlertaDato("Multas Pendientes", 45, 50, "NORMAL")]

  /** `procesarDatosDashboard`: the paid total becomes this period's certificates and income;
      the other counts are fixed fractions of the response's total, rounded down, and the
      income is split 60/25/10/5 by kind. */
  function ProcesarDatos(data: Respuesta, v: Variaciones): (d: DatosGenerales)
    ensures d.certificadosEmitidos == d.ingresosMensuales == OrZero(data.totalPaid)
    ensures d.certificadosAcumulados == OrZero(data.total)
    ensures d.ingresosAcumulados == 8 * d.ingresosMensuales
    ensures d.variaciones == v
    ensures d.departamentos == DepartamentosMuestra && d.alertas == AlertasMuestra
  {
    var total, paid := OrZero(data.total), OrZero(data.totalPaid);
    DatosGenerales(
      paid, total,
      ((total as real) * 0.6).Floor, ((total as real) * 2.5).Floor,
      ((total as real) * 0.3).Floor, ((total as real) * 1.8).Floor,
      paid, paid * 8,
      v,
      (paid as real) * 0.6, (paid as real) * 0.25, (paid as real) * 0.1, (paid as real) * 0.05,
      DepartamentosMuestra,
      AlertasMuestra)
  }

  /** With a non-negative total, the derived counts are ordered as their fractions are: fines
      never exceed permits, permits never exceed the total, each period count never exceeds
      its accumulated count; and the four income parts add up to the period's income. */
  lemma ProcesarDatosCoherente(data: Respuesta, v: Variaciones)
    ensures var d := ProcesarDatos(data, v);
      d.ingresosCertificados + d.ingresosPermisos + d.ingresosMultas + d.ingresosOtros == d.ingresosMensuales as real
    ensures var d := ProcesarDatos(data, v);
      OrZero(data.total) >= 0 ==>
        0 <= d.multasAplicadas <= d.permisosOtorgados <= d.certificadosAcumulados &&
        d.permisosOtorgados <= d.permisosAcumulados && d.multasAplicadas <= d.multasAcumuladas
  {
    var t := OrZero(data.total) as real;
    if t >= 0.0 {
      FloorMonotone(t * 0.3, t * 0.6);
      FloorMonotone(t * 0.6, t);
      FloorMonotone(t * 0.6, t * 2.5);
      FloorMonotone(t * 0.3, t * 1.8);
      FloorMonotone(0.0, t * 0.3);
    }
  }

  lemma FloorMonotone(x: real, y: real)
    requires x <= y
    ensures x.Floor <= y.Floor
  {
  }

  /** `generarDatosMock`: the fixed sample figures. */
  const DatosMuestra := DatosGenerales(
    145, 1250, 89, 756, 67, 423, 125000, 980000,
    Variaciones(8.5, -2.3, 15.7, 12.4),
    75000.0, 30000.0, 15000.0, 5000.0,
    DepartamentosMuestra,
    AlertasMuestra)

  /** `getAlertIcon`: the icon of an alert state; any state other than the three known ones
      gets the neutral icon. */
  function IconoAlerta(estado: string): (icono: string)
    ensures estado == "CRÍTICO" ==> icono == "error"
    ensures estado == "ADVERTENCIA" ==> icono == "warning"
    ensures estado == "NORMAL" ==> icono == "check_circle"
    ensures estado !in {"CRÍTICO", "ADVERTENCIA", "NORMAL"} <==> icono == "info"
  {
    match estado {
      case "CRÍTICO" => "error"
      case "ADVERTENCIA" => "warning"
      case "NORMAL" => "check_circle"
      case _ => "info"
    }
  }

  /** What a click on "generate" leads to. */
  datatype Accion = Alerta(mensaje: string) | PdfDashboard(datos: DatosGenerales, filtros: Filtros)

  class DashboardGeneralReportComponent {
    var cargando: bool
    var datosGenerales: Option<DatosGenerales>
    var datosDisponibles: bool
    /** The date pickers; `None` is a cleared picker. */
    var fechaInicio: Option<int>
    var fechaFin: Option<int>
    var filtros: Filtros

    /** The figures are offered for a report exactly when some are loaded. */
    predicate Valid()
      reads this
    {
      datosDisponibles <==> datosGenerales.Some?
    }

    constructor()
      ensures Valid()
      ensures !cargando && datosGenerales.None? && !datosDisponibles
      ensures fechaInicio.None? && fechaFin.None? && filtros == Filtros("", "", "")
    {
      cargando := false;
      datosGenerales := None;
      datosDisponibles := false;
      fechaInicio := None;
      fechaFin := None;
      filtros := Filtros("", "", "");
    }

    /** `construirParametros`: a key is assigned only for a set parameter. */
    method ConstruirParametros() returns (params: Entries)
      ensures params == DropUndefined(TablaParametros(filtros))
    {
      ghost var tabla := TablaParametros(filtros);
      params := [];
      params := PutIfDefined(params, tabla, 0, "startDate", OrUndefined(filtros.fechaInicio));
      params := PutIfDefined(params, tabla, 1, "endDate", OrUndefined(filtros.fechaFin));
      params := PutIfDefined(params, tabla, 2, "department", OrUndefined(filtros.departamento));
    }

    /** `cargarDatos`, the request half. */
    method CargarDatos() returns (req: Entries)
      modifies this
      ensures cargando && req == DropUndefined(TablaParametros(filtros))
      ensures datosGenerales == old(datosGenerales) && datosDisponibles == old(datosDisponibles)
      ensures fechaInicio == old(fechaInicio) && fechaFin == old(fechaFin) && filtros == old(filtros)
    {
      cargando := true;
      req := ConstruirParametros();
    }

    /** The success callback: the figures derived from the response (`v` stands for the
        random variations) become available. */
    method OnCargaExito(data: Respuesta, v: Variaciones)
      modifies this
      ensures Valid()
      ensures datosGenerales == Some(ProcesarDatos(data, v)) && datosDisponibles && !cargando
      ensures fechaInicio == old(fechaInicio) && fechaFin == old(fechaFin) && filtros == old(filtros)
    {
      datosGenerales := Some(ProcesarDatos(data, v));
      datosDisponibles := true;
      cargando := false;
    }

    /** The error callback: the sample figures take the place of the missing ones, and are
        offered for a report like real ones. */
    method OnCargaError()
      modifies this
      ensures Valid()
      ensures datosGenerales == Some(DatosMuestra) && datosDisponibles && !cargando
      ensures fechaInicio == old(fechaInicio) && fechaFin == old(fechaFin) && filtros == old(filtros)
    {
      datosGenerales := Some(DatosMuestra);
      datosDisponibles := true;
      cargando := false;
    }

    /** `generarReportePDF`: with no figures it only alerts; otherwise the figures and the
        parameters go to the PDF service. The view enables its button only while figures
        are offered, so by `Valid()` a click from an enabled button never alerts. */
    method GenerarReportePdf() returns (accion: Accion)
      requires Valid()
      ensures datosGenerales.None? <==> accion.Alerta?
      ensures accion.Alerta? <==> !datosDisponibles
      ensures datosGenerales.None? ==> accion == Alerta("No hay datos disponibles para generar el reporte")
      ensures datosGenerales.Some? ==> accion == PdfDashboard(datosGenerales.value, filtros)
    {
      if datosGenerales.None? {
        accion := Alerta("No hay datos disponibles para generar el reporte");
        return;
      }
      accion := PdfDashboard(datosGenerales.value, filtros);
    }

    /** The start-date picker: the picked date, formatted, or `''` when cleared. */
    method OnFechaInicioChange(f: Option<int>, formato: int -> string)
      modifies this
      ensures fechaInicio == f
      ensures filtros == old(filtros).(fechaInicio := if f.Some? then formato(f.value) else "")
      ensures fechaFin == old(fechaFin) && cargando == old(cargando)
      ensures datosGenerales == old(datosGenerales) && datosDisponibles == old(datosDisponibles)
    {
      fechaInicio := f;
      filtros := filtros.(fechaInicio := if f.Some? then formato(f.value) else "");
    }

    /** The end-date picker: the picked date, formatted, or `''` when cleared. */
    method OnFechaFinChange(f: Option<int>, formato: int -> string)
      modifies this
      ensures fechaFin == f
      ensures filtros == old(filtros).(fechaFin := if f.Some? then formato(f.value) else "")
      ensures fechaInicio == old(fechaInicio) && cargando == old(cargando)
      ensures datosGenerales == old(datosGenerales) && datosDisponibles == old(datosDisponibles)
    {
      fechaFin := f;
      filtros := filtros.(fechaFin := if f.Some? then formato(f.value) else "");
    }
  }
}
