/** `ReportesPDFService`: the detailed certificate and fine reports. Each report
    de-duplicates its records by notice code, turns every kept record into one row of
    text cells under a fixed list of column titles, draws the title header on the first
    page only, and writes a footer on every page. Date, money and percentage formatting
    (moment and `toLocaleString`) are parameters; only their empty branches are fixed. */
module ReportesPdf {
  import opened JsValues
  import opened Records
  import Seqs
  import Dedup

  /** The report parameters printed in the footer; `''` stands for a parameter that is not set. */
  datatype ReporteParametros = ReporteParametros(fechaInicio: string, fechaFin: string, departamento: string, region: string)

  /** A generated document: its column titles, its rows, the pages where the title header was
      drawn, and each page's footer lines. */
  datatype Documento = Documento(
    titulo: string,
    columnas: seq<string>,
    filas: seq<seq<string>>,
    paginasConTitulo: seq<nat>,
    pies: seq<seq<string>>)

  /** The de-duplication key of a certificate or fine: `noticeCode?.toString()` when truthy. */
  function CodigoCertificado(c: Certificate): Option<string>
  {
    NoticeKey(c.noticeCode)
  }

  function CodigoMulta(m: Fine): Option<string>
  {
    NoticeKey(m.noticeCode)
  }

  method DeduplicarCertificados(certificados: seq<Certificate>) returns (r: seq<Certificate>)
    ensures r == Dedup.Dedup(certificados, CodigoCertificado)
    ensures Seqs.IsSubsequence(r, certificados)
    ensures Dedup.UniqueCodes(r, CodigoCertificado)
  {
    r := Dedup.DedupByCode(certificados, CodigoCertificado);
    Dedup.DedupIsSubsequence(certificados, CodigoCertificado);
    Dedup.DedupUniqueCodes(certificados, CodigoCertificado);
  }

  method DeduplicarMultas(multas: seq<Fine>) returns (r: seq<Fine>)
    ensures r == Dedup.Dedup(multas, CodigoMulta)
    ensures Seqs.IsSubsequence(r, multas)
    ensures Dedup.UniqueCodes(r, CodigoMulta)
  {
    r := Dedup.DedupByCode(multas, CodigoMulta);
    Dedup.DedupIsSubsequence(multas, CodigoMulta);
    Dedup.DedupUniqueCodes(multas, CodigoMulta);
  }

  /** The footer's parameter list: one labelled part per parameter that is set, in the
      order Desde, Hasta, Departamento, Región. */
  function PartesParametros(p: ReporteParametros, fecha: string -> string): seq<string>
  {
    (if p.fechaInicio != "" then ["Desde: " + fecha(p.fechaInicio)] else [])
    + (if p.fechaFin != "" then ["Hasta: " + fecha(p.fechaFin)] else [])
    + (if p.departamento != "" then ["Departamento: " + p.departamento] else [])
    + (if p.region != "" then ["Región: " + p.region] else [])
  }

  /** `formatearParametros`: the parts joined by `', '`. */
  function FormatearParametros(p: ReporteParametros, fecha: string -> string): string
  {
    Seqs.Join(PartesParametros(p, fecha), ", ")
  }

  /** The parameter text is empty exactly when no parameter is set, and starts with the
      start date when that is set. */
  lemma FormatearParametrosVacio(p: ReporteParametros, fecha: string -> string)
    ensures var r := FormatearParametros(p, fecha);
      && (r == "" <==> p.fechaInicio == "" && p.fechaFin == "" && p.departamento == "" && p.region == "")
      && (p.fechaInicio != "" ==> StartsWith(r, "Desde: " + fecha(p.fechaInicio)))
  {
    var partes := PartesParametros(p, fecha);
    var r := Seqs.Join(partes, ", ");
    if partes != [] {
      var at := Seqs.JoinPosition(partes, ", ", 0);
      assert r[0..|partes[0]|] == partes[0];
      assert partes[0] != "";
    }
  }

  /** The parameter text names the end date, the department and the region whenever they
      are set. */
  lemma FormatearParametrosNombra(p: ReporteParametros, fecha: string -> string)
    ensures var r := FormatearParametros(p, fecha);
      && (p.fechaFin != "" ==> Contains(r, "Hasta: " + fecha(p.fechaFin)))
      && (p.departamento != "" ==> Contains(r, "Departamento: " + p.departamento))
      && (p.region != "" ==> Contains(r, "Región: " + p.region))
  {
    var partes := PartesParametros(p, fecha);
    if p.fechaFin != "" {
      var i := if p.fechaInicio != "" then 1 else 0;
      assert partes[i] == "Hasta: " + fecha(p.fechaFin);
      JoinIncludes(partes, ", ", i);
    }
    if p.departamento != "" {
      var i := |partes| - (if p.region != "" then 2 else 1);
      assert partes[i] == "Departamento: " + p.departamento;
      JoinIncludes(partes, ", ", i);
    }
    if p.region != "" {
      JoinIncludes(partes, ", ", |partes| - 1);
    }
  }

  /** With every parameter set, the text lists all four in the fixed order: start date, end
      date, department, region. */
  lemma FormatearParametrosOrden(p: ReporteParametros, fecha: string -> string)
    requires p.fechaInicio != "" && p.fechaFin != "" && p.departamento != "" && p.region != ""
    ensures FormatearParametros(p, fecha) ==
      "Desde: " + fecha(p.fechaInicio) + ", " + "Hasta: " + fecha(p.fechaFin) + ", " +
      "Departamento: " + p.departamento + ", " + "Región: " + p.region
  {
    var partes := PartesParametros(p, fecha);
    assert partes == ["Desde: " + fecha(p.fechaInicio), "Hasta: " + fecha(p.fechaFin),
                      "Departamento: " + p.departamento, "Región: " + p.region];
    assert partes[..3][..2][..1] == partes[..1];
    assert partes[..3][..2] == partes[..2];
    assert Seqs.Join(partes[..1], ", ") == partes[0];
    assert Seqs.Join(partes[..2], ", ") == partes[0] + ", " + partes[1];
    assert Seqs.Join(partes[..3], ", ") == partes[0] + ", " + partes[1] + ", " + partes[2];
  }

  /** `obtenerFecha`: a missing date prints as 'NO DISPONIBLE'. */
  function ObtenerFecha(f: JsValue, fecha: JsValue -> string): (r: string)
    ensures !Truthy(f) ==> r == "NO DISPONIBLE"
    ensures Truthy(f) ==> r == fecha(f)
  {
    if !Truthy(f) then "NO DISPONIBLE" else fecha(f)
  }

  /** `formatearMoneda`: a missing or zero amount prints as 'L. 0.00'; any other amount is
      prefixed with the currency. */
  function FormatearMoneda(cantidad: JsValue, local: JsValue -> string): (r: string)
    ensures !Truthy(cantidad) ==> r == "L. 0.00"
    ensures StartsWith(r, "L. ")
  {
    if !Truthy(cantidad) then "L. 0.00" else "L. " + local(cantidad)
  }

  /** `formatearPorcentaje`: a missing or zero value prints as '0.00%'. */
  function FormatearPorcentaje(valor: JsValue, fijo: JsValue -> string): (r: string)
    ensures !Truthy(valor) ==> r == "0.00%"
    ensures |r| >= 1 && r[|r| - 1] == '%'
  {
    if !Truthy(valor) then "0.00%" else fijo(valor) + "%"
  }

  /** `v || 'N/A'` as printed in a cell. */
  function TextoONA(v: JsValue): (r: string)
    ensures r != ""
    ensures Truthy(v) ==> r == ToJsString(v)
    ensures !Truthy(v) ==> r == "N/A"
  {
    if Truthy(v) then ToJsString(v) else "N/A"
  }

  const ColumnasCertificados: seq<string> := [
    "Fecha Emisión", "Número Certificado", "Tipo de Documento", "Modalidad",
    "Departamento", "Estado", "Monto Total", "Fecha Vencimiento"]

  const ColumnasMultas: seq<string> := [
    "Fecha", "Placa", "Tipo de Infracción", "Empresa",
    "Departamento", "Estado", "Monto", "Código Aviso"]

  function FilaCertificado(c: Certificate, fecha: JsValue -> string, local: JsValue -> string): seq<string>
  {
    [ObtenerFecha(c.deliveryDate, fecha), TextoONA(c.certificateNumber), TextoONA(c.documentType),
     TextoONA(c.modality), TextoONA(c.department), TextoONA(c.documentStatus),
     FormatearMoneda(c.totalNoticeAmount, local), ObtenerFecha(c.certificateExpirationDate, fecha)]
  }

  /** `multa.noticeCode?.toString() || 'N/A'`. */
  function CeldaCodigo(code: JsValue): string
  {
    match NoticeKey(code)
    case Some(s) => s
    case None => "N/A"
  }

  function FilaMulta(m: Fine, fecha: JsValue -> string, local: JsValue -> string): seq<string>
  {
    [ObtenerFecha(m.startDate, fecha), TextoONA(m.plate), TextoONA(m.origin), TextoONA(m.companyName),
     TextoONA(m.department), TextoONA(m.fineStatus), FormatearMoneda(m.totalAmount, local), CeldaCodigo(m.noticeCode)]
  }

  /** In the fines report no two rows of keyed fines show the same notice code, whether the
      code is a number, a boolean or a non-empty string: the last cell of a row is its code,
      and codes were de-duplicated before the rows were built. */
  lemma CodigosDistintosEnReporteMultas(multas: seq<Fine>, fecha: JsValue -> string, local: JsValue -> string, i: nat, j: nat)
    requires var u := Dedup.Dedup(multas, CodigoMulta); i < j < |u| && NoticeKey(u[i].noticeCode).Some? && NoticeKey(u[j].noticeCode).Some?
    ensures var u := Dedup.Dedup(multas, CodigoMulta);
            FilaMulta(u[i], fecha, local)[7] != FilaMulta(u[j], fecha, local)[7]
  {
    var u := Dedup.Dedup(multas, CodigoMulta);
    Dedup.DedupUniqueCodes(multas, CodigoMulta);
  }

  /** A footer: the page number out of the page count, the generation date, and the
      parameter text when there is any. */
  function PieDePagina(i: nat, n: nat, hoy: string, texto: string): (pie: seq<string>)
    ensures |pie| >= 2 && pie[0] == "Página " + IntToString(i) + " de " + IntToString(n)
    ensures |pie| == 3 <==> texto != ""
  {
    ["Página " + IntToString(i) + " de " + IntToString(n), "Reporte generado el " + hoy]
    + (if texto != "" then ["Parámetros: " + texto] else [])
  }

  class ReportesPdfService {
    /** Set once the title header has been drawn in the current document. */
    var esPrimeraPagina: bool
    var finalY: int

    constructor()
      ensures !esPrimeraPagina && finalY == 0
    {
      esPrimeraPagina := false;
      finalY := 0;
    }

    /** `configurarDocumento`: every new document starts without its title header. */
    method ConfigurarDocumento()
      modifies this
      ensures !esPrimeraPagina && finalY == old(finalY)
    {
      esPrimeraPagina := false;
    }

    /** The `didDrawPage` callback of `crearEncabezadoYPie` for one page; `cursorY` is the
        table cursor autotable reports for that page. */
    method DibujarPagina(cursorY: Option<int>) returns (tituloDibujado: bool)
      modifies this
      ensures tituloDibujado == !old(esPrimeraPagina)
      ensures esPrimeraPagina
      ensures finalY == if cursorY.Some? && cursorY.value != 0 then cursorY.value else 95
    {
      tituloDibujado := false;
      if !esPrimeraPagina {
        tituloDibujado := true;
        esPrimeraPagina := true;
      }
      finalY := if cursorY.Some? && cursorY.value != 0 then cursorY.value else 95;
    }

    /** autotable draws the pages in order and calls the callback once per page. */
    method DibujarPaginas(cursores: seq<Option<int>>) returns (paginasConTitulo: seq<nat>)
      modifies this
      ensures paginasConTitulo == if |cursores| > 0 && !old(esPrimeraPagina) then [1] else []
      ensures esPrimeraPagina == (old(esPrimeraPagina) || |cursores| > 0)
    {
      paginasConTitulo := [];
      var p := 0;
      while p < |cursores|
        invariant 0 <= p <= |cursores|
        invariant esPrimeraPagina == (old(esPrimeraPagina) || p > 0)
        invariant paginasConTitulo == if p > 0 && !old(esPrimeraPagina) then [1] else []
      {
        var dibujado := DibujarPagina(cursores[p]);
        if dibujado {
          paginasConTitulo := paginasConTitulo + [p + 1];
        }
        p := p + 1;
      }
    }

    /** `agregarPiesDePagina`: one footer per page, numbered from 1. */
    method AgregarPiesDePagina(totalPaginas: nat, hoy: string, parametros: ReporteParametros, fecha: string -> string)
      returns (pies: seq<seq<string>>)
      ensures |pies| == totalPaginas
      ensures forall i :: 0 <= i < totalPaginas ==>
        pies[i] == PieDePagina(i + 1, totalPaginas, hoy, FormatearParametros(parametros, fecha))
        && pies[i][0] == "Página " + IntToString(i + 1) + " de " + IntToString(totalPaginas)
        && (|pies[i]| == 3 <==> FormatearParametros(parametros, fecha) != "")
    {
      pies := [];
      var texto := FormatearParametros(parametros, fecha);
      var i := 1;
      while i <= totalPaginas
        invariant 1 <= i <= totalPaginas + 1
        invariant |pies| == i - 1
        invariant forall k :: 0 <= k < i - 1 ==> pies[k] == PieDePagina(k + 1, totalPaginas, hoy, texto)
      {
        pies := pies + [PieDePagina(i, totalPaginas, hoy, texto)];
        i := i + 1;
      }
      forall k | 0 <= k < totalPaginas
        ensures pies[k][0] == "Página " + IntToString(k + 1) + " de " + IntToString(totalPaginas)
        ensures |pies[k]| == 3 <==> texto != ""
      {
        assert pies[k] == PieDePagina(k + 1, totalPaginas, hoy, texto);
      }
    }

    /** `generarReporteCertificados`: de-duplicate, then one 8-cell row per kept certificate. */
    method GenerarReporteCertificados(
      certificados: seq<Certificate>, parametros: ReporteParametros, cursores: seq<Option<int>>,
      hoy: string, fecha: JsValue -> string, local: JsValue -> string, fechaParametro: string -> string)
      returns (doc: Documento)
      modifies this
      ensures doc.titulo == "Reporte Detallado de Certificados" && doc.columnas == ColumnasCertificados
      ensures doc.filas == Seqs.Map(Dedup.Dedup(certificados, CodigoCertificado), c => FilaCertificado(c, fecha, local))
      ensures forall k :: 0 <= k < |doc.filas| ==> |doc.filas[k]| == |doc.columnas|
      ensures doc.paginasConTitulo == if |cursores| > 0 then [1] else []
      ensures |doc.pies| == |cursores|
      ensures forall i :: 0 <= i < |cursores| ==>
        doc.pies[i] == PieDePagina(i + 1, |cursores|, hoy, FormatearParametros(parametros, fechaParametro))
      ensures esPrimeraPagina == (|cursores| > 0)
    {
      ConfigurarDocumento();
      var unicos := DeduplicarCertificados(certificados);
      var filas := Seqs.Map(unicos, c => FilaCertificado(c, fecha, local));
      var paginas := DibujarPaginas(cursores);
      var pies := AgregarPiesDePagina(|cursores|, hoy, parametros, fechaParametro);
      doc := Documento("Reporte Detallado de Certificados", ColumnasCertificados, filas, paginas, pies);
    }

    /** `generarReporteMultas`: de-duplicate, then one 8-cell row per kept fine. */
    method GenerarReporteMultas(
      multas: seq<Fine>, parametros: ReporteParametros, cursores: seq<Option<int>>,
      hoy: string, fecha: JsValue -> string, local: JsValue -> string, fechaParametro: string -> string)
      returns (doc: Documento)
      modifies this
      ensures doc.titulo == "Reporte Detallado de Multas" && doc.columnas == ColumnasMultas
      ensures doc.filas == Seqs.Map(Dedup.Dedup(multas, CodigoMulta), m => FilaMulta(m, fecha, local))
      ensures forall k :: 0 <= k < |doc.filas| ==> |doc.filas[k]| == |doc.columnas|
      ensures doc.paginasConTitulo == if |cursores| > 0 then [1] else []
      ensures |doc.pies| == |cursores|
      ensures forall i :: 0 <= i < |cursores| ==>
        doc.pies[i] == PieDePagina(i + 1, |cursores|, hoy, FormatearParametros(parametros, fechaParametro))
      ensures esPrimeraPagina == (|cursores| > 0)
    {
      ConfigurarDocumento();
      var unicas := DeduplicarMultas(multas);
      var filas := Seqs.Map(unicas, m => FilaMulta(m, fecha, local));
      var paginas := DibujarPaginas(cursores);
      var pies := AgregarPiesDePagina(|cursores|, hoy, parametros, fechaParametro);
      doc := Documento("Reporte Detallado de Multas", ColumnasMultas, filas, paginas, pies);
    }
  }
}
