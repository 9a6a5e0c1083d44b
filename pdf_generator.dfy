/** `PDFHelper`: the list PDFs of the details views. Each list becomes one row of cells per
    record under a fixed list of column titles; the title header is drawn on the first page of
    each document only, and every page gets a footer with its number, the generation date and
    the search parameters. Table layout, images and colours are not part of this model. */
module PdfGenerator {
  import opened JsValues
  import opened Records
  import opened QueryParams
  import Seqs

  /** A generated document: title, column titles, body rows, the pages where the title header
      was drawn, and each page's footer lines. */
  datatype PdfDocument = PdfDocument(
    title: string,
    columns: seq<string>,
    body: seq<seq<JsValue>>,
    pagesWithTitle: seq<nat>,
    footers: seq<seq<string>>)

  /** `getDate`: `null`, `undefined` and `''` print as 'NO DISPONIBLE'; `format` stands for the
      `DD/MM/YYYY` formatting. */
  function GetDate(date: JsValue, format: JsValue -> string): (r: JsValue)
    ensures (date.Undefined? || date.Null? || date == Str("")) ==> r == Str("NO DISPONIBLE")
    ensures Truthy(date) ==> r == Str(format(date))
  {
    if !Truthy(date) then Str("NO DISPONIBLE") else Str(format(date))
  }

  /** `x || 'N/A'`, and equally `x ? x : 'N/A'`. */
  function OrNA(v: JsValue): (r: JsValue)
    ensures Truthy(r)
    ensures Truthy(v) ==> r == v
    ensures !Truthy(v) ==> r == Str("N/A")
  {
    Or(v, Str("N/A"))
  }

  const CertificateColumns: seq<string> := [
    "Fecha Exp. Certificado", "Monto Total", "Estado del Aviso", "Departamento",
    "Aviso de Cobro (Código)", "Modalidad", "Estado del Documento"]

  const FineColumns: seq<string> := [
    "Fecha", "Monto", "Estado", "Departamento", "DNI/RTN", "Nombre Empresa", "Teléfono", "Aviso de Cobro"]

  const PermitColumns: seq<string> := [
    "Fecha Sistema", "Código Permiso", "Solicitante", "RTN", "Tipo Servicio",
    "Estado", "Oficina Regional", "Monto", "Código Aviso"]

  /** One row of `formatCertificateForPDF`. */
  function CertificateRow(c: Certificate, format: JsValue -> string): (row: seq<JsValue>)
    ensures |row| == |CertificateColumns| == 7
    ensures !Truthy(c.certificateExpirationDate) ==> row[0] == Str("NO DISPONIBLE")
    ensures !Truthy(c.totalNoticeAmount) ==> row[1] == Num(0)
    ensures forall k :: 2 <= k < 7 ==> Truthy(row[k])
  {
    [GetDate(c.certificateExpirationDate, format), Or(c.totalNoticeAmount, Num(0)),
     OrNA(c.noticeStatusDescription), OrNA(c.department), OrNA(c.noticeCode),
     OrNA(c.modality), OrNA(c.documentStatus)]
  }

  /** One row of `formatFineForPDF`: amount, status and department pass through unchanged. */
  function FineRow(f: Fine, format: JsValue -> string): (row: seq<JsValue>)
    ensures |row| == |FineColumns| == 8
    ensures row[1..4] == [f.totalAmount, f.fineStatus, f.department]
    ensures forall k :: 4 <= k < 8 ==> Truthy(row[k])
    ensures !Truthy(f.noticeCode) ==> row[7] == Str("N/A")
  {
    [GetDate(f.startDate, format), f.totalAmount, f.fineStatus, f.department,
     OrNA(f.dniRtn), OrNA(f.companyName), OrNA(f.phone), OrNA(f.noticeCode)]
  }

  /** One row of the permit list of `generateEventualPermitsPDF`. */
  function PermitRow(p: EventualPermit, format: JsValue -> string): (row: seq<JsValue>)
    ensures |row| == |PermitColumns| == 9
    ensures !Truthy(p.amount) ==> row[7] == Num(0)
    ensures Truthy(p.amount) ==> row[7] == p.amount
  {
    [GetDate(p.systemDate, format), OrNA(p.permitCode), OrNA(p.applicantName), OrNA(p.rtn),
     OrNA(p.serviceTypeDescription), OrNA(p.permitStatus), OrNA(p.regionalOffice),
     Or(p.amount, Num(0)), OrNA(p.noticeCode)]
  }

  /** One element of `Object.values(params).join(', ')`: `join` prints `undefined` and `null`
      as nothing. */
  function JoinedText(v: JsValue): (s: string)
    ensures (v.Undefined? || v.Null?) ==> s == ""
    ensures v.Str? ==> s == v.s
  {
    if v.Undefined? || v.Null? then "" else ToJsString(v)
  }

  /** The values of the parameters after the first two, as printed. */
  function ParamsParts(params: Entries): (parts: seq<string>)
    ensures |parts| == if |params| <= 2 then 0 else |params| - 2
    ensures forall i :: 0 <= i < |parts| ==> parts[i] == JoinedText(params[i + 2].1)
  {
    if |params| <= 2 then [] else Seqs.Map(params[2..], (en: (string, JsValue)) => JoinedText(en.1))
  }

  /** The footer's parameter text. */
  function ParamsText(params: Entries): string
  {
    Seqs.Join(ParamsParts(params), ", ")
  }

  /** The parameter text lists every value after the first two. */
  lemma ParamsTextContents(params: Entries, i: nat)
    requires 2 <= i < |params|
    ensures Contains(ParamsText(params), JoinedText(params[i].1))
  {
    JoinIncludes(ParamsParts(params), ", ", i - 2);
  }

  /** The parameter text spends one separator between each pair of values, empty values
      included: its length is the values' lengths plus two per separator. */
  lemma ParamsTextLength(params: Entries)
    ensures |params| > 2 ==>
      |ParamsText(params)| == Seqs.Sum(ParamsParts(params), (s: string) => |s|) + 2 * (|params| - 3)
  {
    Seqs.JoinLength(ParamsParts(params), ", ");
  }

  /** A page's footer: its number out of the page count, the generation date and the
      parameter text. */
  function Footer(i: nat, n: nat, today: string, paramsText: string): seq<string>
  {
    ["Página " + IntToString(i) + " de " + IntToString(n),
     "Lista generada el " + today,
     "Parámetros de búsqueda:" + paramsText]
  }

  /** No two pages of a document carry the same page number in their footers. */
  lemma FooterNumbersDistinct(i: nat, j: nat, n: nat, today: string, text: string)
    requires i != j
    ensures Footer(i, n, today, text)[0] != Footer(j, n, today, text)[0]
  {
    var a, b := IntToString(i), IntToString(j);
    var pre, suf := "Página ", " de " + IntToString(n);
    var s, t := Footer(i, n, today, text)[0], Footer(j, n, today, text)[0];
    assert s == pre + a + suf;
    assert t == pre + b + suf;
    if s == t {
      assert |a| == |b|;
      assert s[|pre|..|pre| + |a|] == a;
      assert t[|pre|..|pre| + |b|] == b;
      IntToStringRoundTrip(i);
      IntToStringRoundTrip(j);
      assert false;
    }
  }

  class PdfHelper {
    /** Set once the title header has been drawn in the current document. */
    var isFirstPageDrawn: bool
    var finalY: int

    constructor()
      ensures !isFirstPageDrawn && finalY == 0
    {
      isFirstPageDrawn := false;
      finalY := 0;
    }

    /** The `didDrawPage` callback for one page; `cursorY` is the table cursor reported for
        it. The title header is drawn only if none has been drawn yet. */
    method DrawPage(cursorY: Option<int>) returns (titleDrawn: bool)
      modifies this
      ensures titleDrawn == !old(isFirstPageDrawn)
      ensures isFirstPageDrawn
      ensures finalY == if cursorY.Some? && cursorY.value != 0 then cursorY.value else 95
    {
      titleDrawn := false;
      if !isFirstPageDrawn {
        titleDrawn := true;
        isFirstPageDrawn := true;
      }
      finalY := if cursorY.Some? && cursorY.value != 0 then cursorY.value else 95;
    }

    /** The table is drawn page after page, one callback per page. */
    method DrawPages(cursors: seq<Option<int>>) returns (pagesWithTitle: seq<nat>)
      modifies this
      ensures pagesWithTitle == if |cursors| > 0 && !old(isFirstPageDrawn) then [1] else []
      ensures isFirstPageDrawn == (old(isFirstPageDrawn) || |cursors| > 0)
    {
      pagesWithTitle := [];
      var p := 0;
      while p < |cursors|
        invariant 0 <= p <= |cursors|
        invariant isFirstPageDrawn == (old(isFirstPageDrawn) || p > 0)
        invariant pagesWithTitle == if p > 0 && !old(isFirstPageDrawn) then [1] else []
      {
        var drawn := DrawPage(cursors[p]);
        if drawn {
          pagesWithTitle := pagesWithTitle + [p + 1];
        }
        p := p + 1;
      }
    }

    /** The footer loop: pages 1 to `pageCount`, one footer each. */
    method AddFooters(pageCount: nat, today: string, params: Entries) returns (footers: seq<seq<string>>)
      ensures |footers| == pageCount
      ensures forall i :: 0 <= i < pageCount ==> footers[i] == Footer(i + 1, pageCount, today, ParamsText(params))
    {
      footers := [];
      var i := 1;
      while i <= pageCount
        invariant 1 <= i <= pageCount + 1
        invariant |footers| == i - 1
        invariant forall k :: 0 <= k < i - 1 ==> footers[k] == Footer(k + 1, pageCount, today, ParamsText(params))
      {
        var paramsText := ParamsText(params);
        footers := footers + [Footer(i, pageCount, today, paramsText)];
        i := i + 1;
      }
    }

    /** `generatePDF`: the flag is reset first, so each document draws its title header on its
        first page, whatever earlier documents did. */
    method GeneratePdf(formattedData: seq<seq<JsValue>>, columns: seq<string>, title: string, params: Entries,
                       cursors: seq<Option<int>>, today: string)
      returns (doc: PdfDocument)
      modifies this
      ensures doc.title == title && doc.columns == columns && doc.body == formattedData
      ensures doc.pagesWithTitle == if |cursors| > 0 then [1] else []
      ensures |doc.footers| == |cursors|
      ensures forall i :: 0 <= i < |cursors| ==> doc.footers[i] == Footer(i + 1, |cursors|, today, ParamsText(params))
      ensures isFirstPageDrawn == (|cursors| > 0)
    {
      isFirstPageDrawn := false;
      var pages := DrawPages(cursors);
      var footers := AddFooters(|cursors|, today, params);
      doc := PdfDocument(title, columns, formattedData, pages, footers);
    }

    /** `generateCertificatePDF`: one row per certificate, with no de-duplication. */
    method GenerateCertificatePdf(certificates: seq<Certificate>, params: Entries, cursors: seq<Option<int>>,
                                  today: string, format: JsValue -> string)
      returns (doc: PdfDocument)
      modifies this
      ensures doc.title == "Listado de Certificados" && doc.columns == CertificateColumns
      ensures doc.body == Seqs.Map(certificates, c => CertificateRow(c, format))
      ensures |doc.body| == |certificates|
      ensures doc.pagesWithTitle == if |cursors| > 0 then [1] else []
      ensures |doc.footers| == |cursors|
      ensures forall i :: 0 <= i < |cursors| ==> doc.footers[i] == Footer(i + 1, |cursors|, today, ParamsText(params))
      ensures isFirstPageDrawn == (|cursors| > 0)
    {
      var rows := Seqs.Map(certificates, c => CertificateRow(c, format));
      doc := GeneratePdf(rows, CertificateColumns, "Listado de Certificados", params, cursors, today);
    }

    /** `generateFinePDF`: one row per fine. */
    method GenerateFinePdf(fines: seq<Fine>, params: Entries, cursors: seq<Option<int>>,
                           today: string, format: JsValue -> string)
      returns (doc: PdfDocument)
      modifies this
      ensures doc.title == "Listado de Multas" && doc.columns == FineColumns
      ensures doc.body == Seqs.Map(fines, f => FineRow(f, format))
      ensures |doc.body| == |fines|
      ensures doc.pagesWithTitle == if |cursors| > 0 then [1] else []
      ensures |doc.footers| == |cursors|
      ensures forall i :: 0 <= i < |cursors| ==> doc.footers[i] == Footer(i + 1, |cursors|, today, ParamsText(params))
      ensures isFirstPageDrawn == (|cursors| > 0)
    {
      var rows := Seqs.Map(fines, f => FineRow(f, format));
      doc := GeneratePdf(rows, FineColumns, "Listado de Multas", params, cursors, today);
    }

    /** `generateEventualPermitsPDF`: one row per permit. */
    method GenerateEventualPermitsPdf(permits: seq<EventualPermit>, params: Entries, cursors: seq<Option<int>>,
                                      today: string, format: JsValue -> string)
      returns (doc: PdfDocument)
      modifies this
      ensures doc.title == "Listado de Permisos Eventuales" && doc.columns == PermitColumns
      ensures doc.body == Seqs.Map(permits, p => PermitRow(p, format))
      ensures |doc.body| == |permits|
      ensures doc.pagesWithTitle == if |cursors| > 0 then [1] else []
      ensures |doc.footers| == |cursors|
      ensures forall i :: 0 <= i < |cursors| ==> doc.footers[i] == Footer(i + 1, |cursors|, today, ParamsText(params))
      ensures isFirstPageDrawn == (|cursors| > 0)
    {
      var rows := Seqs.Map(permits, p => PermitRow(p, format));
      doc := GeneratePdf(rows, PermitColumns, "Listado de Permisos Eventuales", params, cursors, today);
    }
  }
}
