/** `ExcelHelper`: the spreadsheet exports of the details views. Each sheet is a header row
    followed by one row per record in input order; every column is then sized to its longest
    non-empty cell. Workbook encoding and saving are not part of this model. */
module ExcelHelper {
  import opened JsValues
  import opened Records
  import Seqs

  /** A cell value: a plain value, or a `Date` (its time value). `Value(Null)` is an empty
      cell. */
  datatype Cell = Value(v: JsValue) | DateCell(time: int)

  /** What `getDate` may be given: a value read from a record, or a `Date` object. */
  datatype DateArg = Plain(v: JsValue) | DateObject(time: int)

  /** `getDate`: a missing value gives an empty cell; a string gives its date when `parse`
      (standing for `new Date(s)` and its validity test) accepts it and an empty cell
      otherwise; a `Date` is kept; anything else gives an empty cell. */
  function GetDate(date: DateArg, parse: string -> Option<int>): (r: Cell)
    ensures date.Plain? && !Truthy(date.v) ==> r == Value(Null)
    ensures date.Plain? && date.v.Str? && date.v.s != "" && parse(date.v.s).Some? ==> r == DateCell(parse(date.v.s).value)
    ensures date.Plain? && date.v.Str? && parse(date.v.s).None? ==> r == Value(Null)
    ensures date.DateObject? ==> r == DateCell(date.time)
    ensures r.Value? ==> r == Value(Null)
  {
    match date
    case DateObject(t) => DateCell(t)
    case Plain(v) =>
      if !Truthy(v) then Value(Null)
      else if v.Str? && parse(v.s).Some? then DateCell(parse(v.s).value)
      else Value(Null)
  }

  /** `x || 'N/A'` */
  function OrNA(v: JsValue): Cell
  {
    Value(Or(v, Str("N/A")))
  }

  /** `x || 0` */
  function OrZero(v: JsValue): Cell
  {
    Value(Or(v, Num(0)))
  }

  function Headings(titles: seq<string>): (row: seq<Cell>)
    ensures |row| == |titles|
    ensures forall i :: 0 <= i < |titles| ==> row[i] == Value(Str(titles[i]))
  {
    Seqs.Map(titles, (t: string) => Value(Str(t)))
  }

  const FineHeaders: seq<string> := [
    "ID", "ID de Operación", "Estado de la Multa", "Placa del Vehículo", "Fecha de Multa",
    "Nombre Concesionario", "DNI/RTN", "Teléfono", "Email", "Certificado", "Regional",
    "Codigo Aviso de Cobro", "Monto Total", "Departamento", "Municipio", "Lugar",
    "Número de empleado", "Nombre del Empleado"]

  const CertificateHeaders: seq<string> := [
    "Fecha Exp. Certificado", "Fecha Exp. Permiso", "Fecha de Pago", "Monto Total",
    "Estado del Aviso", "Departamento", "DNI/RTN", "Nombre Empresa", "Teléfono",
    "Aviso de Cobro (Código)", "Número de Certificado", "Placa", "Modalidad",
    "Estado del Documento", "Estado del Certificado", "Fecha de Entrega", "Número de Estante",
    "Número de Fila", "Número de Anillo", "Número de Permiso de Explotación",
    "Nombre del Concesionario", "Teléfono del Concesionario", "Email del Concesionario",
    "Nombre del Representante Legal", "Teléfono del Representante Legal",
    "Email del Representante Legal"]

  const PermitHeaders: seq<string> := [
    "Fecha del Sistema", "Código de Permiso", "RTN", "Nombre del Solicitante", "Placa",
    "Estado del Permiso", "Tipo de Servicio", "Oficina Regional", "Monto", "Código de Aviso"]

  /** A fine row: one cell per header, 'N/A' for missing text, 0 for a missing amount. */
  function FineRow(f: Fine, parse: string -> Option<int>): (row: seq<Cell>)
    ensures |row| == |FineHeaders| == 18
    ensures FineHeaders[12] == "Monto Total" && (!Truthy(f.totalAmount) ==> row[12] == Value(Num(0)))
    ensures !Truthy(f.fineId) ==> row[0] == Value(Str("N/A"))
    ensures !Truthy(f.noticeCode) ==> row[11] == Value(Str("N/A"))
  {
    [OrNA(f.fineId), OrNA(f.operationId), OrNA(f.fineStatus), OrNA(f.plate),
     GetDate(Plain(f.startDate), parse), OrNA(f.companyName), OrNA(f.dniRtn), OrNA(f.phone),
     OrNA(f.email), OrNA(f.certificate), OrNA(f.region), OrNA(f.noticeCode),
     OrZero(f.totalAmount), OrNA(f.department), OrNA(f.municipality), OrNA(f.place),
     OrNA(f.employeeId), OrNA(f.employeeName)]
  }

  /** A certificate row: one cell per header, an empty cell for a missing date. */
  function CertificateRow(c: Certificate, parse: string -> Option<int>): (row: seq<Cell>)
    ensures |row| == |CertificateHeaders| == 26
    ensures CertificateHeaders[3] == "Monto Total" && (!Truthy(c.totalNoticeAmount) ==> row[3] == Value(Num(0)))
    ensures !Truthy(c.noticeCode) ==> row[9] == Value(Str("N/A"))
    ensures !Truthy(c.paymentDate) ==> row[2] == Value(Null)
  {
    [GetDate(Plain(c.certificateExpirationDate), parse), GetDate(Plain(c.permissionExpirationDate), parse),
     GetDate(Plain(c.paymentDate), parse), OrZero(c.totalNoticeAmount),
     OrNA(c.noticeStatusDescription), OrNA(c.department), OrNA(c.concessionaireRtn),
     OrNA(c.concessionaireName), OrNA(c.concessionairePhone), OrNA(c.noticeCode),
     OrNA(c.certificateNumber), OrNA(c.plateId), OrNA(c.modality), OrNA(c.documentStatus),
     OrNA(c.coStatus), GetDate(Plain(c.deliveryDate), parse), OrNA(c.shelfNumber),
     OrNA(c.rowNumber), OrNA(c.ringNumber), OrNA(c.exploitationPermissionNumber),
     OrNA(c.concessionaireName), OrNA(c.concessionairePhone), OrNA(c.concessionaireEmail),
     OrNA(c.legalRepresentativeName), OrNA(c.legalRepresentativePhone),
     OrNA(c.legalRepresentativeEmail)]
  }

  /** A permit row: one cell per header. */
  function PermitRow(p: EventualPermit, parse: string -> Option<int>): (row: seq<Cell>)
    ensures |row| == |PermitHeaders| == 10
    ensures PermitHeaders[8] == "Monto" && (!Truthy(p.amount) ==> row[8] == Value(Num(0)))
    ensures !Truthy(p.noticeCode) ==> row[9] == Value(Str("N/A"))
  {
    [GetDate(Plain(p.systemDate), parse), OrNA(p.permitCode), OrNA(p.rtn), OrNA(p.applicantName),
     OrNA(p.plate), OrNA(p.permitStatus), OrNA(p.serviceTypeDescription), OrNA(p.regionalOffice),
     OrZero(p.amount), OrNA(p.noticeCode)]
  }

  /** `if (cell.value)`: a `Date` is always truthy. */
  predicate CellTruthy(cell: Cell)
  {
    cell.DateCell? || Truthy(cell.v)
  }

  /** `cell.value.toString()`; `dateText` stands for `Date.prototype.toString`. */
  function CellText(cell: Cell, dateText: int -> string): string
  {
    match cell
    case Value(v) => ToJsString(v)
    case DateCell(t) => dateText(t)
  }

  /** What a row contributes to the width of column `c`: its cell's text length when that cell
      exists and is truthy, nothing otherwise. */
  function CellLength(row: seq<Cell>, c: nat, dateText: int -> string): nat
  {
    if c < |row| && CellTruthy(row[c]) then |CellText(row[c], dateText)| else 0
  }

  /** The longest non-empty cell text of column `c`, 0 when there is none. */
  function MaxLength(rows: seq<seq<Cell>>, c: nat, dateText: int -> string): nat
  {
    if rows == [] then 0
    else
      var m := MaxLength(rows[..|rows| - 1], c, dateText);
      var l := CellLength(rows[|rows| - 1], c, dateText);
      if l > m then l else m
  }

  /** The column's longest text bounds every cell of the column and is reached by one of
      them, unless no cell of the column has any text. */
  lemma {:induction false} MaxLengthIsMaximum(rows: seq<seq<Cell>>, c: nat, dateText: int -> string)
    ensures forall r :: 0 <= r < |rows| ==> CellLength(rows[r], c, dateText) <= MaxLength(rows, c, dateText)
    ensures MaxLength(rows, c, dateText) == 0 || exists r :: 0 <= r < |rows| && CellLength(rows[r], c, dateText) == MaxLength(rows, c, dateText)
  {
    if rows != [] {
      var init := rows[..|rows| - 1];
      MaxLengthIsMaximum(init, c, dateText);
      assert forall r :: 0 <= r < |init| ==> init[r] == rows[r];
      if MaxLength(init, c, dateText) != 0 && MaxLength(rows, c, dateText) == MaxLength(init, c, dateText) {
        var r :| 0 <= r < |init| && CellLength(init[r], c, dateText) == MaxLength(init, c, dateText);
        assert rows[r] == init[r];
      }
    }
  }

  /** The auto-fit loop: for each column, the longest truthy cell text over all rows, header
      included, plus 2. */
  method AutoFit(rows: seq<seq<Cell>>, columnCount: nat, dateText: int -> string) returns (widths: seq<int>)
    ensures |widths| == columnCount
    ensures forall c :: 0 <= c < columnCount ==> widths[c] == MaxLength(rows, c, dateText) + 2
  {
    widths := [];
    var c := 0;
    while c < columnCount
      invariant 0 <= c <= columnCount
      invariant |widths| == c
      invariant forall k :: 0 <= k < c ==> widths[k] == MaxLength(rows, k, dateText) + 2
    {
      var maxLength := 0;
      var r := 0;
      while r < |rows|
        invariant 0 <= r <= |rows|
        invariant maxLength == MaxLength(rows[..r], c, dateText)
      {
        assert rows[..r + 1][..r] == rows[..r];
        var row := rows[r];
        if c < |row| && CellTruthy(row[c]) {
          var len := |CellText(row[c], dateText)|;
          maxLength := if len > maxLength then len else maxLength;
        }
        r := r + 1;
      }
      assert rows[..|rows|] == rows;
      widths := widths + [maxLength + 2];
      c := c + 1;
    }
  }

  /** Every column is at least 2 wide and wide enough for each of its non-empty cells, and a
      column with no non-empty cell is exactly 2 wide. */
  lemma WidthsFitCells(rows: seq<seq<Cell>>, c: nat, r: nat, dateText: int -> string)
    requires r < |rows|
    ensures MaxLength(rows, c, dateText) + 2 >= 2
    ensures c < |rows[r]| && CellTruthy(rows[r][c]) ==> MaxLength(rows, c, dateText) + 2 >= |CellText(rows[r][c], dateText)| + 2
    ensures (forall k :: 0 <= k < |rows| ==> CellLength(rows[k], c, dateText) == 0) ==> MaxLength(rows, c, dateText) + 2 == 2
  {
    MaxLengthIsMaximum(rows, c, dateText);
  }

  /** A generated workbook: its one sheet's name, rows and column widths. */
  datatype Workbook = Workbook(sheet: string, rows: seq<seq<Cell>>, widths: seq<int>)

  /** The common export: header row, the `forEach` that adds one row per record, then the
      auto-fit. */
  method Export<T>(sheet: string, headers: seq<string>, records: seq<T>, row: T -> seq<Cell>, dateText: int -> string)
    returns (book: Workbook)
    ensures book.sheet == sheet
    ensures book.rows == [Headings(headers)] + Seqs.Map(records, row)
    ensures |book.widths| == |headers|
    ensures forall c :: 0 <= c < |headers| ==> book.widths[c] == MaxLength(book.rows, c, dateText) + 2
  {
    var rows := [Headings(headers)];
    var i := 0;
    while i < |records|
      invariant 0 <= i <= |records|
      invariant rows == [Headings(headers)] + Seqs.Map(records[..i], row)
    {
      rows := rows + [row(records[i])];
      i := i + 1;
    }
    assert records[..|records|] == records;
    var widths := AutoFit(rows, |headers|, dateText);
    book := Workbook(sheet, rows, widths);
  }

  /** `exportFinesToExcel`: the 18 headers, then one row per fine in input order. */
  method ExportFines(fines: seq<Fine>, parse: string -> Option<int>, dateText: int -> string) returns (book: Workbook)
    ensures book.sheet == "Fines"
    ensures |book.rows| == |fines| + 1 && book.rows[0] == Headings(FineHeaders)
    ensures forall i :: 0 <= i < |fines| ==> book.rows[i + 1] == FineRow(fines[i], parse)
    ensures forall i :: 0 <= i < |book.rows| ==> |book.rows[i]| == 18
    ensures |book.widths| == 18
    ensures forall c :: 0 <= c < 18 ==> book.widths[c] == MaxLength(book.rows, c, dateText) + 2
  {
    book := Export("Fines", FineHeaders, fines, f => FineRow(f, parse), dateText);
  }

  /** `exportCertificatesToExcel`: the 26 headers, then one row per certificate. */
  method ExportCertificates(certificates: seq<Certificate>, parse: string -> Option<int>, dateText: int -> string)
    returns (book: Workbook)
    ensures book.sheet == "Certificates"
    ensures |book.rows| == |certificates| + 1 && book.rows[0] == Headings(CertificateHeaders)
    ensures forall i :: 0 <= i < |certificates| ==> book.rows[i + 1] == CertificateRow(certificates[i], parse)
    ensures forall i :: 0 <= i < |book.rows| ==> |book.rows[i]| == 26
    ensures |book.widths| == 26
    ensures forall c :: 0 <= c < 26 ==> book.widths[c] == MaxLength(book.rows, c, dateText) + 2
  {
    book := Export("Certificates", CertificateHeaders, certificates, c => CertificateRow(c, parse), dateText);
  }

  /** `exportEventualPermitsToExcel`: the 10 headers, then one row per permit. */
  method ExportEventualPermits(permits: seq<EventualPermit>, parse: string -> Option<int>, dateText: int -> string)
    returns (book: Workbook)
    ensures book.sheet == "Permisos Eventuales"
    ensures |book.rows| == |permits| + 1 && book.rows[0] == Headings(PermitHeaders)
    ensures forall i :: 0 <= i < |permits| ==> book.rows[i + 1] == PermitRow(permits[i], parse)
    ensures forall i :: 0 <= i < |book.rows| ==> |book.rows[i]| == 10
    ensures |book.widths| == 10
    ensures forall c :: 0 <= c < 10 ==> book.widths[c] == MaxLength(book.rows, c, dateText) + 2
  {
    book := Export("Permisos Eventuales", PermitHeaders, permits, p => PermitRow(p, parse), dateText);
  }
}
