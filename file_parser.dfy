/**
 * `parseFile` (frontend/src/utils/fileParser.ts): turns an uploaded CSV or
 * Excel file into an attachment whose `content` is the whole table as
 * strings and whose `preview` is its first six rows.
 *
 * The decoders are outside the model. What Papa.parse hands to its callbacks
 * is a `CsvDecode`; what `file.arrayBuffer()` plus `workbook.xlsx.load`
 * produce is an `ExcelLoad`, whose rows and cells carry the library's own
 * empty markers; `Date.toISOString` is the parameter `toIso`.
 */
module FileParser {
  import opened Wrappers
  import opened Js

  /** The browser's `File`: its name, its reported MIME type and its size in bytes. */
  datatype FileInfo = FileInfo(name: string, mimeType: string, size: nat)

  /** A decoded CSV cell: a value (its `toString()`), or null/undefined. */
  datatype CsvCell = Missing | Text(text: string)

  /** Papa.parse's outcome: `complete` with the rows and the number of row errors, or `error`. */
  datatype CsvDecode =
    | CsvDecoded(data: seq<seq<CsvCell>>, errorCount: nat)
    | CsvReadFailed(message: string)

  /** What a failed load throws: an `Error` with its message, or anything else. */
  datatype Thrown = ErrorObject(message: string) | NonError

  /**
   * An Excel cell: empty, a date (an instant), an Invalid Date (a `Date`
   * whose time value is NaN), or any other value (its `toString()`; a null
   * value, as a merged cell can hold, reads as "").
   */
  datatype ExcelCell = EmptyCell | DateCell(instant: int) | InvalidDateCell | ValueCell(shown: string)

  /** A worksheet row as `eachRow({ includeEmpty: false })` sees it. */
  datatype SheetRow = EmptyRow | Row(cells: seq<ExcelCell>)

  datatype Worksheet = Worksheet(rows: seq<SheetRow>)

  /** The workbook after loading; `None` is an undefined worksheet slot. */
  datatype ExcelLoad =
    | LoadThrew(thrown: Thrown)
    | Loaded(worksheets: seq<Option<Worksheet>>)

  /** An entry pushed into `rowData`: a trimmed string or a `Date` kept as it is, valid or not. */
  datatype Collected = CollectedText(text: string) | CollectedDate(instant: int) | CollectedInvalidDate

  /** The parsed attachment; `content` is the full table and `preview` its first rows. */
  datatype Attachment = Attachment(
    name: string,
    mimeType: string,
    content: seq<seq<string>>,
    preview: seq<seq<string>>)

  datatype ExcelFailure = NoSheets | FirstSheetEmpty | NoData | Threw(thrown: Thrown)

  datatype ParseError =
    | EmptyFile
    | MissingExtension
    | CsvInvalid
    | CsvEmpty
    | CsvReadError(message: string)
    | ExcelError(cause: ExcelFailure)
    | UnsupportedType

  const PreviewRows: nat := 6

  // The messages `parseFile` rejects with.
  const EmptyFileMessage := "El archivo seleccionado está vacío. Por favor, elige un archivo válido."
  const MissingExtensionMessage := "El archivo debe tener una extensión válida (.csv, .xlsx o .xls)"
  const CsvInvalidMessage := "Formato CSV inválido. Por favor, verifica tu archivo e inténtalo de nuevo."
  const CsvEmptyMessage := "El archivo CSV está vacío o no contiene datos válidos."
  const CsvPrefix := "Error al parsear el CSV: "
  const ExcelPrefix := "Error al parsear el archivo Excel: "
  const NoSheetsMessage := "El archivo Excel no contiene hojas."
  const FirstSheetEmptyMessage := "La primera hoja del archivo Excel está vacía."
  const NoDataMessage := "El archivo Excel no contiene datos."
  const UnknownErrorMessage := "Ocurrió un error desconocido"
  /** The message of the RangeError `toISOString()` throws on an Invalid Date, in V8's wording. */
  const InvalidTimeMessage := "Invalid time value"
  const UnsupportedTypeMessage := "Tipo de archivo no soportado. Por favor, sube un archivo CSV o Excel (.csv, .xlsx, .xls)"

  /** The text after the Excel prefix: the library's own message when it threw an `Error`. */
  function ExcelCauseText(c: ExcelFailure): string {
    match c
    case NoSheets => NoSheetsMessage
    case FirstSheetEmpty => FirstSheetEmptyMessage
    case NoData => NoDataMessage
    case Threw(ErrorObject(m)) => m
    case Threw(NonError) => UnknownErrorMessage
  }

  lemma PrefixOfJoin(p: string, rest: string)
    ensures p <= p + rest
  {
    assert (p + rest)[..|p|] == p;
  }

  /** The message of the `Error` each failure rejects with. */
  function ErrorMessage(e: ParseError): (m: string)
    ensures e.ExcelError? ==> ExcelPrefix <= m && m[|ExcelPrefix|..] == ExcelCauseText(e.cause)
    ensures e.CsvReadError? ==> CsvPrefix <= m && m[|CsvPrefix|..] == e.message
  {
    match e
    case EmptyFile => EmptyFileMessage
    case MissingExtension => MissingExtensionMessage
    case CsvInvalid => CsvInvalidMessage
    case CsvEmpty => CsvEmptyMessage
    case CsvReadError(m) => PrefixOfJoin(CsvPrefix, m); CsvPrefix + m
    case ExcelError(c) => PrefixOfJoin(ExcelPrefix, ExcelCauseText(c)); ExcelPrefix + ExcelCauseText(c)
    case UnsupportedType => UnsupportedTypeMessage
  }

  /** `file.name.split('.').pop()?.toLowerCase()` */
  function Extension(name: string): (ext: string)
    ensures '.' !in ext
    ensures |ext| <= |name|
  {
    Lower(AfterLastDot(name))
  }

  predicate IsTable(t: seq<seq<string>>) {
    forall i, j :: 0 <= i < |t| && 0 <= j < |t[i]| ==> IsTrimmed(t[i][j])
  }

  /** The attachment built from a cleaned table: name and type copied, preview sliced. */
  function Build(file: FileInfo, content: seq<seq<string>>): (a: Attachment)
    ensures a.name == file.name && a.mimeType == file.mimeType && a.content == content
    ensures a.preview == content[..Min(PreviewRows, |content|)]
  {
    SliceFromZero(content, PreviewRows);
    Attachment(file.name, file.mimeType, content, Slice(content, 0, PreviewRows))
  }

  // ---------------------------------------------------------------- CSV

  /** `cell?.toString().trim() ?? ''` */
  function CleanCsvCell(c: CsvCell): string {
    match c
    case Missing => ""
    case Text(s) => Trim(s)
  }

  /** JavaScript falsiness of a decoded cell: null/undefined or the empty string. */
  predicate IsFalsy(c: CsvCell) {
    c.Missing? || c.text == ""
  }

  /** The CSV emptiness rule, applied to the data BEFORE cleaning. */
  predicate CsvIsEmpty(data: seq<seq<CsvCell>>) {
    |data| == 0 || (|data| == 1 && |data[0]| == 1 && IsFalsy(data[0][0]))
  }

  /** `content.map(row => row.map(...))` */
  function CleanCsv(data: seq<seq<CsvCell>>): (t: seq<seq<string>>)
    ensures |t| == |data|
    ensures forall i :: 0 <= i < |data| ==> |t[i]| == |data[i]|
    ensures forall i, j :: 0 <= i < |data| && 0 <= j < |data[i]| ==> t[i][j] == CleanCsvCell(data[i][j])
    ensures IsTable(t)
  {
    seq(|data|, i requires 0 <= i < |data| =>
      seq(|data[i]|, j requires 0 <= j < |data[i]| => CleanCsvCell(data[i][j])))
  }

  /** A successful parse: name and type copied, a non-empty table, its first rows as preview. */
  predicate BuiltFrom(file: FileInfo, a: Attachment) {
    && a.name == file.name && a.mimeType == file.mimeType
    && |a.content| > 0
    && a.preview == a.content[..Min(PreviewRows, |a.content|)]
  }

  function ParseCsv(file: FileInfo, d: CsvDecode): (r: Result<Attachment, ParseError>)
    ensures r.Success? ==> BuiltFrom(file, r.value) && IsTable(r.value.content)
    ensures r.Failure? ==> r.error.CsvInvalid? || r.error.CsvEmpty? || r.error.CsvReadError?
    // the `error` callback's message is passed on, behind the CSV prefix
    ensures d.CsvReadFailed? ==> r == Failure(CsvReadError(d.message))
    ensures r.Success? ==>
      d.CsvDecoded? && d.errorCount == 0 && !CsvIsEmpty(d.data) && r.value.content == CleanCsv(d.data)
  {
    match d
    case CsvReadFailed(m) => Failure(CsvReadError(m))
    case CsvDecoded(data, errors) =>
      if errors > 0 then Failure(CsvInvalid)
      else if CsvIsEmpty(data) then Failure(CsvEmpty)
      else Success(Build(file, CleanCsv(data)))
  }

  // ---------------------------------------------------------------- Excel

  /** `row.eachCell({ includeEmpty: false }, ...)`: the entries pushed for one row's cells. */
  function CollectCells(cells: seq<ExcelCell>): (r: seq<Collected>)
    ensures |r| <= |cells|
  {
    if cells == [] then []
    else
      var init := CollectCells(cells[..|cells| - 1]);
      match cells[|cells| - 1]
      case EmptyCell => init
      case DateCell(t) => init + [CollectedDate(t)]
      case InvalidDateCell => init + [CollectedInvalidDate]
      case ValueCell(s) => init + [CollectedText(Trim(s))]
  }

  /** `worksheet.eachRow({ includeEmpty: false }, ...)`: the rows pushed into `content`. */
  function CollectRowsSpec(rows: seq<SheetRow>): (r: seq<seq<Collected>>)
    ensures |r| <= |rows|
  {
    if rows == [] then []
    else
      var init := CollectRowsSpec(rows[..|rows| - 1]);
      match rows[|rows| - 1]
      case EmptyRow => init
      case Row(cells) => init + [CollectCells(cells)]
  }

  /** The two callback loops, pushing into `rowData` and `content`. */
  method CollectRows(rows: seq<SheetRow>) returns (content: seq<seq<Collected>>)
    ensures content == CollectRowsSpec(rows)
  {
    content := [];
    var i := 0;
    while i < |rows|
      invariant 0 <= i <= |rows|
      invariant content == CollectRowsSpec(rows[..i])
    {
      assert rows[..i + 1][..i] == rows[..i];
      match rows[i] {
        case EmptyRow =>
        case Row(cells) =>
          var rowData: seq<Collected> := [];
          var j := 0;
          while j < |cells|
            invariant 0 <= j <= |cells|
            invariant rowData == CollectCells(cells[..j])
          {
            assert cells[..j + 1][..j] == cells[..j];
            match cells[j] {
              case EmptyCell =>
              case DateCell(t) => rowData := rowData + [CollectedDate(t)];
              case InvalidDateCell => rowData := rowData + [CollectedInvalidDate];
              case ValueCell(s) => rowData := rowData + [CollectedText(Trim(s))];
            }
            j := j + 1;
          }
          assert cells[..j] == cells;
          content := content + [rowData];
      }
      i := i + 1;
    }
    assert rows[..i] == rows;
  }

  /**
   * One entry of the cleaning pass: a date becomes `toISOString()`, which
   * throws a RangeError on an Invalid Date; text is trimmed again.
   */
  function CleanCollected(c: Collected, toIso: int -> string): (r: Result<string, string>)
    ensures r.Failure? <==> c.CollectedInvalidDate?
    ensures r.Failure? ==> r.error == InvalidTimeMessage
  {
    match c
    case CollectedDate(t) => Success(toIso(t))
    case CollectedInvalidDate => Failure(InvalidTimeMessage)
    case CollectedText(s) => Success(Trim(s))
  }

  predicate RowHasInvalidDate(row: seq<Collected>) {
    row != [] && (RowHasInvalidDate(row[..|row| - 1]) || row[|row| - 1].CollectedInvalidDate?)
  }

  predicate HasInvalidDate(content: seq<seq<Collected>>) {
    content != [] && (HasInvalidDate(content[..|content| - 1]) || RowHasInvalidDate(content[|content| - 1]))
  }

  /** `row.map(...)`: the pass stops at the first entry that throws. */
  function CleanRow(row: seq<Collected>, toIso: int -> string): (r: Result<seq<string>, string>)
    ensures r.Success? <==> !RowHasInvalidDate(row)
    ensures r.Failure? ==> r.error == InvalidTimeMessage
    ensures r.Success? ==> |r.value| == |row|
  {
    if row == [] then Success([])
    else
      match CleanRow(row[..|row| - 1], toIso)
      case Failure(m) => Failure(m)
      case Success(init) =>
        match CleanCollected(row[|row| - 1], toIso)
        case Failure(m) => Failure(m)
        case Success(s) => Success(init + [s])
  }

  /**
   * `content.map(row => row.map(...))`: it throws the RangeError of the
   * first Invalid Date it meets, so it fails exactly when one was collected.
   */
  function CleanExcel(content: seq<seq<Collected>>, toIso: int -> string): (r: Result<seq<seq<string>>, string>)
    ensures r.Success? <==> !HasInvalidDate(content)
    ensures r.Failure? ==> r.error == InvalidTimeMessage
    ensures r.Success? ==> |r.value| == |content|
  {
    if content == [] then Success([])
    else
      match CleanExcel(content[..|content| - 1], toIso)
      case Failure(m) => Failure(m)
      case Success(init) =>
        match CleanRow(content[|content| - 1], toIso)
        case Failure(m) => Failure(m)
        case Success(row) => Success(init + [row])
  }

  /** A successful pass keeps every row's length and cleans each entry on its own. */
  lemma {:induction false} CleanRowCells(row: seq<Collected>, toIso: int -> string)
    requires !RowHasInvalidDate(row)
    ensures forall j :: 0 <= j < |row| ==> CleanCollected(row[j], toIso) == Success(CleanRow(row, toIso).value[j])
  {
    if row != [] {
      var init := row[..|row| - 1];
      CleanRowCells(init, toIso);
      assert forall j :: 0 <= j < |init| ==> init[j] == row[j];
    }
  }

  /** The Excel emptiness rule, on the collected rows. */
  predicate ExcelIsEmpty(content: seq<seq<Collected>>) {
    |content| == 0 || (|content| == 1 && |content[0]| == 0)
  }

  function ParseExcel(file: FileInfo, load: ExcelLoad, toIso: int -> string): (r: Result<Attachment, ParseError>)
    ensures r.Success? ==> BuiltFrom(file, r.value)
    ensures r.Failure? ==> r.error.ExcelError?
    ensures load.LoadThrew? ==> r == Failure(ExcelError(Threw(load.thrown)))
    ensures load.Loaded? && |load.worksheets| == 0 ==> r == Failure(ExcelError(NoSheets))
    ensures load.Loaded? && |load.worksheets| > 0 && load.worksheets[0].None? ==> r == Failure(ExcelError(FirstSheetEmpty))
    ensures load.Loaded? && |load.worksheets| > 0 && load.worksheets[0].Some? ==>
      var content := CollectRowsSpec(load.worksheets[0].value.rows);
      && (r.Success? <==> !ExcelIsEmpty(content) && !HasInvalidDate(content))
      && (r == Failure(ExcelError(NoData)) <==> ExcelIsEmpty(content))
      && (!ExcelIsEmpty(content) && HasInvalidDate(content) ==>
            r == Failure(ExcelError(Threw(ErrorObject(InvalidTimeMessage)))))
  {
    match load
    case LoadThrew(t) => Failure(ExcelError(Threw(t)))
    case Loaded(sheets) =>
      if |sheets| == 0 then Failure(ExcelError(NoSheets))
      else if sheets[0].None? then Failure(ExcelError(FirstSheetEmpty))
      else
        var content := CollectRowsSpec(sheets[0].value.rows);
        if ExcelIsEmpty(content) then Failure(ExcelError(NoData))
        else Finish(file, CleanExcel(content, toIso))
  }

  /** The end of the `try` block: a cleaning pass that threw becomes the caught error. */
  function Finish(file: FileInfo, cleaned: Result<seq<seq<string>>, string>): Result<Attachment, ParseError> {
    match cleaned
    case Failure(m) => Failure(ExcelError(Threw(ErrorObject(m))))
    case Success(t) => Success(Build(file, t))
  }

  // ---------------------------------------------------------------- parseFile

  predicate IsExcelExtension(ext: string) {
    ext == "xlsx" || ext == "xls"
  }

  /** How `parseFile` dispatches on the extension. */
  datatype FileKind = Unnamed | CsvKind | ExcelKind | OtherKind

  function KindOf(ext: string): (k: FileKind)
    ensures k == Unnamed <==> ext == ""
    ensures k == CsvKind <==> ext == "csv"
    ensures k == ExcelKind <==> IsExcelExtension(ext)
    ensures k == OtherKind <==> ext != "" && ext != "csv" && !IsExcelExtension(ext)
  {
    if ext == "" then Unnamed
    else if ext == "csv" then CsvKind
    else if IsExcelExtension(ext) then ExcelKind
    else OtherKind
  }

  /** The outcome of `parseFile`, as a value. */
  function Parse(file: FileInfo, csv: CsvDecode, excel: ExcelLoad, toIso: int -> string): (r: Result<Attachment, ParseError>)
    // a zero-byte file is refused before anything else is looked at
    ensures file.size == 0 ==> r == Failure(EmptyFile)
    ensures r.Success? ==> file.size > 0 && BuiltFrom(file, r.value)
  {
    if file.size == 0 then Failure(EmptyFile)
    else
      var kind := KindOf(Extension(file.name));
      match kind
      case Unnamed => Failure(MissingExtension)
      case CsvKind => ParseCsv(file, csv)
      case ExcelKind => ParseExcel(file, excel, toIso)
      case OtherKind => Failure(UnsupportedType)
  }

  /**
   * The checks `parseFile` makes before decoding, in order: the empty file,
   * then a missing extension, then an extension that is neither CSV nor
   * Excel. Only a CSV or Excel extension can succeed, and each decoder's
   * errors arise only on its own path.
   */
  lemma ParseOrder(file: FileInfo, csv: CsvDecode, excel: ExcelLoad, toIso: int -> string)
    ensures var r := Parse(file, csv, excel, toIso);
      var ext := Extension(file.name);
      && (r == Failure(MissingExtension) <==> file.size > 0 && ext == "")
      && (r == Failure(UnsupportedType) <==> file.size > 0 && ext != "" && ext != "csv" && !IsExcelExtension(ext))
      && (r.Success? ==> ext == "csv" || IsExcelExtension(ext))
      && (r.Failure? && r.error.ExcelError? ==> IsExcelExtension(ext))
      && (r.Failure? && (r.error.CsvInvalid? || r.error.CsvEmpty? || r.error.CsvReadError?) ==> ext == "csv")
  {
    var r := Parse(file, csv, excel, toIso);
    if file.size == 0 {
      assert r == Failure(EmptyFile);
    } else {
      match KindOf(Extension(file.name))
      case Unnamed => assert r == Failure(MissingExtension);
      case CsvKind =>
        assert r == ParseCsv(file, csv);
        assert r.Failure? ==> r.error.CsvInvalid? || r.error.CsvEmpty? || r.error.CsvReadError?;
      case ExcelKind =>
        assert r == ParseExcel(file, excel, toIso);
        assert r.Failure? ==> r.error.ExcelError?;
      case OtherKind => assert r == Failure(UnsupportedType);
    }
  }

  /** `parseFile`, with the Excel collection done by the callback loops. */
  method ParseFile(file: FileInfo, csv: CsvDecode, excel: ExcelLoad, toIso: int -> string) returns (r: Result<Attachment, ParseError>)
    ensures r == Parse(file, csv, excel, toIso)
  {
    if file.size == 0 {
      return Failure(EmptyFile);
    }
    var ext := Extension(file.name);
    if ext == "" {
      return Failure(MissingExtension);
    }
    if ext == "csv" {
      return ParseCsv(file, csv);
    }
    if IsExcelExtension(ext) {
      match excel
      case LoadThrew(t) =>
        return Failure(ExcelError(Threw(t)));
      case Loaded(sheets) =>
        if |sheets| == 0 {
          return Failure(ExcelError(NoSheets));
        }
        if sheets[0].None? {
          return Failure(ExcelError(FirstSheetEmpty));
        }
        var content := CollectRows(sheets[0].value.rows);
        if ExcelIsEmpty(content) {
          return Failure(ExcelError(NoData));
        }
        match CleanExcel(content, toIso)
        case Failure(m) =>
          return Failure(ExcelError(Threw(ErrorObject(m))));
        case Success(t) =>
          return Success(Build(file, t));
    }
    return Failure(UnsupportedType);
  }

  // ---------------------------------------------------------------- properties

  /** An unsupported or missing extension is refused without consulting either decoder. */
  lemma UnsupportedNeedsNoDecoder(file: FileInfo, csv1: CsvDecode, csv2: CsvDecode, excel1: ExcelLoad, excel2: ExcelLoad,
                                  iso1: int -> string, iso2: int -> string)
    requires Extension(file.name) != "csv" && !IsExcelExtension(Extension(file.name))
    ensures Parse(file, csv1, excel1, iso1) == Parse(file, csv2, excel2, iso2)
    ensures Parse(file, csv1, excel1, iso1).Failure?
  {
  }

  /** A non-empty file with the extension `csv` goes to the CSV reader. */
  lemma CsvPath(file: FileInfo, csv: CsvDecode, excel: ExcelLoad, toIso: int -> string)
    requires file.size > 0 && Extension(file.name) == "csv"
    ensures Parse(file, csv, excel, toIso) == ParseCsv(file, csv)
  {
    assert KindOf(Extension(file.name)) == CsvKind;
  }

  /** A non-empty file with an Excel extension goes to the workbook reader. */
  lemma ExcelPath(file: FileInfo, csv: CsvDecode, excel: ExcelLoad, toIso: int -> string)
    requires file.size > 0 && IsExcelExtension(Extension(file.name))
    ensures Parse(file, csv, excel, toIso) == ParseExcel(file, excel, toIso)
  {
    assert KindOf(Extension(file.name)) == ExcelKind;
  }

  /** The CSV rules in the order the source applies them. */
  lemma CsvOutcome(file: FileInfo, data: seq<seq<CsvCell>>, errors: nat, excel: ExcelLoad, toIso: int -> string)
    requires file.size > 0 && Extension(file.name) == "csv"
    ensures var r := Parse(file, CsvDecoded(data, errors), excel, toIso);
      && (errors > 0 ==> r == Failure(CsvInvalid))
      && (errors == 0 && CsvIsEmpty(data) ==> r == Failure(CsvEmpty))
      && (errors == 0 && !CsvIsEmpty(data) ==> r.Success? && r.value.content == CleanCsv(data))
  {
    CsvPath(file, CsvDecoded(data, errors), excel, toIso);
  }

  /** A read failure is rejected with the decoder's own message behind the CSV prefix (see `ErrorMessage`). */
  lemma CsvReadFailureOutcome(file: FileInfo, message: string, excel: ExcelLoad, toIso: int -> string)
    requires file.size > 0 && Extension(file.name) == "csv"
    ensures Parse(file, CsvReadFailed(message), excel, toIso) == Failure(CsvReadError(message))
  {
    CsvPath(file, CsvReadFailed(message), excel, toIso);
  }

  /**
   * The Excel rules in the order the source applies them: a thrown load, no
   * worksheets, an undefined first sheet, an empty collection, an Invalid
   * Date in the sheet; anything else is accepted.
   */
  lemma ExcelOutcome(file: FileInfo, csv: CsvDecode, load: ExcelLoad, toIso: int -> string)
    requires file.size > 0 && IsExcelExtension(Extension(file.name))
    ensures var r := Parse(file, csv, load, toIso);
      && (load.LoadThrew? ==> r == Failure(ExcelError(Threw(load.thrown))))
      && (load.Loaded? && |load.worksheets| == 0 ==> r == Failure(ExcelError(NoSheets)))
      && (load.Loaded? && |load.worksheets| > 0 && load.worksheets[0].None? ==> r == Failure(ExcelError(FirstSheetEmpty)))
      && (load.Loaded? && |load.worksheets| > 0 && load.worksheets[0].Some? ==>
            var rows := load.worksheets[0].value.rows;
            var content := CollectRowsSpec(rows);
            && (r == Failure(ExcelError(NoData)) <==> ExcelIsEmpty(content))
            && (!ExcelIsEmpty(content) && SheetHasInvalidDate(rows) ==>
                  r == Failure(ExcelError(Threw(ErrorObject(InvalidTimeMessage)))))
            && (r.Success? <==> !ExcelIsEmpty(content) && !SheetHasInvalidDate(rows)))
  {
    ExcelPath(file, csv, load, toIso);
    if load.Loaded? && |load.worksheets| > 0 && load.worksheets[0].Some? {
      DatesSurviveCollection(load.worksheets[0].value.rows);
    }
  }

  /**
   * A first worksheet with an Invalid Date in any of its rows is refused
   * with the RangeError's message: such a row is never empty, so the
   * "no data" rule cannot fire first.
   */
  lemma InvalidDateRejected(file: FileInfo, csv: CsvDecode, sheet: Worksheet, rest: seq<Option<Worksheet>>, toIso: int -> string)
    requires file.size > 0 && IsExcelExtension(Extension(file.name))
    requires SheetHasInvalidDate(sheet.rows)
    ensures var r := Parse(file, csv, Loaded([Some(sheet)] + rest), toIso);
      && r == Failure(ExcelError(Threw(ErrorObject(InvalidTimeMessage))))
      && ErrorMessage(r.error) == ExcelPrefix + InvalidTimeMessage
  {
    InvalidDateParse(file, csv, sheet, rest, toIso);
    ThrownMessageShown(InvalidTimeMessage);
  }

  lemma InvalidDateParse(file: FileInfo, csv: CsvDecode, sheet: Worksheet, rest: seq<Option<Worksheet>>, toIso: int -> string)
    requires file.size > 0 && IsExcelExtension(Extension(file.name))
    requires SheetHasInvalidDate(sheet.rows)
    ensures Parse(file, csv, Loaded([Some(sheet)] + rest), toIso) == Failure(ExcelError(Threw(ErrorObject(InvalidTimeMessage))))
  {
    ExcelPath(file, csv, Loaded([Some(sheet)] + rest), toIso);
    DatesSurviveCollection(sheet.rows);
    InvalidDateLeavesData(sheet.rows);
  }

  /** A caught `Error` is shown as its own message behind the Excel prefix. */
  lemma ThrownMessageShown(m: string)
    ensures ErrorMessage(ExcelError(Threw(ErrorObject(m)))) == ExcelPrefix + m
  {
  }

  lemma {:induction false} InvalidDateLeavesData(rows: seq<SheetRow>)
    requires SheetHasInvalidDate(rows)
    ensures !ExcelIsEmpty(CollectRowsSpec(rows))
  {
    var init := rows[..|rows| - 1];
    var c := CollectRowsSpec(init);
    if SheetHasInvalidDate(init) {
      InvalidDateLeavesData(init);
    } else {
      var cells := rows[|rows| - 1].cells;
      CellDatesSurviveCollection(cells);
      assert CollectRowsSpec(rows) == c + [CollectCells(cells)];
    }
  }

  /** The extension is the lower-cased text after the last dot. */
  lemma ExtensionOfDotted(p: string, e: string)
    requires '.' !in e
    ensures Extension(p + "." + e) == Lower(e)
  {
    AfterLastDotOfDotted(p, e);
  }

  /** So an upper-case `DATA.CSV` takes the CSV path. */
  lemma UpperCaseExtension()
    ensures Extension("DATA.CSV") == "csv"
  {
    ExtensionOfDotted("DATA", "CSV");
    assert "DATA" + "." + "CSV" == "DATA.CSV";
    var l := Lower("CSV");
    assert l[0] == 'c' && l[1] == 's' && l[2] == 'v';
  }

  /**
   * The emptiness test looks at the raw cell: a lone cell of blanks passes
   * it and yields a table holding one empty string.
   */
  lemma LoneBlankCsvCellAccepted(file: FileInfo, excel: ExcelLoad, toIso: int -> string)
    requires file.size > 0 && Extension(file.name) == "csv"
    ensures Parse(file, CsvDecoded([[Text(" ")]], 0), excel, toIso).Success?
    ensures Parse(file, CsvDecoded([[Text(" ")]], 0), excel, toIso).value.content == [[""]]
  {
    LoneBlankCsvTable(file);
    CsvPath(file, CsvDecoded([[Text(" ")]], 0), excel, toIso);
  }

  lemma LoneBlankCsvTable(file: FileInfo)
    ensures ParseCsv(file, CsvDecoded([[Text(" ")]], 0)) == Success(Build(file, [[""]]))
  {
    var data := [[Text(" ")]];
    assert !CsvIsEmpty(data);
    assert Trim(" ") == [] by { assert AllWhitespace(" "); }
    var t := CleanCsv(data);
    assert t[0] == [""];
    assert t == [[""]];
  }

  /** Counting the rows `eachRow` visits. */
  function CountRows(rows: seq<SheetRow>): nat {
    if rows == [] then 0 else CountRows(rows[..|rows| - 1]) + (if rows[|rows| - 1].Row? then 1 else 0)
  }

  /** Counting the cells `eachCell` visits. */
  function CountCells(cells: seq<ExcelCell>): nat {
    if cells == [] then 0 else CountCells(cells[..|cells| - 1]) + (if cells[|cells| - 1].EmptyCell? then 0 else 1)
  }

  /** One collected row per non-empty row, one entry per non-empty cell. */
  lemma {:induction false} CollectCounts(rows: seq<SheetRow>)
    ensures |CollectRowsSpec(rows)| == CountRows(rows)
  {
    if rows != [] {
      CollectCounts(rows[..|rows| - 1]);
    }
  }

  lemma {:induction false} CollectCellsCount(cells: seq<ExcelCell>)
    ensures |CollectCells(cells)| == CountCells(cells)
  {
    if cells != [] {
      CollectCellsCount(cells[..|cells| - 1]);
    }
  }

  /** Collecting a sheet is collecting its parts in order: rows keep their source order. */
  lemma {:induction false} CollectRowsAppend(a: seq<SheetRow>, b: seq<SheetRow>)
    ensures CollectRowsSpec(a + b) == CollectRowsSpec(a) + CollectRowsSpec(b)
    decreases |b|
  {
    if b == [] {
      assert a + b == a;
    } else {
      var b' := b[..|b| - 1];
      assert (a + b)[..|a + b| - 1] == a + b';
      CollectRowsAppend(a, b');
    }
  }

  /** Within a row, the entries keep the cells' order and empty cells leave no gap. */
  lemma {:induction false} CollectCellsAppend(a: seq<ExcelCell>, b: seq<ExcelCell>)
    ensures CollectCells(a + b) == CollectCells(a) + CollectCells(b)
    decreases |b|
  {
    if b == [] {
      assert a + b == a;
    } else {
      var b' := b[..|b| - 1];
      assert (a + b)[..|a + b| - 1] == a + b';
      CollectCellsAppend(a, b');
    }
  }

  /** A row with values in columns 1 and 3 only collapses to two entries. */
  lemma SparseRowCollapses(x: string, y: string)
    ensures CollectCells([ValueCell(x), EmptyCell, ValueCell(y)]) == [CollectedText(Trim(x)), CollectedText(Trim(y))]
  {
    assert [ValueCell(x), EmptyCell, ValueCell(y)][..2] == [ValueCell(x), EmptyCell];
    assert [ValueCell(x), EmptyCell][..1] == [ValueCell(x)];
    assert [ValueCell(x)][..0] == [];
    assert CollectCells([ValueCell(x)]) == [CollectedText(Trim(x))];
    assert CollectCells([ValueCell(x), EmptyCell]) == [CollectedText(Trim(x))];
  }

  predicate RowHasInvalidDateCell(cells: seq<ExcelCell>) {
    cells != [] && (RowHasInvalidDateCell(cells[..|cells| - 1]) || cells[|cells| - 1].InvalidDateCell?)
  }

  /** Some non-empty row of the sheet holds an Invalid Date. */
  predicate SheetHasInvalidDate(rows: seq<SheetRow>) {
    rows != [] && (SheetHasInvalidDate(rows[..|rows| - 1]) || (rows[|rows| - 1].Row? && RowHasInvalidDateCell(rows[|rows| - 1].cells)))
  }

  /** Collection keeps every Invalid Date it meets. */
  lemma {:induction false} CellDatesSurviveCollection(cells: seq<ExcelCell>)
    ensures RowHasInvalidDate(CollectCells(cells)) <==> RowHasInvalidDateCell(cells)
  {
    if cells != [] {
      var init := cells[..|cells| - 1];
      CellDatesSurviveCollection(init);
      var c := CollectCells(init);
      match cells[|cells| - 1]
      case EmptyCell =>
      case DateCell(t) => assert (c + [CollectedDate(t)])[..|c|] == c;
      case InvalidDateCell => assert (c + [CollectedInvalidDate])[..|c|] == c;
      case ValueCell(v) => assert (c + [CollectedText(Trim(v))])[..|c|] == c;
    }
  }

  lemma {:induction false} DatesSurviveCollection(rows: seq<SheetRow>)
    ensures HasInvalidDate(CollectRowsSpec(rows)) <==> SheetHasInvalidDate(rows)
  {
    if rows != [] {
      var init := rows[..|rows| - 1];
      DatesSurviveCollection(init);
      var c := CollectRowsSpec(init);
      match rows[|rows| - 1]
      case EmptyRow =>
      case Row(cells) =>
        CellDatesSurviveCollection(cells);
        assert (c + [CollectCells(cells)])[..|c|] == c;
    }
  }

  /** The final Excel string of one cell, in one step. */
  function ExcelCellString(c: ExcelCell, toIso: int -> string): string
    requires !c.EmptyCell? && !c.InvalidDateCell?
  {
    match c
    case DateCell(t) => toIso(t)
    case ValueCell(s) => Trim(s)
  }

  /** A reference reading of the Excel table: the non-empty rows' non-empty cells, as final strings. */
  function SheetCells(cells: seq<ExcelCell>, toIso: int -> string): seq<string>
    requires !RowHasInvalidDateCell(cells)
  {
    if cells == [] then []
    else
      var init := SheetCells(cells[..|cells| - 1], toIso);
      var c := cells[|cells| - 1];
      if c.EmptyCell? then init else init + [ExcelCellString(c, toIso)]
  }

  function SheetTable(rows: seq<SheetRow>, toIso: int -> string): seq<seq<string>>
    requires !SheetHasInvalidDate(rows)
  {
    if rows == [] then []
    else
      var init := SheetTable(rows[..|rows| - 1], toIso);
      match rows[|rows| - 1]
      case EmptyRow => init
      case Row(cells) => init + [SheetCells(cells, toIso)]
  }

  lemma {:induction false} CleanCellsMatchesSheet(cells: seq<ExcelCell>, toIso: int -> string)
    requires !RowHasInvalidDateCell(cells)
    ensures CleanRow(CollectCells(cells), toIso) == Success(SheetCells(cells, toIso))
  {
    if cells != [] {
      var init := cells[..|cells| - 1];
      CleanCellsMatchesSheet(init, toIso);
      var c := CollectCells(init);
      match cells[|cells| - 1]
      case EmptyCell =>
      case DateCell(t) => assert (c + [CollectedDate(t)])[..|c|] == c;
      case ValueCell(v) =>
        assert (c + [CollectedText(Trim(v))])[..|c|] == c;
        TrimIdempotent(v);
    }
  }

  /**
   * Collecting and then cleaning gives the reference table: the second trim
   * of the cleaning pass changes nothing, and dates are serialised once.
   */
  lemma {:induction false} CleanCollectMatchesSheet(rows: seq<SheetRow>, toIso: int -> string)
    requires !SheetHasInvalidDate(rows)
    ensures CleanExcel(CollectRowsSpec(rows), toIso) == Success(SheetTable(rows, toIso))
  {
    if rows != [] {
      var init := rows[..|rows| - 1];
      CleanCollectMatchesSheet(init, toIso);
      match rows[|rows| - 1]
      case EmptyRow =>
      case Row(cells) =>
        CleanCellsMatchesSheet(cells, toIso);
        var c := CollectRowsSpec(init);
        assert (c + [CollectCells(cells)])[..|c|] == c;
    }
  }

  /** On success, the Excel path's table is the reference table of the first worksheet. */
  lemma ExcelContent(file: FileInfo, csv: CsvDecode, sheet: Worksheet, rest: seq<Option<Worksheet>>, toIso: int -> string)
    requires file.size > 0 && IsExcelExtension(Extension(file.name))
    ensures var r := Parse(file, csv, Loaded([Some(sheet)] + rest), toIso);
      r.Success? ==> !SheetHasInvalidDate(sheet.rows) && r.value.content == SheetTable(sheet.rows, toIso)
  {
    ExcelPath(file, csv, Loaded([Some(sheet)] + rest), toIso);
    DatesSurviveCollection(sheet.rows);
    if !SheetHasInvalidDate(sheet.rows) {
      CleanCollectMatchesSheet(sheet.rows, toIso);
    }
  }
}
