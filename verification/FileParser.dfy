/**
 * The text side of file ingestion (app/utils/fileParser.ts): choosing a
 * parser by file extension, flattening PDF pages and spreadsheet rows into
 * text, detecting the delimiter of a CSV file and laying CSV rows out as
 * speakable text.
 *
 * The document readers (the PDF reader, the Word reader, the spreadsheet
 * reader and `file.text()`) are outside this model: an `UploadedFile` carries
 * what each of them yields for the file's bytes.
 */
module FileParser {
  import opened Wrappers
  import opened JsText
  import opened SeqFacts

  // ---------------------------------------------------------------- inputs

  /** One worksheet as the spreadsheet reader presents it. */
  datatype WorkSheet = WorkSheet(
    rows: seq<seq<JsString>>,  // `sheet_to_json(ws, {header: 1})`, each cell as `row.join` renders it
    rowCount: int,             // `decode_range(ws['!ref']).e.r - s.r + 1`
    txt: JsString)             // `sheet_to_txt(ws, {FS: '\t'})`

  datatype WorkbookData = WorkbookData(names: seq<JsString>, sheets: map<JsString, WorkSheet>)

  /** A read workbook: every listed sheet name has its sheet. */
  type Workbook = w: WorkbookData | forall n :: n in w.names ==> n in w.sheets
    witness WorkbookData([], map[])

  /** An uploaded file: its name and what each external reader makes of its bytes. */
  datatype UploadedFile = UploadedFile(
    name: JsString,
    text: Result<JsString, JsString>,                // `file.text()`, or the message it fails with
    pdfPages: Result<seq<seq<JsString>>, JsString>,  // the `str` of each text item, page by page
    docxText: Result<JsString, JsString>,            // `mammoth.extractRawText(...).value`
    workbook: Result<Workbook, JsString>)            // `XLSX.read(...)`

  // ------------------------------------------------------ extension dispatch

  /** `name.split('.').pop()`: the text after the last dot, or the whole name. */
  function LastSegment(name: JsString): (r: JsString)
    ensures DotChar !in r && |r| <= |name| && r == name[|name| - |r|..]
    ensures |r| < |name| ==> name[|name| - |r| - 1] == DotChar
  {
    SplitLast(name, DotChar);
    var pieces := Split(name, DotChar);
    pieces[|pieces| - 1]
  }

  /** The lower-cased extension the dispatch compares. */
  function Extension(name: JsString): (r: JsString)
    ensures |r| <= |name| && DotChar !in r
  {
    LowerAscii(LastSegment(name))
  }

  function Txt(): JsString { Ascii("txt") }
  function Pdf(): JsString { Ascii("pdf") }
  function Docx(): JsString { Ascii("docx") }
  function Xlsx(): JsString { Ascii("xlsx") }
  function Xls(): JsString { Ascii("xls") }
  function Csv(): JsString { Ascii("csv") }

  datatype FileKind = TxtFile | PdfFile | DocxFile | XlsxFile | XlsFile | CsvFile | Unsupported(ext: JsString)

  /** The branch a file takes, decided by its lower-cased extension alone. */
  function KindOf(name: JsString): (k: FileKind)
    ensures var e := Extension(name);
      && (k == TxtFile <==> e == Txt())
      && (k == PdfFile <==> e == Pdf())
      && (k == DocxFile <==> e == Docx())
      && (k == XlsxFile <==> e == Xlsx())
      && (k == XlsFile <==> e == Xls())
      && (k == CsvFile <==> e == Csv())
      && (k.Unsupported? <==> e !in {Txt(), Pdf(), Docx(), Xlsx(), Xls(), Csv()})
      && (k.Unsupported? ==> k.ext == e)
  {
    var e := Extension(name);
    if e == Txt() then TxtFile
    else if e == Pdf() then PdfFile
    else if e == Docx() then DocxFile
    else if e == Xlsx() then XlsxFile
    else if e == Xls() then XlsFile
    else if e == Csv() then CsvFile
    else Unsupported(e)
  }

  // ----------------------------------------------------------------- PDF text

  /** The text of one page: its text items joined by single spaces. */
  function PageText(items: seq<JsString>): JsString {
    Join(items, [SpaceChar])
  }

  /** The document text: every page's text followed by a blank line. */
  function PdfText(pages: seq<seq<JsString>>): JsString
    decreases |pages|
  {
    if pages == [] then []
    else PdfText(pages[..|pages| - 1]) + (PageText(pages[|pages| - 1]) + [LineFeed, LineFeed])
  }

  /** Accumulates the document text page by page, as `parsePdf` does. */
  method ExtractPdfText(pages: seq<seq<JsString>>) returns (fullText: JsString)
    ensures fullText == PdfText(pages)
  {
    fullText := [];
    var i := 0;
    while i < |pages|
      invariant 0 <= i <= |pages|
      invariant fullText == PdfText(pages[..i])
    {
      TakeOneMore(pages, i);
      fullText := fullText + (PageText(pages[i]) + [LineFeed, LineFeed]);
      i := i + 1;
    }
    TakeAll(pages);
  }

  /** The pages' texts in page order. */
  function PageTexts(pages: seq<seq<JsString>>): (r: seq<JsString>)
    ensures |r| == |pages|
  {
    seq(|pages|, i requires 0 <= i < |pages| => PageText(pages[i]))
  }

  /** The document text is the pages' texts separated by blank lines, with one more blank line at the end. */
  lemma {:induction false} PdfTextSeparatesPages(pages: seq<seq<JsString>>)
    requires |pages| >= 1
    ensures PdfText(pages) == Join(PageTexts(pages), [LineFeed, LineFeed]) + [LineFeed, LineFeed]
    decreases |pages|
  {
    var n := |pages|;
    if n == 1 {
      assert pages[..0] == [];
    } else {
      PdfTextSeparatesPages(pages[..n - 1]);
      assert PageTexts(pages) == PageTexts(pages[..n - 1]) + [PageText(pages[n - 1])];
      JoinAppend(PageTexts(pages[..n - 1]), PageText(pages[n - 1]), [LineFeed, LineFeed]);
    }
  }

  /** The document text is blank exactly when every page's text is blank. */
  lemma {:induction false} PdfTextBlank(pages: seq<seq<JsString>>)
    ensures IsBlank(PdfText(pages)) <==> forall p :: p in pages ==> IsBlank(PageText(p))
    decreases |pages|
  {
    if pages != [] {
      var front, last := pages[..|pages| - 1], pages[|pages| - 1];
      assert pages == front + [last];
      assert forall p :: p in pages <==> p in front || p == last;
      PdfTextBlank(front);
      BlankConcat(PdfText(front), PageText(last) + [LineFeed, LineFeed]);
      BlankConcat(PageText(last), [LineFeed, LineFeed]);
      BlankIffAllWhiteSpace([LineFeed, LineFeed]);
    }
  }

  // ----------------------------------------------------------- spreadsheet text

  /** One row: its cells joined by ", ", then a line break. */
  function RowLine(row: seq<JsString>): JsString {
    Join(row, Ascii(", ")) + [LineFeed]
  }

  /** The rows of a sheet, one per line. */
  function RowsText(rows: seq<seq<JsString>>): JsString
    decreases |rows|
  {
    if rows == [] then [] else RowsText(rows[..|rows| - 1]) + RowLine(rows[|rows| - 1])
  }

  /** "--- Sheet: name ---" on a line of its own. */
  function Banner(name: JsString): (r: JsString)
    ensures !IsBlank(r)
  {
    var r := Ascii("--- Sheet: ") + name + Ascii(" ---\n");
    assert !IsWhiteSpace(r[0]);
    BlankIffAllWhiteSpace(r);
    r
  }

  /** A sheet's banner, its rows, then an empty line. */
  function SheetDump(name: JsString, sheet: WorkSheet): JsString {
    Banner(name) + RowsText(sheet.rows) + [LineFeed]
  }

  /** The whole workbook laid out sheet after sheet, in the order of `names`. */
  function WorkbookText(wb: Workbook, names: seq<JsString>): JsString
    requires forall n :: n in names ==> n in wb.sheets
    decreases |names|
  {
    if names == [] then []
    else
      var last := names[|names| - 1];
      WorkbookText(wb, names[..|names| - 1]) + SheetDump(last, wb.sheets[last])
  }

  /** The workbook text is blank exactly when the workbook has no sheets: each sheet contributes a visible banner. */
  lemma {:induction false} WorkbookTextBlank(wb: Workbook, names: seq<JsString>)
    requires forall n :: n in names ==> n in wb.sheets
    ensures IsBlank(WorkbookText(wb, names)) <==> names == []
  {
    if names != [] {
      var last := names[|names| - 1];
      var sheet := wb.sheets[last];
      BlankConcat(Banner(last), RowsText(sheet.rows));
      BlankConcat(Banner(last) + RowsText(sheet.rows), [LineFeed]);
      BlankConcat(WorkbookText(wb, names[..|names| - 1]), SheetDump(last, sheet));
    }
  }

  lemma RowsTextStep(rows: seq<seq<JsString>>, j: nat)
    requires j < |rows|
    ensures RowsText(rows[..j + 1]) == RowsText(rows[..j]) + RowLine(rows[j])
  {
    TakeOneMore(rows, j);
  }

  lemma WorkbookTextStep(wb: Workbook, i: nat)
    requires i < |wb.names|
    ensures WorkbookText(wb, wb.names[..i + 1]) == WorkbookText(wb, wb.names[..i]) + SheetDump(wb.names[i], wb.sheets[wb.names[i]])
  {
    TakeOneMore(wb.names, i);
  }

  /** Appends a sheet's rows to `text`, one line per row, as the inner `forEach` of `parseExcel` does. */
  method AppendRows(text: JsString, rows: seq<seq<JsString>>) returns (r: JsString)
    ensures r == text + RowsText(rows)
  {
    r := text;
    var j := 0;
    assert rows[..0] == [];
    assert text + [] == text;
    while j < |rows|
      invariant 0 <= j <= |rows|
      invariant r == text + RowsText(rows[..j])
    {
      RowsTextStep(rows, j);
      ConcatAssoc(text, RowsText(rows[..j]), RowLine(rows[j]));
      r := r + (Join(rows[j], Ascii(", ")) + [LineFeed]);
      j := j + 1;
    }
    TakeAll(rows);
  }

  /** Accumulates the workbook text sheet by sheet and row by row, as `parseExcel` does. */
  method ExtractWorkbookText(wb: Workbook) returns (fullText: JsString)
    ensures fullText == WorkbookText(wb, wb.names)
  {
    fullText := [];
    var i := 0;
    while i < |wb.names|
      invariant 0 <= i <= |wb.names|
      invariant fullText == WorkbookText(wb, wb.names[..i])
    {
      var name := wb.names[i];
      var rows := wb.sheets[name].rows;
      WorkbookTextStep(wb, i);
      fullText := fullText + Banner(name);
      fullText := AppendRows(fullText, rows);
      fullText := fullText + [LineFeed];
      ConcatAssoc(WorkbookText(wb, wb.names[..i]), Banner(name), RowsText(rows));
      ConcatAssoc(WorkbookText(wb, wb.names[..i]), Banner(name) + RowsText(rows), [LineFeed]);
      i := i + 1;
    }
    TakeAll(wb.names);
  }

  // -------------------------------------------------------------- parseFile

  datatype FileType = TxtType | PdfType | DocxType | ExcelType

  datatype ParsedFile = ParsedFile(
    text: JsString,
    fileType: FileType,
    pageCount: Option<nat>,
    sheetNames: Option<seq<JsString>>)

  datatype ParseError =
    | UnsupportedFormat(ext: JsString)  // "Định dạng file .<ext> chưa được hỗ trợ"
    | ReaderFailed(message: JsString)   // the exception of an external reader, passed on

  /**
   * `parseFile`: the extension picks the reader; spreadsheets and CSV files
   * both go to the spreadsheet reader; any other extension is an error that
   * names it.
   */
  method ParseFile(file: UploadedFile) returns (r: Result<ParsedFile, ParseError>)
    ensures match KindOf(file.name)
      case TxtFile => r == (if file.text.Ok? then Ok(ParsedFile(file.text.value, TxtType, None, None))
                            else Err(ReaderFailed(file.text.error)))
      case PdfFile => r == (if file.pdfPages.Ok?
                            then Ok(ParsedFile(PdfText(file.pdfPages.value), PdfType, Some(|file.pdfPages.value|), None))
                            else Err(ReaderFailed(file.pdfPages.error)))
      case DocxFile => r == (if file.docxText.Ok? then Ok(ParsedFile(file.docxText.value, DocxType, None, None))
                             else Err(ReaderFailed(file.docxText.error)))
      case Unsupported(ext) => r == Err(UnsupportedFormat(ext)) && ext == Extension(file.name)
      case _ => r == (if file.workbook.Ok?
                      then Ok(ParsedFile(WorkbookText(file.workbook.value, file.workbook.value.names),
                                         ExcelType, None, Some(file.workbook.value.names)))
                      else Err(ReaderFailed(file.workbook.error)))
  {
    match KindOf(file.name)
    case TxtFile =>
      r := if file.text.Ok? then Ok(ParsedFile(file.text.value, TxtType, None, None))
           else Err(ReaderFailed(file.text.error));
    case PdfFile =>
      if file.pdfPages.Ok? {
        var text := ExtractPdfText(file.pdfPages.value);
        r := Ok(ParsedFile(text, PdfType, Some(|file.pdfPages.value|), None));
      } else {
        r := Err(ReaderFailed(file.pdfPages.error));
      }
    case DocxFile =>
      r := if file.docxText.Ok? then Ok(ParsedFile(file.docxText.value, DocxType, None, None))
           else Err(ReaderFailed(file.docxText.error));
    case Unsupported(ext) =>
      r := Err(UnsupportedFormat(ext));
    case _ =>
      if file.workbook.Ok? {
        var wb := file.workbook.value;
        var text := ExtractWorkbookText(wb);
        r := Ok(ParsedFile(text, ExcelType, None, Some(wb.names)));
      } else {
        r := Err(ReaderFailed(file.workbook.error));
      }
  }

  // ------------------------------------------------------ delimiter detection

  datatype Delimiter = Comma | Semicolon | Tab

  function DelimiterChar(d: Delimiter): CodeUnit {
    match d
    case Comma => CommaChar
    case Semicolon => SemicolonChar
    case Tab => TabChar
  }

  datatype DelimiterCounts = DelimiterCounts(comma: nat, semicolon: nat, tab: nat, detected: Delimiter)

  function CountOf(c: DelimiterCounts, d: Delimiter): nat {
    match d
    case Comma => c.comma
    case Semicolon => c.semicolon
    case Tab => c.tab
  }

  /**
   * The winner among three counts: the largest, with ties going to tab,
   * then semicolon, then comma (so three zeros give tab).
   */
  function Winner(comma: nat, semicolon: nat, tab: nat): (d: Delimiter)
    ensures d == Tab <==> tab >= comma && tab >= semicolon
    ensures d == Semicolon <==> semicolon > tab && semicolon >= comma
    ensures d == Comma <==> comma > tab && comma > semicolon
  {
    var max := if comma >= semicolon && comma >= tab then comma
               else if semicolon >= tab then semicolon else tab;
    if max == tab then Tab
    else if max == semicolon then Semicolon
    else Comma
  }

  /** `text.split('\n').slice(0, 5)`: the lines the detector looks at. */
  function HeadLines(text: JsString): (r: seq<JsString>)
    ensures 1 <= |r| <= 5
  {
    var lines := Split(text, LineFeed);
    if |lines| <= 5 then lines else lines[..5]
  }

  /** Occurrences of `c` summed over the lines. */
  function Occurrences(lines: seq<JsString>, c: CodeUnit): nat
    decreases |lines|
  {
    if lines == [] then 0
    else Occurrences(lines[..|lines| - 1], c) + multiset(lines[|lines| - 1])[c]
  }

  /** What `detectCSVDelimiter` reports for a text. */
  function DelimiterStats(text: JsString): (r: DelimiterCounts)
    ensures CountOf(r, r.detected) >= r.comma && CountOf(r, r.detected) >= r.semicolon
            && CountOf(r, r.detected) >= r.tab
  {
    var lines := HeadLines(text);
    var comma := Occurrences(lines, CommaChar);
    var semicolon := Occurrences(lines, SemicolonChar);
    var tab := Occurrences(lines, TabChar);
    DelimiterCounts(comma, semicolon, tab, Winner(comma, semicolon, tab))
  }

  /** Counts the three delimiters line by line over the first five lines, then picks the winner. */
  method DetectCsvDelimiter(text: JsString) returns (r: DelimiterCounts)
    ensures r == DelimiterStats(text)
  {
    var lines := HeadLines(text);
    var comma, semicolon, tab := 0, 0, 0;
    var i := 0;
    while i < |lines|
      invariant 0 <= i <= |lines|
      invariant comma == Occurrences(lines[..i], CommaChar)
      invariant semicolon == Occurrences(lines[..i], SemicolonChar)
      invariant tab == Occurrences(lines[..i], TabChar)
    {
      assert lines[..i + 1][..i] == lines[..i];
      comma := comma + multiset(lines[i])[CommaChar];
      semicolon := semicolon + multiset(lines[i])[SemicolonChar];
      tab := tab + multiset(lines[i])[TabChar];
      i := i + 1;
    }
    assert lines[..|lines|] == lines;
    r := DelimiterCounts(comma, semicolon, tab, Winner(comma, semicolon, tab));
  }

  /** Whatever follows the fifth line break cannot change what the detector reports. */
  lemma DetectionIgnoresTail(t: JsString, u: JsString)
    requires multiset(t)[LineFeed] >= 5
    ensures DelimiterStats(t + u) == DelimiterStats(t)
  {
    SplitPrefixStable(t, u, LineFeed, 5);
    assert HeadLines(t + u) == HeadLines(t);
  }

  /** A text without any of the three delimiters, the empty text among them, is detected as tab with all counts zero. */
  lemma {:induction false} DetectionWithoutDelimiters(text: JsString)
    requires CommaChar !in text && SemicolonChar !in text && TabChar !in text
    ensures DelimiterStats(text) == DelimiterCounts(0, 0, 0, Tab)
  {
    var lines := HeadLines(text);
    var all := Split(text, LineFeed);
    SplitPiecesFromText(text, LineFeed, CommaChar);
    SplitPiecesFromText(text, LineFeed, SemicolonChar);
    SplitPiecesFromText(text, LineFeed, TabChar);
    assert forall k :: 0 <= k < |lines| ==> lines[k] == all[k];
    NoOccurrences(lines, CommaChar);
    NoOccurrences(lines, SemicolonChar);
    NoOccurrences(lines, TabChar);
  }

  lemma {:induction false} NoOccurrences(lines: seq<JsString>, c: CodeUnit)
    requires forall k :: 0 <= k < |lines| ==> c !in lines[k]
    ensures Occurrences(lines, c) == 0
    decreases |lines|
  {
    if lines != [] {
      NoOccurrences(lines[..|lines| - 1], c);
    }
  }

  // -------------------------------------------------------------- CSV layout

  /** `cell.trim().replace(/^"|"$/g, '')`. */
  function CleanCell(cell: JsString): (r: JsString)
    ensures |Trim(cell)| - 2 <= |r| <= |Trim(cell)|
    ensures var t := Trim(cell);
      (t == [] || (t[0] != QuoteChar && t[|t| - 1] != QuoteChar)) ==> r == t
  {
    var t := Trim(cell);
    var a := if |t| > 0 && t[0] == QuoteChar then t[1..] else t;
    if |a| > 0 && a[|a| - 1] == QuoteChar then a[..|a| - 1] else a
  }

  /**
   * A cleaned cell is its trimmed text without a leading quote and without
   * a trailing quote, each dropped only when present; a lone quote is
   * dropped once.
   */
  lemma CleanCellShape(cell: JsString)
    ensures var t := Trim(cell);
      var i := if |t| >= 1 && t[0] == QuoteChar then 1 else 0;
      var j := if |t| > i && t[|t| - 1] == QuoteChar then |t| - 1 else |t|;
      i <= j <= |t| && CleanCell(cell) == t[i..j]
  {
  }

  function CleanCells(cells: seq<JsString>): seq<JsString> {
    seq(|cells|, k requires 0 <= k < |cells| => CleanCell(cells[k]))
  }

  function PipeSeparator(): JsString { Ascii(" | ") }

  /** One line's cells, cleaned and joined by " | ". */
  function Row(line: JsString, d: Delimiter): JsString {
    Join(CleanCells(Split(line, DelimiterChar(d))), PipeSeparator())
  }

  /** "📊 " — the chart emoji as its UTF-16 surrogate pair, then a space. */
  const ChartMark: JsString := [0xD83D, 0xDCCA, SpaceChar]

  const MaxRuleWidth: nat := 100

  /** The header block: the marked first row and a rule as wide as the row, at most 100 dashes. */
  function HeaderBlock(line: JsString, d: Delimiter): JsString {
    if IsBlank(line) then [] else MarkedHeader(Row(line, d))
  }

  /** A row marked with the chart, then its rule, each on a line of its own. */
  function MarkedHeader(row: JsString): JsString {
    (ChartMark + row + [LineFeed]) + (Repeat(DashChar, Min(|row|, MaxRuleWidth)) + [LineFeed])
  }

  /** A data line: its row on a line of its own, or nothing for a blank line. */
  function BodyLine(line: JsString, d: Delimiter): JsString {
    if IsBlank(line) then [] else Row(line, d) + [LineFeed]
  }

  /** What the line at `index` contributes: only index 0 is a header. */
  function LineOutput(line: JsString, index: nat, d: Delimiter): JsString {
    if index == 0 then HeaderBlock(line, d) else BodyLine(line, d)
  }

  /** The output for a run of lines starting at index 0. */
  function FormatLines(lines: seq<JsString>, d: Delimiter): (r: JsString)
    ensures Terminated(r)
    decreases |lines|
  {
    if lines == [] then []
    else
      var n := |lines|;
      LineOutputEndsWithLineFeed(lines[n - 1], n - 1, d);
      TerminatedConcat(FormatLines(lines[..n - 1], d), LineOutput(lines[n - 1], n - 1, d));
      FormatLines(lines[..n - 1], d) + LineOutput(lines[n - 1], n - 1, d)
  }

  /**
   * What `parseCSVWithDelimiter` returns for a text: every emitted line is
   * terminated, and a text made only of white space, the empty text among
   * them, lays out as the empty string.
   */
  function FormatCsv(text: JsString, d: Delimiter): (r: JsString)
    ensures Terminated(r)
    ensures AllWhiteSpace(text) ==> r == []
  {
    var lines := Split(text, LineFeed);
    if AllWhiteSpace(text) then
      BlankTextBlankLines(text);
      AllBlankFormatsEmpty(lines, d);
      FormatLines(lines, d)
    else FormatLines(lines, d)
  }

  /** Lays the CSV text out line by line, appending to the result, as `parseCSVWithDelimiter` does. */
  method ParseCsvWithDelimiter(text: JsString, d: Delimiter) returns (formatted: JsString)
    ensures formatted == FormatCsv(text, d)
  {
    var delimiterChar := DelimiterChar(d);
    var lines := Split(text, LineFeed);
    formatted := [];
    var index := 0;
    while index < |lines|
      invariant 0 <= index <= |lines|
      invariant formatted == FormatLines(lines[..index], d)
    {
      FormatLinesStep(lines, index, d);
      formatted := EmitLine(formatted, lines[index], index, delimiterChar, d);
      index := index + 1;
    }
    TakeAll(lines);
  }

  /** The body of the `forEach` in `parseCSVWithDelimiter`: appends what the line at `index` contributes. */
  method EmitLine(formatted: JsString, line: JsString, index: nat, delimiterChar: CodeUnit, ghost d: Delimiter)
    returns (r: JsString)
    requires delimiterChar == DelimiterChar(d)
    ensures r == formatted + LineOutput(line, index, d)
  {
    r := formatted;
    if Trim(line) != [] {
      var cells := CleanCells(Split(line, delimiterChar));
      assert Join(cells, PipeSeparator()) == Row(line, d);
      if index == 0 {
        var headerLine := ChartMark + Join(cells, PipeSeparator()) + [LineFeed];
        r := r + headerLine;
        var ruleLine := Repeat(DashChar, Min(|Join(cells, PipeSeparator())|, MaxRuleWidth)) + [LineFeed];
        r := r + ruleLine;
        ConcatAssoc(formatted, headerLine, ruleLine);
      } else {
        r := r + (Join(cells, PipeSeparator()) + [LineFeed]);
      }
    } else {
      ConcatEmpty(formatted);
    }
  }

  lemma FormatLinesStep(lines: seq<JsString>, i: nat, d: Delimiter)
    requires i < |lines|
    ensures FormatLines(lines[..i + 1], d) == FormatLines(lines[..i], d) + LineOutput(lines[i], i, d)
  {
    TakeOneMore(lines, i);
  }

  /** The data lines after the first, with no index involved: one row per non-blank line. */
  function BodyLines(lines: seq<JsString>, d: Delimiter): JsString
    decreases |lines|
  {
    if lines == [] then [] else BodyLine(lines[0], d) + BodyLines(lines[1..], d)
  }

  lemma {:induction false} BodyLinesAppend(lines: seq<JsString>, x: JsString, d: Delimiter)
    ensures BodyLines(lines + [x], d) == BodyLines(lines, d) + BodyLine(x, d)
    decreases |lines|
  {
    AppendThenTail(lines, x);
    if lines != [] {
      BodyLinesAppend(lines[1..], x, d);
      ConcatAssoc(BodyLine(lines[0], d), BodyLines(lines[1..], d), BodyLine(x, d));
    }
  }

  /** Past line 0, each further line adds its data row (or nothing, when blank) at the end. */
  lemma FormatLinesLast(lines: seq<JsString>, d: Delimiter)
    requires |lines| >= 2
    ensures FormatLines(lines, d) == FormatLines(lines[..|lines| - 1], d) + BodyLine(lines[|lines| - 1], d)
  {
  }

  /**
   * The layout is the header block of line 0 (nothing at all if line 0 is
   * blank) followed by one row per non-blank later line, in order.
   */
  lemma {:induction false} FormatIsHeaderThenBody(lines: seq<JsString>, d: Delimiter)
    requires |lines| >= 1
    ensures FormatLines(lines, d) == HeaderBlock(lines[0], d) + BodyLines(lines[1..], d)
    decreases |lines|
  {
    var n := |lines|;
    if n == 1 {
      assert lines[..0] == [];
    } else {
      var front, last := lines[..n - 1], lines[n - 1];
      FormatIsHeaderThenBody(front, d);
      FormatLinesLast(lines, d);
      BodyLinesAppend(front[1..], last, d);
      TailThenLast(lines);
      ConcatAssoc(HeaderBlock(lines[0], d), BodyLines(front[1..], d), BodyLine(last, d));
    }
  }

  /** The marked row on one line, then a rule of dashes as wide as the row but at most 100, on the next. */
  lemma MarkedHeaderShape(row: JsString)
    ensures var r := MarkedHeader(row);
      var ruleStart := |ChartMark| + |row| + 1;
      && |r| == ruleStart + Min(|row|, MaxRuleWidth) + 1
      && r[..|ChartMark|] == ChartMark && r[|ChartMark|..ruleStart - 1] == row && r[ruleStart - 1] == LineFeed
      && (forall i :: ruleStart <= i < |r| - 1 ==> r[i] == DashChar)
      && r[|r| - 1] == LineFeed
  {
    var head := ChartMark + row + [LineFeed];
    var rule := Repeat(DashChar, Min(|row|, MaxRuleWidth)) + [LineFeed];
    assert MarkedHeader(row) == head + rule;
    assert (head + rule)[..|ChartMark|] == ChartMark;
    assert (head + rule)[|ChartMark|..|head| - 1] == row;
  }

  /** Empty, or ending with a line break. */
  predicate Terminated(s: JsString) {
    s == [] || s[|s| - 1] == LineFeed
  }

  lemma TerminatedConcat(a: JsString, b: JsString)
    requires Terminated(a) && Terminated(b)
    ensures Terminated(a + b)
  {
    if b == [] {
      assert a + b == a;
    }
  }

  /** What one line contributes is empty or ends with a line break. */
  lemma LineOutputEndsWithLineFeed(line: JsString, index: nat, d: Delimiter)
    ensures Terminated(LineOutput(line, index, d))
  {
  }

  /** Non-blank lines among `lines`. */
  function NonBlankCount(lines: seq<JsString>): nat
    decreases |lines|
  {
    if lines == [] then 0
    else NonBlankCount(lines[..|lines| - 1]) + (if IsBlank(lines[|lines| - 1]) then 0 else 1)
  }

  /** A row built from a line without line breaks has none either. */
  lemma RowHasNoLineFeed(line: JsString, d: Delimiter)
    requires LineFeed !in line
    ensures LineFeed !in Row(line, d)
  {
    var cells := Split(line, DelimiterChar(d));
    SplitPiecesFromText(line, DelimiterChar(d), LineFeed);
    var cleaned := CleanCells(cells);
    forall k | 0 <= k < |cleaned| ensures LineFeed !in cleaned[k] {
      var t := Trim(cells[k]);
      TrimWithin(cells[k]);
      CleanCellShape(cells[k]);
      assert forall x :: x in cleaned[k] ==> x in t;
    }
    JoinAvoids(cleaned, PipeSeparator(), LineFeed);
  }

  /**
   * Every emitted line ends in a line break and no other line break is
   * emitted: the output has one line per non-blank input line, plus the
   * rule line when line 0 is not blank.
   */
  lemma {:induction false} FormattedLineCount(text: JsString, d: Delimiter)
    ensures var lines := Split(text, LineFeed);
      multiset(FormatCsv(text, d))[LineFeed] == NonBlankCount(lines) + (if IsBlank(lines[0]) then 0 else 1)
  {
    var lines := Split(text, LineFeed);
    SplitPieces(text, LineFeed);
    LinesCount(lines, d);
  }

  lemma {:induction false} LinesCount(lines: seq<JsString>, d: Delimiter)
    requires |lines| >= 1
    requires forall k :: 0 <= k < |lines| ==> LineFeed !in lines[k]
    ensures multiset(FormatLines(lines, d))[LineFeed] == NonBlankCount(lines) + (if IsBlank(lines[0]) then 0 else 1)
    decreases |lines|
  {
    var n := |lines|;
    var front, last := lines[..n - 1], lines[n - 1];
    var out := LineOutput(last, n - 1, d);
    LineOutputCount(last, n - 1, d);
    assert FormatLines(lines, d) == FormatLines(front, d) + out;
    assert multiset(FormatLines(lines, d)) == multiset(FormatLines(front, d)) + multiset(out);
    assert NonBlankCount(lines) == NonBlankCount(front) + (if IsBlank(last) then 0 else 1);
    if n > 1 {
      assert front[0] == lines[0];
      LinesCount(front, d);
    } else {
      assert front == [];
    }
  }

  /** Line breaks in one line's output: none for a blank line, two for the header (row and rule), one for a data row. */
  lemma LineOutputCount(line: JsString, index: nat, d: Delimiter)
    requires LineFeed !in line
    ensures multiset(LineOutput(line, index, d))[LineFeed] == if IsBlank(line) then 0 else if index == 0 then 2 else 1
  {
    if !IsBlank(line) {
      RowHasNoLineFeed(line, d);
      var row := Row(line, d);
      assert multiset(row)[LineFeed] == 0;
      if index == 0 {
        var rule := Repeat(DashChar, Min(|row|, MaxRuleWidth));
        assert LineFeed !in rule;
        assert multiset(rule)[LineFeed] == 0;
        assert multiset(ChartMark)[LineFeed] == 0;
      }
    }
  }

  /** Every line of a text made only of white space is blank. */
  lemma BlankTextBlankLines(text: JsString)
    requires AllWhiteSpace(text)
    ensures forall k :: 0 <= k < |Split(text, LineFeed)| ==> IsBlank(Split(text, LineFeed)[k])
  {
    var lines := Split(text, LineFeed);
    forall k | 0 <= k < |lines| ensures IsBlank(lines[k]) {
      forall c | !IsWhiteSpace(c) ensures c !in lines[k] {
        assert c !in text;
        SplitPiecesFromText(text, LineFeed, c);
      }
      BlankIffAllWhiteSpace(lines[k]);
    }
  }

  lemma {:induction false} AllBlankFormatsEmpty(lines: seq<JsString>, d: Delimiter)
    requires forall k :: 0 <= k < |lines| ==> IsBlank(lines[k])
    ensures FormatLines(lines, d) == []
    decreases |lines|
  {
    if lines != [] {
      AllBlankFormatsEmpty(lines[..|lines| - 1], d);
    }
  }
}
