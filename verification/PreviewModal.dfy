/**
 * The import dialog shown for spreadsheets and CSV files
 * (app/components/FilePreviewModal.tsx): which sheets are selected, which
 * delimiter is chosen, and what text an import hands back to the page.
 */
module PreviewModal {
  import opened Wrappers
  import opened SeqFacts
  import opened JsText
  import opened FileParser

  /** A sheet as the dialog lists it: its name, its row count and a short preview. */
  datatype SheetSummary = SheetSummary(name: JsString, rowCount: int, preview: JsString)

  /** What the page hands the dialog; `None` stands for a missing `rawData`. */
  datatype FilePreviewData =
    | ExcelPreview(fileName: JsString, sheets: seq<SheetSummary>, workbook: Option<Workbook>)
    | CsvPreview(fileName: JsString, counts: DelimiterCounts, raw: Option<JsString>)

  /** `filePreview.sheets?.map(s => s.name) || []`. */
  function SheetNames(p: FilePreviewData): (r: seq<JsString>)
    ensures p.ExcelPreview? ==> |r| == |p.sheets| && forall i :: 0 <= i < |r| ==> r[i] == p.sheets[i].name
    ensures p.CsvPreview? ==> r == []
  {
    if p.CsvPreview? then [] else seq(|p.sheets|, i requires 0 <= i < |p.sheets| => p.sheets[i].name)
  }

  // ------------------------------------------------------------- selection

  /** A click on a sheet: a selected sheet is dropped (every occurrence of it), any other is added at the end. */
  function Toggled(selected: seq<JsString>, name: JsString): (r: seq<JsString>)
    ensures name in r <==> name !in selected
    ensures forall x :: x != name ==> (x in r <==> x in selected)
  {
    if name in selected then Without(selected, name) else selected + [name]
  }

  /** A selection without repeats stays without repeats. */
  lemma ToggledDistinct(selected: seq<JsString>, name: JsString)
    requires Distinct(selected)
    ensures Distinct(Toggled(selected, name))
  {
    if Distinct(selected) {
      if name in selected {
        WithoutDistinct(selected, name);
      } else {
        DistinctSnoc(selected, name);
      }
    }
  }

  /** Clicking an unselected sheet twice gives back the selection as it was. */
  lemma ToggleTwice(selected: seq<JsString>, name: JsString)
    requires name !in selected
    ensures Toggled(Toggled(selected, name), name) == selected
  {
    WithoutAppend(selected, name, name);
    WithoutAbsent(selected, name);
    assert selected + [] == selected;
  }

  // ----------------------------------------------------------- Excel import

  /** "\n=== name ===\n\n" + text + "\n". */
  function SheetBlock(name: JsString, text: JsString): (r: JsString)
    ensures !IsBlank(r)
  {
    var head := [LineFeed] + Ascii("=== ");
    var r := head + name + Ascii(" ===\n\n") + text + [LineFeed];
    assert r[1] == head[1] && !IsWhiteSpace(head[1]);
    BlankIffAllWhiteSpace(r);
    r
  }

  /** What `handleImportExcel` collects: a block per selected sheet with visible text, in selection order. */
  function ExcelImportText(wb: Workbook, names: seq<JsString>): (r: JsString)
    requires forall n :: n in names ==> n in wb.sheets
    ensures (forall n :: n in names ==> IsBlank(wb.sheets[n].txt)) ==> r == []
    decreases |names|
  {
    if names == [] then []
    else
      var last := names[|names| - 1];
      ExcelImportText(wb, names[..|names| - 1]) + ImportBlock(wb, last)
  }

  /** One selected sheet's contribution: its block, or nothing when its text is blank. */
  function ImportBlock(wb: Workbook, name: JsString): (r: JsString)
    requires name in wb.sheets
    ensures IsBlank(r) <==> IsBlank(wb.sheets[name].txt)
    ensures IsBlank(wb.sheets[name].txt) ==> r == []
  {
    var txt := wb.sheets[name].txt;
    BlankIffAllWhiteSpace([]);
    if IsBlank(txt) then [] else SheetBlock(name, txt)
  }

  /** The collected text is blank exactly when every selected sheet's text is blank. */
  lemma {:induction false} ExcelImportBlank(wb: Workbook, names: seq<JsString>)
    requires forall n :: n in names ==> n in wb.sheets
    ensures IsBlank(ExcelImportText(wb, names)) <==> forall n :: n in names ==> IsBlank(wb.sheets[n].txt)
    decreases |names|
  {
    if names != [] {
      var front, last := names[..|names| - 1], names[|names| - 1];
      assert names == front + [last];
      assert forall n :: n in names <==> n in front || n == last;
      ExcelImportBlank(wb, front);
      BlankConcat(ExcelImportText(wb, front), ImportBlock(wb, last));
    }
  }

  /** Selecting more sheets appends their blocks: the text of a selection is the texts of its parts, in order. */
  lemma {:induction false} ExcelImportConcat(wb: Workbook, a: seq<JsString>, b: seq<JsString>)
    requires forall n :: n in a + b ==> n in wb.sheets
    ensures ExcelImportText(wb, a + b) == ExcelImportText(wb, a) + ExcelImportText(wb, b)
    decreases |b|
  {
    if b == [] {
      ConcatEmpty(a);
      ConcatEmpty(ExcelImportText(wb, a));
    } else {
      var m := |b|;
      ConcatDropLast(a, b);
      ExcelImportConcat(wb, a, b[..m - 1]);
      ConcatAssoc(ExcelImportText(wb, a), ExcelImportText(wb, b[..m - 1]), ImportBlock(wb, b[m - 1]));
    }
  }

  lemma ExcelImportStep(wb: Workbook, names: seq<JsString>, i: nat)
    requires i < |names| && forall n :: n in names ==> n in wb.sheets
    ensures ExcelImportText(wb, names[..i + 1]) == ExcelImportText(wb, names[..i]) + ImportBlock(wb, names[i])
  {
    TakeOneMore(names, i);
  }

  // ------------------------------------------------------------- CSV import

  /**
   * The dialog's CSV preview: the first three lines of the raw text joined
   * again and laid out, which is exactly the layout the full import gives
   * those three lines.
   */
  function CsvPreviewText(raw: JsString, d: Delimiter): (r: JsString)
    ensures r == FormatLines(Split(raw, LineFeed)[..Min(|Split(raw, LineFeed)|, 3)], d)
  {
    var lines := Split(raw, LineFeed);
    var head := lines[..Min(|lines|, 3)];
    SplitPieces(raw, LineFeed);
    assert forall k :: 0 <= k < |head| ==> head[k] == lines[k];
    SplitJoin(head, LineFeed);
    FormatCsv(Join(head, [LineFeed]), d)
  }

  /** Laying out fewer lines gives a prefix of the full layout. */
  lemma {:induction false} FormatLinesPrefix(lines: seq<JsString>, k: nat, d: Delimiter)
    requires k <= |lines|
    ensures FormatLines(lines[..k], d) <= FormatLines(lines, d)
    decreases |lines| - k
  {
    if k == |lines| {
      TakeAll(lines);
    } else {
      FormatLinesPrefix(lines, k + 1, d);
      FormatLinesStep(lines, k, d);
    }
  }

  /** What the CSV preview shows is the beginning of what the import produces. */
  lemma CsvPreviewIsPrefix(raw: JsString, d: Delimiter)
    ensures CsvPreviewText(raw, d) <= FormatCsv(raw, d)
  {
    var lines := Split(raw, LineFeed);
    FormatLinesPrefix(lines, Min(|lines|, 3), d);
  }

  // ---------------------------------------------------------------- dialog

  /** The first listed sheet of a spreadsheet; nothing for a CSV file. */
  function InitialSelection(p: FilePreviewData): (r: seq<JsString>)
    requires p.ExcelPreview? ==> |p.sheets| >= 1
    ensures |r| == (if p.ExcelPreview? then 1 else 0)
    ensures forall n :: n in r ==> n in SheetNames(p)
  {
    if p.ExcelPreview? then [p.sheets[0].name] else []
  }

  /** A CSV dialog opens on the most frequent delimiter of its text; a spreadsheet's on comma. */
  function InitialDelimiter(p: FilePreviewData): (r: Delimiter)
    ensures p.CsvPreview? && p.raw.Some? && p.counts == DelimiterStats(p.raw.value) ==>
      CountOf(p.counts, r) >= p.counts.comma && CountOf(p.counts, r) >= p.counts.semicolon
      && CountOf(p.counts, r) >= p.counts.tab
    ensures p.ExcelPreview? ==> r == Comma
  {
    if p.CsvPreview? then p.counts.detected else Comma
  }

  /** The sheets a spreadsheet preview lists are sheets of the workbook it carries. */
  predicate SheetsInWorkbook(p: FilePreviewData) {
    p.ExcelPreview? && p.workbook.Some? ==> forall n :: n in SheetNames(p) ==> n in p.workbook.value.sheets
  }

  /** The dialog's state: the data it shows, the selected sheets and the chosen delimiter. */
  class PreviewDialog {
    const preview: FilePreviewData
    var selectedSheets: seq<JsString>
    var selectedDelimiter: Delimiter

    /** Only listed sheets are ever selected, and every listed sheet is in the workbook. */
    ghost predicate Valid()
      reads this
    {
      && SheetsInWorkbook(preview)
      && forall n :: n in selectedSheets ==> n in SheetNames(preview)
    }

    /** The first sheet is selected at the start; the delimiter starts as the detected one, comma for a spreadsheet. */
    constructor (p: FilePreviewData)
      requires SheetsInWorkbook(p)
      requires p.ExcelPreview? ==> |p.sheets| >= 1
      ensures preview == p && Valid()
      ensures selectedSheets == InitialSelection(p)
      ensures selectedDelimiter == InitialDelimiter(p)
      ensures !ImportDisabled()
    {
      preview := p;
      selectedSheets := if p.ExcelPreview? then [p.sheets[0].name] else [];
      selectedDelimiter := if p.CsvPreview? then p.counts.detected else Comma;
      new;
      assert p.ExcelPreview? ==> SheetNames(p)[0] == p.sheets[0].name;
    }

    /** A click on the sheet `name` of the list. */
    method ToggleSheet(name: JsString)
      requires Valid() && name in SheetNames(preview)
      modifies this
      ensures Valid()
      ensures selectedSheets == Toggled(old(selectedSheets), name)
      ensures selectedDelimiter == old(selectedDelimiter)
    {
      if name in selectedSheets {
        selectedSheets := Without(selectedSheets, name);
      } else {
        selectedSheets := selectedSheets + [name];
      }
    }

    /** "Select all": every sheet, in workbook order. */
    method SelectAll()
      requires Valid()
      modifies this
      ensures Valid()
      ensures selectedSheets == SheetNames(preview)
      ensures selectedDelimiter == old(selectedDelimiter)
    {
      selectedSheets := SheetNames(preview);
    }

    /** "Select none". */
    method SelectNone()
      requires Valid()
      modifies this
      ensures Valid()
      ensures selectedSheets == [] && selectedDelimiter == old(selectedDelimiter)
      ensures ImportDisabled() <==> preview.ExcelPreview?
    {
      selectedSheets := [];
    }

    method SetDelimiter(d: Delimiter)
      modifies this
      ensures selectedDelimiter == d && selectedSheets == old(selectedSheets)
    {
      selectedDelimiter := d;
    }

    /** The import button is disabled exactly for a spreadsheet with no sheet selected. */
    predicate ImportDisabled()
      reads this
      ensures ImportDisabled() ==> preview.ExcelPreview? && forall n :: n !in selectedSheets
      ensures preview.CsvPreview? ==> !ImportDisabled()
    {
      preview.ExcelPreview? && |selectedSheets| == 0
    }

    /**
     * `handleImportExcel`: the blocks of the selected sheets with visible
     * text; `None` when there is no workbook or nothing visible to import,
     * in which case `onImport` is not called.
     */
    method HandleImportExcel() returns (imported: Option<JsString>)
      requires Valid() && preview.ExcelPreview?
      ensures preview.workbook.None? ==> imported == None
      ensures preview.workbook.Some? ==>
        var text := ExcelImportText(preview.workbook.value, selectedSheets);
        imported == if IsBlank(text) then None else Some(text)
    {
      if preview.workbook.None? {
        return None;
      }
      var workbook := preview.workbook.value;
      var allText: JsString := [];
      var i := 0;
      while i < |selectedSheets|
        invariant 0 <= i <= |selectedSheets|
        invariant allText == ExcelImportText(workbook, selectedSheets[..i])
      {
        var sheetName := selectedSheets[i];
        var sheetText := workbook.sheets[sheetName].txt;
        ExcelImportStep(workbook, selectedSheets, i);
        if Trim(sheetText) != [] {
          allText := allText + SheetBlock(sheetName, sheetText);
        }
        i := i + 1;
      }
      TakeAll(selectedSheets);
      imported := if Trim(allText) != [] then Some(allText) else None;
    }

    /**
     * `handleImportCSV`: the layout of the whole text with the chosen
     * delimiter, handed over even when it is empty; nothing when the raw
     * text is missing or empty.
     */
    method HandleImportCsv() returns (imported: Option<JsString>)
      requires preview.CsvPreview?
      ensures imported == if preview.raw.None? || preview.raw.value == [] then None
                          else Some(FormatCsv(preview.raw.value, selectedDelimiter))
    {
      if preview.raw.None? || preview.raw.value == [] {
        return None;
      }
      var formattedText := ParseCsvWithDelimiter(preview.raw.value, selectedDelimiter);
      imported := Some(formattedText);
    }
  }
}
