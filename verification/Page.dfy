/**
 * The page component (app/page.tsx): the text to be read, the file upload
 * that fills it, the import dialog it opens, and the gate in front of the
 * speech service with its cache and history.
 *
 * The clock, the readers of uploaded files and the speech request are
 * parameters: the moments `Date.now()` is read, what each reader yields,
 * and the outcome of the request.
 */
module Page {
  import opened Wrappers
  import opened SeqFacts
  import opened JsText
  import opened FileParser
  import opened AudioCache
  import opened History
  import opened PreviewModal

  const MaxTextLength: nat := 5000

  /** The reason a reader failure shows: the exception's message, or a fixed wording when the message is empty. */
  datatype FailureReason = Message(text: JsString) | CannotRead

  function Reason(message: JsString): FailureReason {
    if message == [] then CannotRead else Message(message)
  }

  /** The error banner of the page; each variant stands for one of its fixed Vietnamese wordings. */
  datatype AppError =
    | UnsupportedType(ext: JsString)       // "Không hỗ trợ định dạng .<ext>. ..."
    | FileReadFailed(message: JsString)    // "Lỗi khi đọc file: <message>"
    | PdfWithoutText                       // no text found in the PDF
    | PdfReadFailed(reason: FailureReason)
    | DocxWithoutText                      // no text found in the DOCX
    | DocxReadFailed(reason: FailureReason)
    | ExcelPreviewFailed(message: JsString)
    | CsvPreviewFailed(message: JsString)
    | EmptyText                            // "Vui lòng nhập văn bản cần đọc"
    | TextTooLong                          // "Văn bản không được vượt quá 5000 ký tự"
    | SynthesisFailed(message: JsString)

  /** `previewRows.map(row => row.join(' | ')).join('\n') || 'Empty sheet'` over the first three rows. */
  function SheetPreview(rows: seq<seq<JsString>>): (r: JsString)
    ensures |r| >= 1
  {
    var shown := rows[..Min(|rows|, 3)];
    var preview := Join(seq(|shown|, i requires 0 <= i < |shown| => Join(shown[i], PipeSeparator())), [LineFeed]);
    if preview == [] then Ascii("Empty sheet") else preview
  }

  /** The dialog's list of sheets: one entry per sheet of the workbook, in workbook order. */
  function Summaries(wb: Workbook): (r: seq<SheetSummary>)
    ensures |r| == |wb.names|
    ensures forall i :: 0 <= i < |r| ==> r[i].name == wb.names[i]
  {
    seq(|wb.names|, i requires 0 <= i < |wb.names| =>
      SheetSummary(wb.names[i], wb.sheets[wb.names[i]].rowCount, SheetPreview(wb.sheets[wb.names[i]].rows)))
  }

  /** Builds the sheet list by pushing one summary per sheet, as `handleExcelPreview` does. */
  method SummarizeSheets(wb: Workbook) returns (sheets: seq<SheetSummary>)
    ensures sheets == Summaries(wb)
  {
    sheets := [];
    var i := 0;
    while i < |wb.names|
      invariant 0 <= i <= |wb.names|
      invariant sheets == Summaries(wb)[..i]
    {
      var sheetName := wb.names[i];
      var worksheet := wb.sheets[sheetName];
      sheets := sheets + [SheetSummary(sheetName, worksheet.rowCount, SheetPreview(worksheet.rows))];
      i := i + 1;
    }
  }

  /** The readings of `Date.now()` in one speech request: the cache read, the cache write, and the history entry's id and timestamp. */
  datatype Moments = Moments(lookup: int, store: int, historyId: int, historyStamp: int)

  /** What `generateSpeech` does with the current text and the cache's answer. */
  datatype SpeechStep = Rejected(error: AppError) | CacheHit(url: JsString) | Request

  /**
   * The gate: blank text and text over 5000 code units are refused before
   * the cache is consulted; a cached, non-empty URL is played as it is;
   * anything else goes to the speech service.
   */
  function Gate(text: JsString, cached: Option<JsString>): (r: SpeechStep)
    ensures r.CacheHit? ==> cached == Some(r.url) && r.url != [] && !IsBlank(text) && |text| <= MaxTextLength
    ensures r.Rejected? ==> IsBlank(text) || |text| > MaxTextLength
    ensures r == Request ==> !IsBlank(text) && |text| <= MaxTextLength
  {
    if IsBlank(text) then Rejected(EmptyText)
    else if |text| > MaxTextLength then Rejected(TextTooLong)
    else if cached.Some? && cached.value != [] then CacheHit(cached.value)
    else Request
  }

  /** The speech service is asked exactly for a non-blank text of at most 5000 code units that the cache cannot answer. */
  lemma GateRequests(text: JsString, cached: Option<JsString>)
    ensures Gate(text, cached) == Request <==>
      !IsBlank(text) && |text| <= MaxTextLength && (cached.None? || cached.value == [])
    ensures Gate(text, cached).Rejected? <==> IsBlank(text) || |text| > MaxTextLength
    ensures Gate(text, cached).Rejected? ==> Gate(text, cached).error == (if IsBlank(text) then EmptyText else TextTooLong)
  {
  }

  /** The kinds of upload that open the import dialog instead of setting the text. */
  predicate OpensDialog(k: FileKind) {
    k.XlsxFile? || k.XlsFile? || k.CsvFile?
  }

  /** What an upload does to the page: it replaces the text, shows an error, or opens the import dialog. */
  datatype UploadOutcome = TextLoaded(text: JsString) | UploadFailed(error: AppError) | DialogOpened(preview: FilePreviewData)

  /**
   * The outcome of `handleFileUpload` for a file, branch by branch. Only
   * text, PDF and Word files can replace the text, and PDF and Word files
   * only with non-blank text; only spreadsheets and CSV files open the
   * dialog, only when they could be read, and a spreadsheet's dialog lists
   * only sheets of its workbook.
   */
  function UploadOf(k: FileKind, file: UploadedFile): (r: UploadOutcome)
    ensures
      && (r.TextLoaded? ==> k == TxtFile || k == PdfFile || k == DocxFile)
      && (r.TextLoaded? && k != TxtFile ==> !IsBlank(r.text))
      && (r.DialogOpened? <==> OpensDialog(k) && if k == CsvFile then file.text.Ok? else file.workbook.Ok?)
      && (r.DialogOpened? ==> r.preview.fileName == file.name && (r.preview.CsvPreview? <==> k == CsvFile))
      && (r.DialogOpened? ==> SheetsInWorkbook(r.preview))
      && (k.Unsupported? ==> r == UploadFailed(UnsupportedType(k.ext)))
  {
    match k
    case TxtFile =>
      if file.text.Ok? then TextLoaded(file.text.value) else UploadFailed(FileReadFailed(file.text.error))
    case PdfFile =>
      if file.pdfPages.Err? then UploadFailed(PdfReadFailed(Reason(file.pdfPages.error)))
      else if IsBlank(PdfText(file.pdfPages.value)) then UploadFailed(PdfWithoutText)
      else TextLoaded(PdfText(file.pdfPages.value))
    case DocxFile =>
      if file.docxText.Err? then UploadFailed(DocxReadFailed(Reason(file.docxText.error)))
      else if IsBlank(file.docxText.value) then UploadFailed(DocxWithoutText)
      else TextLoaded(file.docxText.value)
    case CsvFile =>
      if file.text.Ok? then DialogOpened(CsvPreview(file.name, DelimiterStats(file.text.value), Some(file.text.value)))
      else UploadFailed(CsvPreviewFailed(file.text.error))
    case Unsupported(ext) => UploadFailed(UnsupportedType(ext))
    case _ =>
      if file.workbook.Ok? then DialogOpened(ExcelPreview(file.name, Summaries(file.workbook.value), Some(file.workbook.value)))
      else UploadFailed(ExcelPreviewFailed(file.workbook.error))
  }

  /** The player side of the page: what is to be read, with which voice and speed, and the audio produced for it. */
  datatype Player = Player(
    text: JsString, voice: JsString, rate: Speed,
    audioUrl: Option<JsString>, isPlaying: bool, cacheHit: bool, isLoading: bool)

  /**
   * The player after its text, voice and speed are set. The effect keyed on
   * those three drops the audio, stops playback and clears the cache-hit
   * mark whenever one of them actually changed; setting equal values
   * triggers nothing.
   */
  function WithInput(before: Player, t: JsString, v: JsString, r: Speed): (after: Player)
    ensures after.text == t && after.voice == v && after.rate == r && after.isLoading == before.isLoading
    ensures (t, v, r) == (before.text, before.voice, before.rate) ==> after == before
    ensures (t, v, r) != (before.text, before.voice, before.rate) ==>
      after.audioUrl == None && !after.isPlaying && !after.cacheHit
  {
    if (t, v, r) == (before.text, before.voice, before.rate) then before
    else before.(text := t, voice := v, rate := r, audioUrl := None, isPlaying := false, cacheHit := false)
  }

  /** Setting the same input twice is setting it once, and setting the current input changes nothing. */
  lemma WithInputIdempotent(before: Player, t: JsString, v: JsString, r: Speed)
    ensures WithInput(WithInput(before, t, v, r), t, v, r) == WithInput(before, t, v, r)
    ensures WithInput(before, before.text, before.voice, before.rate) == before
  {
  }

  /** Everything else the page shows: the error banner, the upload flag, the import dialog and the history panel. */
  datatype Surroundings = Surroundings(
    error: Option<AppError>, isUploading: bool,
    filePreview: Option<FilePreviewData>, showFilePreview: bool, showHistory: bool)

  class TtsPage {
    var text: JsString
    var selectedVoice: JsString
    var playbackRate: Speed
    var error: Option<AppError>
    var audioUrl: Option<JsString>
    var isPlaying: bool
    var isLoading: bool
    var cacheHit: bool
    var isUploading: bool
    var filePreview: Option<FilePreviewData>
    var showFilePreview: bool
    var showHistory: bool
    const cache: CacheStore
    const history: SessionHistory

    ghost predicate Valid()
      reads this, cache
    {
      cache.Valid()
    }

    ghost function PlayerState(): Player
      reads this
    {
      Player(text, selectedVoice, playbackRate, audioUrl, isPlaying, cacheHit, isLoading)
    }

    ghost function Around(): Surroundings
      reads this
    {
      Surroundings(error, isUploading, filePreview, showFilePreview, showHistory)
    }

    /**
     * The page as first rendered, after its mount effect has counted the
     * cache and loaded the history from the persisted stores.
     */
    constructor (storedCache: Option<CacheData>, storedHistory: Option<seq<HistoryItem>>)
      requires storedCache.Some? ==> WellFormed(storedCache.value)
      ensures Valid() && fresh(cache) && fresh(history)
      ensures PlayerState() == Player([], Ascii("vi-VN-Neural2-A"), Speed(100), None, false, false, false)
      ensures Around() == Surroundings(None, false, None, false, false)
      ensures cache.stored == storedCache && cache.size == cache.StoredCount()
      ensures history.stored == storedHistory
      ensures history.shown == if storedHistory.Some? then storedHistory.value else []
    {
      text := [];
      selectedVoice := Ascii("vi-VN-Neural2-A");
      playbackRate := Speed(100);
      error := None;
      audioUrl := None;
      isPlaying := false;
      isLoading := false;
      cacheHit := false;
      isUploading := false;
      filePreview := None;
      showFilePreview := false;
      showHistory := false;
      cache := new CacheStore(storedCache);
      history := new SessionHistory(storedHistory);
      new;
      history.LoadHistory();
    }

    /** `setText`, `setSelectedVoice` and `setPlaybackRate` together, followed by the reset effect keyed on them. */
    method SetInput(t: JsString, v: JsString, r: Speed)
      modifies this
      ensures PlayerState() == WithInput(old(PlayerState()), t, v, r)
      ensures Around() == old(Around())
    {
      if (t, v, r) != (text, selectedVoice, playbackRate) {
        audioUrl := None;
        isPlaying := false;
        cacheHit := false;
      }
      text := t;
      selectedVoice := v;
      playbackRate := r;
    }

    /**
     * `handleFileUpload`: a text file is taken as it is; PDF and Word files
     * are taken only when their text is not blank; spreadsheets and CSV
     * files open the import dialog instead; any other extension is an error
     * naming it. The text changes on no other path, voice and speed never,
     * and the audio is dropped exactly when the text changed.
     */
    method HandleFileUpload(file: UploadedFile)
      modifies this
      ensures match UploadOf(KindOf(file.name), file)
        case TextLoaded(t) =>
          && PlayerState() == WithInput(old(PlayerState()), t, old(selectedVoice), old(playbackRate))
          && Around() == old(Around()).(error := None, isUploading := false)
        case UploadFailed(e) =>
          && PlayerState() == old(PlayerState())
          && Around() == old(Around()).(error := Some(e), isUploading := false)
        case DialogOpened(preview) =>
          && PlayerState() == old(PlayerState())
          && Around() == old(Around()).(error := None, isUploading := false, filePreview := Some(preview), showFilePreview := true)
    {
      isUploading := true;
      error := None;
      var fileType := KindOf(file.name);
      UploadAs(fileType, file);
    }

    /** The if-chain of `handleFileUpload` on the file's kind, once uploading has started and the error is cleared. */
    method UploadAs(kind: FileKind, file: UploadedFile)
      modifies this
      ensures match UploadOf(kind, file)
        case TextLoaded(t) =>
          && PlayerState() == WithInput(old(PlayerState()), t, old(selectedVoice), old(playbackRate))
          && Around() == old(Around()).(isUploading := false)
        case UploadFailed(e) =>
          && PlayerState() == old(PlayerState())
          && Around() == old(Around()).(error := Some(e), isUploading := false)
        case DialogOpened(preview) =>
          && PlayerState() == old(PlayerState())
          && Around() == old(Around()).(isUploading := false, filePreview := Some(preview), showFilePreview := true)
    {
      match kind
      case TxtFile =>
        LoadTxt(file.text);
        isUploading := false;
      case PdfFile =>
        LoadPdf(file.pdfPages);
        isUploading := false;
      case DocxFile =>
        LoadDocx(file.docxText);
        isUploading := false;
      case XlsxFile =>
        HandleExcelPreview(file);
      case XlsFile =>
        HandleExcelPreview(file);
      case CsvFile =>
        HandleCsvPreview(file);
      case Unsupported(ext) =>
        error := Some(UnsupportedType(ext));
        isUploading := false;
    }

    /** The text-file branch of `handleFileUpload`: the file's text replaces the text. */
    method LoadTxt(read: Result<JsString, JsString>)
      modifies this
      ensures read.Ok? ==>
        && PlayerState() == WithInput(old(PlayerState()), read.value, old(selectedVoice), old(playbackRate))
        && Around() == old(Around())
      ensures read.Err? ==>
        && PlayerState() == old(PlayerState())
        && Around() == old(Around()).(error := Some(FileReadFailed(read.error)))
    {
      if read.Ok? {
        SetInput(read.value, selectedVoice, playbackRate);
      } else {
        error := Some(FileReadFailed(read.error));
      }
    }

    /** The PDF branch of `handleFileUpload`: the pages' text replaces the text unless it is blank. */
    method LoadPdf(pages: Result<seq<seq<JsString>>, JsString>)
      modifies this
      ensures pages.Err? ==>
        && PlayerState() == old(PlayerState())
        && Around() == old(Around()).(error := Some(PdfReadFailed(Reason(pages.error))))
      ensures pages.Ok? && IsBlank(PdfText(pages.value)) ==>
        && PlayerState() == old(PlayerState())
        && Around() == old(Around()).(error := Some(PdfWithoutText))
      ensures pages.Ok? && !IsBlank(PdfText(pages.value)) ==>
        && PlayerState() == WithInput(old(PlayerState()), PdfText(pages.value), old(selectedVoice), old(playbackRate))
        && Around() == old(Around())
    {
      if pages.Ok? {
        var fullText := ExtractPdfText(pages.value);
        if Trim(fullText) != [] {
          SetInput(fullText, selectedVoice, playbackRate);
        } else {
          error := Some(PdfWithoutText);
        }
      } else {
        error := Some(PdfReadFailed(Reason(pages.error)));
      }
    }

    /** The Word branch of `handleFileUpload`: the extracted text replaces the text unless it is blank. */
    method LoadDocx(extracted: Result<JsString, JsString>)
      modifies this
      ensures extracted.Err? ==>
        && PlayerState() == old(PlayerState())
        && Around() == old(Around()).(error := Some(DocxReadFailed(Reason(extracted.error))))
      ensures extracted.Ok? && IsBlank(extracted.value) ==>
        && PlayerState() == old(PlayerState())
        && Around() == old(Around()).(error := Some(DocxWithoutText))
      ensures extracted.Ok? && !IsBlank(extracted.value) ==>
        && PlayerState() == WithInput(old(PlayerState()), extracted.value, old(selectedVoice), old(playbackRate))
        && Around() == old(Around())
    {
      if extracted.Ok? {
        var value := extracted.value;
        if value != [] && Trim(value) != [] {
          SetInput(value, selectedVoice, playbackRate);
        } else {
          error := Some(DocxWithoutText);
        }
      } else {
        error := Some(DocxReadFailed(Reason(extracted.error)));
      }
    }

    /** `handleExcelPreview`: list the workbook's sheets in the import dialog. */
    method HandleExcelPreview(file: UploadedFile)
      modifies this
      ensures PlayerState() == old(PlayerState())
      ensures file.workbook.Ok? ==>
        Around() == old(Around()).(isUploading := false, showFilePreview := true,
          filePreview := Some(ExcelPreview(file.name, Summaries(file.workbook.value), Some(file.workbook.value))))
      ensures file.workbook.Err? ==>
        Around() == old(Around()).(isUploading := false, error := Some(ExcelPreviewFailed(file.workbook.error)))
    {
      if file.workbook.Ok? {
        var workbook := file.workbook.value;
        var sheets := SummarizeSheets(workbook);
        filePreview := Some(ExcelPreview(file.name, sheets, Some(workbook)));
        showFilePreview := true;
      } else {
        error := Some(ExcelPreviewFailed(file.workbook.error));
      }
      isUploading := false;
    }

    /** `handleCSVPreview`: detect the delimiter and show the text in the import dialog. */
    method HandleCsvPreview(file: UploadedFile)
      modifies this
      ensures PlayerState() == old(PlayerState())
      ensures file.text.Ok? ==>
        Around() == old(Around()).(isUploading := false, showFilePreview := true,
          filePreview := Some(CsvPreview(file.name, DelimiterStats(file.text.value), Some(file.text.value))))
      ensures file.text.Err? ==>
        Around() == old(Around()).(isUploading := false, error := Some(CsvPreviewFailed(file.text.error)))
    {
      if file.text.Ok? {
        var raw := file.text.value;
        var delimiters := DetectCsvDelimiter(raw);
        filePreview := Some(CsvPreview(file.name, delimiters, Some(raw)));
        showFilePreview := true;
      } else {
        error := Some(CsvPreviewFailed(file.text.error));
      }
      isUploading := false;
    }

    /** The dialog's `onImport`: the imported text replaces the text and the dialog closes. */
    method ImportText(importedText: JsString)
      modifies this
      ensures PlayerState() == WithInput(old(PlayerState()), importedText, old(selectedVoice), old(playbackRate))
      ensures Around() == old(Around()).(filePreview := None, showFilePreview := false)
    {
      SetInput(importedText, selectedVoice, playbackRate);
      showFilePreview := false;
      filePreview := None;
    }

    /** The dialog's `onClose`: the dialog closes and everything else stays as it was. */
    method ClosePreview()
      modifies this
      ensures PlayerState() == old(PlayerState())
      ensures Around() == old(Around()).(filePreview := None, showFilePreview := false)
    {
      showFilePreview := false;
      filePreview := None;
    }

    /** `loadFromHistory`: the entry's text, voice and speed become the current ones and the history panel closes. */
    method LoadFromHistory(item: HistoryItem)
      modifies this
      ensures PlayerState() == WithInput(old(PlayerState()), item.text, item.voice, item.speed)
      ensures Around() == old(Around()).(showHistory := false)
    {
      SetInput(item.text, item.voice, item.speed);
      showHistory := false;
    }

    /**
     * `generateSpeech`, with the request's outcome `response` (the new
     * audio URL, or the error message). Returns whether the speech service
     * was asked. Refused text touches neither cache nor history; a cache
     * hit asks nothing and records nothing; a successful request is stored
     * in the cache and then recorded in the history, both under the text,
     * voice and speed the request was made for.
     */
    method GenerateSpeech(at: Moments, response: Result<JsString, JsString>) returns (requested: bool)
      requires Valid()
      modifies this, cache, history
      ensures Valid()
      ensures var key := CacheKey(old(text), old(selectedVoice), old(playbackRate));
        match Gate(old(text), StoreLookup(old(cache.stored), key, at.lookup))
        case Rejected(e) =>
          && !requested
          && PlayerState() == old(PlayerState()) && Around() == old(Around()).(error := Some(e))
          && cache.stored == old(cache.stored) && cache.size == old(cache.size)
          && history.stored == old(history.stored) && history.shown == old(history.shown)
        case CacheHit(url) =>
          && !requested
          && PlayerState() == old(PlayerState()).(audioUrl := Some(url), isPlaying := true, cacheHit := true)
          && Around() == old(Around())
          && cache.stored == old(cache.stored) && cache.size == old(cache.size)
          && history.stored == old(history.stored) && history.shown == old(history.shown)
        case Request =>
          && requested
          && var afterRead := StoreAfterLookup(old(cache.stored), key, at.lookup);
          if response.Ok? then
            && PlayerState() == old(PlayerState()).(audioUrl := Some(response.value), isPlaying := true, cacheHit := false, isLoading := false)
            && Around() == old(Around()).(error := None)
            && cache.stored == StoreAfterSave(afterRead, key, CacheItem(old(text), old(selectedVoice), old(playbackRate), response.value, at.store))
            && cache.size == (if afterRead.None? then old(cache.size) else cache.StoredCount())
            && history.stored == HistoryAfterSave(old(history.stored), NewItem(old(text), old(selectedVoice), old(playbackRate), at.historyId, at.historyStamp))
            && history.shown == (if old(history.stored).Some? then history.stored.value else old(history.shown))
          else
            && PlayerState() == old(PlayerState()).(cacheHit := false, isLoading := false)
            && Around() == old(Around()).(error := Some(SynthesisFailed(response.error)))
            && cache.stored == afterRead && cache.size == old(cache.size)
            && history.stored == old(history.stored) && history.shown == old(history.shown)
    {
      requested := false;
      if Trim(text) == [] {
        ShowError(EmptyText);
        return;
      }
      if |text| > MaxTextLength {
        ShowError(TextTooLong);
        return;
      }
      var cachedAudio := cache.GetFromCache(text, selectedVoice, playbackRate, at.lookup);
      if cachedAudio.Some? && cachedAudio.value != [] {
        PlayCached(cachedAudio.value);
        return;
      }
      requested := true;
      RequestSpeech(at, response);
    }

    /** `setError(message)` on a refused request. */
    method ShowError(e: AppError)
      modifies this
      ensures PlayerState() == old(PlayerState()) && Around() == old(Around()).(error := Some(e))
    {
      error := Some(e);
    }

    /** A cache hit: the stored URL is played as it is and marked as coming from the cache. */
    method PlayCached(url: JsString)
      modifies this
      ensures PlayerState() == old(PlayerState()).(audioUrl := Some(url), isPlaying := true, cacheHit := true)
      ensures Around() == old(Around())
    {
      cacheHit := true;
      audioUrl := Some(url);
      isPlaying := true;
    }

    /** The miss path of `generateSpeech`: ask the speech service, then store the result in the cache and record it in the history. */
    method RequestSpeech(at: Moments, response: Result<JsString, JsString>)
      requires Valid()
      modifies this, cache, history
      ensures Valid()
      ensures var key := CacheKey(old(text), old(selectedVoice), old(playbackRate));
        if response.Ok? then
          && PlayerState() == old(PlayerState()).(audioUrl := Some(response.value), isPlaying := true, cacheHit := false, isLoading := false)
          && Around() == old(Around()).(error := None)
          && cache.stored == StoreAfterSave(old(cache.stored), key, CacheItem(old(text), old(selectedVoice), old(playbackRate), response.value, at.store))
          && cache.size == (if old(cache.stored).None? then old(cache.size) else cache.StoredCount())
          && history.stored == HistoryAfterSave(old(history.stored), NewItem(old(text), old(selectedVoice), old(playbackRate), at.historyId, at.historyStamp))
          && history.shown == (if old(history.stored).Some? then history.stored.value else old(history.shown))
        else
          && PlayerState() == old(PlayerState()).(cacheHit := false, isLoading := false)
          && Around() == old(Around()).(error := Some(SynthesisFailed(response.error)))
          && cache.stored == old(cache.stored) && cache.size == old(cache.size)
          && history.stored == old(history.stored) && history.shown == old(history.shown)
    {
      isLoading := true;
      error := None;
      cacheHit := false;
      match response
      case Ok(newAudioUrl) =>
        audioUrl := Some(newAudioUrl);
        var t, v, r := text, selectedVoice, playbackRate;
        cache.SaveToCache(t, v, r, newAudioUrl, at.store);
        history.SaveToHistory(t, v, r, at.historyId, at.historyStamp);
        isPlaying := true;
        isLoading := false;
      case Err(message) =>
        error := Some(SynthesisFailed(message));
        isLoading := false;
    }
  }
}
