# Vietnamese text-to-speech page: a Dafny model of its client logic

The application is a single web page. The user types or uploads a text, picks a
voice and a speed, and has the text read aloud by a speech service. This
project models the logic around that request.

- **File ingestion** (`app/utils/fileParser.ts`):
  - choosing a reader by the file's lower-cased extension;
  - flattening PDF pages and spreadsheet rows into text;
  - detecting the delimiter of a CSV file from its first five lines;
  - laying CSV rows out as readable text, with a marked header row and a dash rule under it.
- **The audio cache** (`app/page.tsx`):
  - kept in local storage, keyed by the first 100 code units of the text, the voice and the speed;
  - bounded at 50 entries, evicting an entry with the smallest timestamp;
  - entries expire after seven days and are deleted when a read finds them expired.
- **The history** (`app/page.tsx`): newest first, at most 20 entries, with delete-by-id and clear.
- **Upload orchestration** (`app/page.tsx`):
  - text files are taken as they are;
  - PDF and Word files are taken only when their text is not blank;
  - spreadsheets and CSV files open an import dialog;
  - any other extension is an error naming it.
- **The speech gate** (`app/page.tsx`): validation first, then the cache, and on a miss the request followed by a cache store and a history entry.
- **The import dialog** (`app/components/FilePreviewModal.tsx`):
  - sheet selection: toggle, select all, select none;
  - the rule that disables the import button;
  - the text an Excel or CSV import hands back;
  - the three-line CSV preview.

Strings are JavaScript strings: sequences of UTF-16 code units (`JsText.CodeUnit`). `length`, `substring`, `split` and `trim` all count code units.

The following become parameters:
- the clock: the `Date.now()` readings, see `Page.Moments`;
- the external readers (the PDF reader, the Word reader, the spreadsheet reader, `file.text()`): a `FileParser.UploadedFile` carries what each yields;
- the outcome of the speech request.

A persisted store that does not parse as JSON is `None`. Every operation catches that parse failure the way the page does.

Modules:
- `Wrappers` and `SeqFacts`: generic sequence facts.
- `JsText`: JavaScript string operations.
- `FileParser`, `AudioCache`, `History`, `PreviewModal` and `Page`: one module per concern of the source.

Where the intuitive reading and the code differ, the model follows the code:
- Three delimiter counts of zero select tab, not comma. The tie-break prefers tab, then semicolon, then comma.
- Only the line at index 0 can become the CSV header. If that line is blank, no header and no rule are emitted, and the first non-blank line is laid out as an ordinary row.
- A CSV import hands its text back even when the layout is empty. It does nothing only when the raw text is missing or empty.

## Model

| member | source | states |
|---|---|---|
| JsText.Trim | app/utils/fileParser.ts:127 | `trim` leaves nothing exactly when the string is all white space |
| JsText.TrimShape | app/utils/fileParser.ts:128 | what `trim` keeps is an infix of the string that neither starts nor ends with white space, and everything it cuts from either end is white space |
| JsText.BlankIffAllWhiteSpace | app/utils/fileParser.ts:127 | a string is falsy after `trim` exactly when every code unit is white space |
| JsText.BlankConcat | app/page.tsx:298-302 | a concatenation is blank exactly when both parts are blank |
| JsText.Prefix | app/page.tsx:90 | `substring(0, n)` keeps the first `min(length, n)` code units of the string |
| JsText.Split | app/utils/fileParser.ts:123 | `split` always yields at least one piece |
| JsText.SplitPieces | app/utils/fileParser.ts:123 | a split has one more piece than the text has separators, and no piece holds a separator |
| JsText.JoinSplit | app/utils/fileParser.ts:123 | joining the pieces of a split with the separator gives back the original text |
| JsText.SplitJoin | app/components/FilePreviewModal.tsx:202 | splitting a join gives back the parts, when no part holds the separator |
| JsText.SplitNoSeparator | app/utils/fileParser.ts:128 | a text without the separator splits into itself alone |
| JsText.SplitConcat | app/utils/fileParser.ts:123 | a separator-free piece followed by a separator splits off as the first piece |
| JsText.SplitPrefixStable | app/utils/fileParser.ts:99 | text after the k-th separator never changes the first k pieces of a split |
| JsText.SplitPiecesFromText | app/utils/fileParser.ts:123 | no piece of a split holds a code unit that the text does not hold |
| JsText.JoinAvoids | app/utils/fileParser.ts:128 | a join holds a code unit only when a part or the separator holds it |
| JsText.JoinAppend | app/utils/fileParser.ts:51 | joining one more part appends the separator and that part |
| JsText.SplitLast | app/utils/fileParser.ts:12 | the piece `pop()` returns is the text after the last separator: it holds no separator, it ends the text, and a separator precedes it unless it is the whole text |
| JsText.LowerAscii | app/utils/fileParser.ts:12 | lower-casing maps A-Z to a-z and keeps the length and every other code unit |
| JsText.Repeat | app/utils/fileParser.ts:132 | `repeat(n)` of one code unit is n copies of it |
| JsText.DecimalNat | app/page.tsx:157 | a number is rendered as decimal digits with no leading zero, and "0" exactly for zero |
| JsText.DecimalNatValue | app/page.tsx:157 | reading the rendered digits back gives the number |
| JsText.DecimalInt | app/page.tsx:157 | `toString()` of an integer is never empty |
| JsText.SpeedText | app/page.tsx:90 | the rendered speed is not empty and holds no dash, so it cannot merge with the key's separators |
| FileParser.LastSegment | app/utils/fileParser.ts:12 | the extension is the dot-free end of the name that follows its last dot, or the whole name when it has no dot |
| FileParser.Extension | app/utils/fileParser.ts:12 | the extension compared is no longer than the name and holds no dot |
| FileParser.KindOf | app/utils/fileParser.ts:12-27 | each of txt, pdf, docx, xlsx, xls and csv selects its own branch exactly when it is the lower-cased extension; any other extension is unsupported and carries that extension |
| FileParser.ParseFile | app/utils/fileParser.ts:11-28 | text files give their text; PDF files give the page layout and the page count; Word files give the extracted text; xlsx, xls and csv all give the workbook layout and the sheet names; reader failures propagate; any other extension is an error naming it |
| FileParser.ExtractPdfText | app/utils/fileParser.ts:45-53 | the page loop accumulates exactly the document text: each page's items joined by spaces, then a blank line |
| FileParser.PageTexts | app/utils/fileParser.ts:48-52 | there is one page text per page |
| FileParser.PdfTextSeparatesPages | app/utils/fileParser.ts:48-53 | the document text is the page texts separated by blank lines, with one more blank line at the end |
| FileParser.PdfTextBlank | app/page.tsx:291-307 | the document text is blank exactly when every page's text is blank |
| FileParser.Banner | app/utils/fileParser.ts:84 | a sheet banner is never blank |
| FileParser.WorkbookTextBlank | app/utils/fileParser.ts:79-89 | the workbook text is blank exactly when the workbook has no sheets |
| FileParser.AppendRows | app/utils/fileParser.ts:85-87 | the row loop appends every row, cells joined by ", ", one line per row, in order |
| FileParser.ExtractWorkbookText | app/utils/fileParser.ts:76-89 | the sheet loop produces, for each sheet in workbook order, its banner, its rows and an empty line |
| FileParser.Winner | app/utils/fileParser.ts:111-116 | the winner is tab exactly when tab's count is at least both others; semicolon exactly when it beats tab and is at least comma; comma exactly when it beats both |
| FileParser.HeadLines | app/utils/fileParser.ts:99 | the detector looks at between one and five lines |
| FileParser.DelimiterStats | app/utils/fileParser.ts:112-116 | the detected delimiter's count is the largest of the three counts |
| FileParser.DetectCsvDelimiter | app/utils/fileParser.ts:98-119 | the counting loop reports each delimiter's occurrences in the first five lines and the winner among them |
| FileParser.DetectionIgnoresTail | app/utils/fileParser.ts:99-109 | whatever follows the fifth line break cannot change the counts or the detected delimiter |
| FileParser.DetectionWithoutDelimiters | app/utils/fileParser.ts:101-116 | a text without commas, semicolons and tabs, the empty text among them, gives three zero counts and tab |
| FileParser.NoOccurrences | app/utils/fileParser.ts:105-109 | lines without a delimiter count zero occurrences of it |
| FileParser.CleanCell | app/utils/fileParser.ts:128 | a cleaned cell is at most two code units shorter than the trimmed cell, and is the trimmed cell itself when neither end is a quote |
| FileParser.CleanCellShape | app/utils/fileParser.ts:128 | a cleaned cell is exactly the trimmed cell with a leading quote removed if there is one and then a trailing quote removed if one is left |
| FileParser.ParseCsvWithDelimiter | app/utils/fileParser.ts:121-140 | the line loop produces exactly the CSV layout of the text with the chosen delimiter |
| FileParser.EmitLine | app/utils/fileParser.ts:126-136 | the per-line callback appends exactly what the line at its index contributes to the layout, and nothing for a blank line |
| FileParser.FormatLinesStep | app/utils/fileParser.ts:126-137 | each further line adds only its own output at the end |
| FileParser.FormatLinesLast | app/utils/fileParser.ts:133-135 | each line after line 0 adds its data row, or nothing when it is blank |
| FileParser.BodyLinesAppend | app/utils/fileParser.ts:133-135 | the data rows of a run of lines are those of its parts, in order |
| FileParser.FormatIsHeaderThenBody | app/utils/fileParser.ts:126-137 | the layout is the header block of line 0 followed by one row per non-blank later line, in order; the header block is empty when line 0 is blank |
| FileParser.MarkedHeaderShape | app/utils/fileParser.ts:131-132 | the header is the chart mark, the row and a line break, then `min(row length, 100)` dashes and a line break |
| FileParser.FormatLines | app/utils/fileParser.ts:126-137 | every line the layout emits is terminated: the layout is empty or ends with a line break |
| FileParser.FormatCsv | app/utils/fileParser.ts:121-140 | the CSV layout is empty or ends with a line break, and a text made only of white space, the empty text among them, lays out as the empty string |
| FileParser.LineOutputEndsWithLineFeed | app/utils/fileParser.ts:131-134 | what one line contributes is empty or ends with a line break |
| FileParser.RowHasNoLineFeed | app/utils/fileParser.ts:128 | a row built from one line holds no line break |
| FileParser.LineOutputCount | app/utils/fileParser.ts:127-135 | a blank line emits no line break, a non-blank line 0 emits two (row and rule), any other non-blank line emits one |
| FileParser.LinesCount | app/utils/fileParser.ts:126-137 | a run of lines emits one line per non-blank line, plus the rule line when line 0 is not blank |
| FileParser.FormattedLineCount | app/utils/fileParser.ts:123-139 | the output has one line per non-blank input line, plus the rule line when line 0 is not blank |
| FileParser.BlankTextBlankLines | app/utils/fileParser.ts:123-127 | every line of an all-white-space text is blank |
| FileParser.AllBlankFormatsEmpty | app/utils/fileParser.ts:126-137 | blank lines contribute nothing |
| AudioCache.EmptyCache | app/page.tsx:95 | the missing store reads as an empty, well-formed cache |
| AudioCache.CacheKey | app/page.tsx:89-91 | the key starts with the first 100 code units of the text and a dash, and its length is that prefix, the voice, the speed text and two dashes |
| AudioCache.CacheKeySharing | app/page.tsx:89-91 | for one voice and speed, two texts share a key exactly when their first 100 code units agree |
| AudioCache.CancelSuffix | app/page.tsx:90 | two keys with the same voice and speed part are equal only if their text parts are equal |
| AudioCache.OldestIndex | app/page.tsx:100 | the chosen position holds a timestamp no larger than any other, and every earlier position's timestamp is larger: the head after a stable sort by timestamp |
| AudioCache.Victim | app/page.tsx:98-101 | the evicted key is present and its timestamp is at most every other entry's |
| AudioCache.Deleted | app/page.tsx:101 | deleting a key removes it from the key list and the entries and keeps every other key and entry as it was |
| AudioCache.Put | app/page.tsx:104 | assigning a key stores the new entry under it, adds no other key, keeps every other entry, and keeps the old key order as a prefix |
| AudioCache.Saved | app/page.tsx:98-105 | after a save the key holds the new entry, and every other entry left is one the cache already held, unchanged |
| SeqFacts.WithoutDistinct | app/page.tsx:101 | deleting a present key shortens a repeat-free key list by one and keeps it free of repeats; deleting an absent key keeps its length |
| AudioCache.DeletedWellFormed | app/page.tsx:101 | deletion keeps the cache well formed and drops exactly one key when the key was present |
| AudioCache.PutWellFormed | app/page.tsx:104 | assignment keeps the cache well formed and adds a key only when it was new |
| AudioCache.SavedInvariant | app/page.tsx:98-105 | a save keeps the cache well formed; a cache of at most 50 entries stays at most 50; the new size is the old size, minus one when full, plus one unless the key survived |
| AudioCache.SavedContents | app/page.tsx:98-105 | after a save the key holds the new entry; a full cache loses exactly one entry with the smallest timestamp, even when the key was present; every other entry is unchanged |
| AudioCache.AfterLookup | app/page.tsx:124-127 | a read leaves the cache well formed |
| AudioCache.StoreAfterLookup | app/page.tsx:112-133 | a read leaves a parsed store well formed |
| AudioCache.StoreAfterSave | app/page.tsx:93-110 | a save leaves a parsed store well formed |
| AudioCache.Lookup | app/page.tsx:116-123 | a read answers only with the URL stored under the key, and does answer for a present entry younger than seven days |
| AudioCache.SaveKeepsOtherAnswers | app/page.tsx:93-123 | saving under another key leaves a read's answer as it was, except that when the cache was full and the read key was the one evicted, the read now finds nothing |
| AudioCache.AfterLookupEffect | app/page.tsx:118-128 | a read removes the entry only when it has expired, and changes no timestamp and no other entry |
| AudioCache.SaveThenLookup | app/page.tsx:93-123 | an entry saved less than seven days before a read is found, with the stored URL |
| AudioCache.SharedKeyAnswers | app/page.tsx:89-123 | a text that agrees with a stored one on its first 100 code units is answered with the stored text's audio |
| AudioCache.ExpiredEntryDropped | app/page.tsx:124-127 | an entry seven days old or older is not found, and the read deletes it |
| AudioCache.DistinctCard | app/page.tsx:144 | keys without repeats are as many as the distinct keys |
| AudioCache.CacheStore.StoredCount | app/page.tsx:141-148 | the reported size is the number of entries, or zero for a store that does not parse |
| AudioCache.CacheStore.constructor | app/page.tsx:622-625 | the page starts with the persisted store and its entry count |
| AudioCache.CacheStore.SaveToCache | app/page.tsx:93-110 | the store becomes the saved cache and the count is refreshed; a store that does not parse is left alone |
| AudioCache.CacheStore.GetFromCache | app/page.tsx:112-133 | the answer is the read's answer, the store is the cache after the read, and the count is untouched |
| AudioCache.CacheStore.ClearCache | app/page.tsx:135-139 | the store reads as empty again and the count is zero |
| AudioCache.CacheStore.UpdateCacheSize | app/page.tsx:141-148 | the count becomes the number of stored entries and the store is unchanged |
| History.Title | app/page.tsx:154 | a title starts with the first 50 code units of the text, is at most 53 code units long, and ends in "..." when the text was longer than 50 |
| History.TitleShape | app/page.tsx:154 | a text of at most 50 code units is its own title; a longer one is its first 50 code units followed by "..." |
| History.NewItem | app/page.tsx:155-163 | the entry carries the text, voice, speed and timestamp it was saved with and a title beginning with the text; its id, for a non-negative first clock reading, is decimal digits that read back as that reading, and starts with a minus sign otherwise |
| History.Prepended | app/page.tsx:165 | the new list has between one and 20 entries, the new entry first, and holds nothing but the new entry and old entries |
| History.PrependedShape | app/page.tsx:165 | after a save the list has `min(old length + 1, 20)` entries, the new entry first and then a prefix of the old list |
| History.SavedAllShape | app/page.tsx:151-171 | any number of saves keeps the list at no more than 20 entries, with the saved entries newest first |
| History.WithoutId | app/page.tsx:190 | deleting by id keeps exactly the entries with another id and never lengthens the list |
| History.WithoutIdConcat | app/page.tsx:190 | deleting by id keeps the remaining entries in their order |
| History.WithoutIdCounts | app/page.tsx:190 | deleting by id removes every entry with that id and keeps every other entry as often as it occurred |
| History.WithoutAbsentId | app/page.tsx:190 | deleting an id no entry carries changes nothing |
| History.SessionHistory.constructor | app/page.tsx:51 | the history starts empty on screen, with the persisted list behind it |
| History.SessionHistory.LoadHistory | app/page.tsx:173-180 | the displayed list becomes the persisted one, or empty when it does not parse |
| History.SessionHistory.SaveToHistory | app/page.tsx:151-171 | the new entry goes in front of the persisted list, cut at 20, and is displayed; nothing happens when the persisted list does not parse |
| History.SessionHistory.DeleteHistoryItem | app/page.tsx:189-193 | the displayed list without that id becomes both the display and the persisted list |
| History.SessionHistory.ClearHistory | app/page.tsx:195-199 | both lists become empty |
| PreviewModal.SheetNames | app/components/FilePreviewModal.tsx:135 | the sheet names in workbook order, and none for a CSV file |
| SeqFacts.Without | app/components/FilePreviewModal.tsx:102 | `filter` (and `delete` on object keys) keeps exactly the elements other than the removed one |
| PreviewModal.Toggled | app/components/FilePreviewModal.tsx:100-106 | a click flips the clicked sheet's membership and no other sheet's |
| PreviewModal.ToggledDistinct | app/components/FilePreviewModal.tsx:100-106 | a repeat-free selection stays repeat-free after a click |
| SeqFacts.WithoutAbsent | app/components/FilePreviewModal.tsx:102 | filtering out an absent name changes nothing |
| SeqFacts.WithoutAppend | app/components/FilePreviewModal.tsx:102-104 | filtering a selection with a name added at the end filters the rest and then that name |
| PreviewModal.ToggleTwice | app/components/FilePreviewModal.tsx:100-106 | clicking an unselected sheet twice restores the selection exactly |
| PreviewModal.SheetBlock | app/components/FilePreviewModal.tsx:44 | a sheet's block is never blank |
| PreviewModal.ExcelImportText | app/components/FilePreviewModal.tsx:39-47 | when every selected sheet's text is blank, the collected text is empty |
| PreviewModal.ImportBlock | app/components/FilePreviewModal.tsx:42-45 | a selected sheet contributes something visible exactly when its text is not blank, and nothing at all when it is blank |
| PreviewModal.ExcelImportBlank | app/components/FilePreviewModal.tsx:39-47 | the collected text is blank, so nothing is imported, exactly when every selected sheet's text is blank |
| PreviewModal.ExcelImportConcat | app/components/FilePreviewModal.tsx:40-46 | the text of a selection is the texts of its parts, in selection order |
| PreviewModal.ExcelImportStep | app/components/FilePreviewModal.tsx:40-46 | each further selected sheet adds only its own block at the end |
| PreviewModal.CsvPreviewText | app/components/FilePreviewModal.tsx:201-204 | the preview, built by joining the first three lines again, is exactly the layout of those three lines |
| PreviewModal.FormatLinesPrefix | app/utils/fileParser.ts:126-137 | laying out fewer leading lines gives a prefix of the full layout |
| PreviewModal.CsvPreviewIsPrefix | app/components/FilePreviewModal.tsx:201-204 | what the preview shows is the beginning of what the import produces |
| PreviewModal.InitialSelection | app/components/FilePreviewModal.tsx:33 | a spreadsheet starts with one listed sheet selected, a CSV file with none |
| PreviewModal.InitialDelimiter | app/components/FilePreviewModal.tsx:34 | a CSV dialog whose counts were detected from its text starts on a delimiter with the largest count; a spreadsheet's starts on comma |
| PreviewModal.PreviewDialog.constructor | app/components/FilePreviewModal.tsx:33-34 | the first sheet starts selected, the delimiter starts as the detected one (comma for a spreadsheet), and import starts enabled |
| PreviewModal.PreviewDialog.ToggleSheet | app/components/FilePreviewModal.tsx:100-106 | the selection becomes the toggled selection, still only of workbook sheets |
| PreviewModal.PreviewDialog.SelectAll | app/components/FilePreviewModal.tsx:135 | the selection becomes every listed sheet in workbook order, and the delimiter is kept |
| PreviewModal.PreviewDialog.SelectNone | app/components/FilePreviewModal.tsx:144 | the selection becomes empty, which disables import exactly for a spreadsheet |
| PreviewModal.PreviewDialog.SetDelimiter | app/components/FilePreviewModal.tsx:175 | the chosen delimiter changes and the selection does not |
| PreviewModal.PreviewDialog.ImportDisabled | app/components/FilePreviewModal.tsx:228 | import is disabled only for a spreadsheet with no sheet selected, never for a CSV file |
| PreviewModal.PreviewDialog.HandleImportExcel | app/components/FilePreviewModal.tsx:36-48 | the import is the blocks of the selected sheets with visible text, in selection order, and nothing is imported when the result is blank or the workbook is missing; every selected sheet is found in the workbook because the dialog lists only its sheets |
| PreviewModal.PreviewDialog.HandleImportCsv | app/components/FilePreviewModal.tsx:50-54 | the import is the layout of the whole raw text with the chosen delimiter, even when empty, and nothing when the raw text is missing or empty |
| Page.SheetPreview | app/page.tsx:219-222 | a sheet's preview is never empty |
| Page.Summaries | app/page.tsx:213-223 | one summary per sheet, in workbook order, named after it |
| Page.SummarizeSheets | app/page.tsx:211-223 | the push loop builds exactly the sheet summaries |
| Page.Gate | app/page.tsx:440-458 | a cache hit plays exactly the cached URL, which is non-empty, and only for a valid text; a refusal only for blank or over-long text; a request only for a valid text |
| Page.GateRequests | app/page.tsx:440-458 | blank text and text over 5000 code units are refused with their own errors before the cache is consulted; the speech service is asked exactly when the text passes and the cache has no non-empty URL |
| Page.UploadOf | app/page.tsx:272-357 | only txt, pdf and docx files replace the text, pdf and docx only with non-blank text; exactly readable spreadsheets and CSV files open the dialog, named after the file and listing only workbook sheets; other extensions fail naming the extension |
| Page.WithInput | app/page.tsx:536-540 | setting text, voice and speed drops the audio, stops playback and clears the cache-hit mark exactly when one of them changed |
| Page.WithInputIdempotent | app/page.tsx:536-540 | setting the same input twice is setting it once; setting the current input changes nothing |
| Page.TtsPage.constructor | app/page.tsx:622-625 | the page starts with an empty text, voice vi-VN-Neural2-A at speed 1.0, no audio, nothing playing, loading or uploading, no error, no dialog and the history panel closed; the cache count is taken and the persisted history shown |
| Page.TtsPage.HandleFileUpload | app/page.tsx:264-363 | the page after an upload is given by `UploadOf` of the file's kind: a loaded text replaces the text (dropping the audio when it differs), a failure shows its error, a dialog opens with its preview; voice, speed, the history panel and, except when the dialog opens, the dialog state are untouched, and uploading always ends |
| Page.TtsPage.UploadAs | app/page.tsx:275-357 | the if-chain on the kind leaves the page exactly as `UploadOf` describes |
| Page.TtsPage.SetInput | app/page.tsx:536-540 | text, voice and speed take the new values and the audio is dropped exactly when one of them changed; nothing else changes |
| Page.TtsPage.LoadTxt | app/page.tsx:275-280 | the file's text replaces the text, with the audio reset when it differs; a read failure sets its error and changes nothing else |
| Page.TtsPage.LoadPdf | app/page.tsx:283-313 | the page text replaces the text unless it is blank, with the audio reset when it differs; a blank text or a reader failure sets its error and changes nothing else |
| Page.TtsPage.LoadDocx | app/page.tsx:316-341 | the extracted text replaces the text unless it is blank, with the audio reset when it differs; a blank text or a reader failure sets its error and changes nothing else |
| Page.TtsPage.HandleExcelPreview | app/page.tsx:205-240 | the dialog opens with the workbook's sheet summaries and the workbook, or the error is shown; the player side is untouched and uploading ends |
| Page.TtsPage.HandleCsvPreview | app/page.tsx:242-262 | the dialog opens with the detected delimiter counts and the raw text, or the error is shown; the player side is untouched and uploading ends |
| Page.TtsPage.ImportText | app/page.tsx:756-761 | the imported text replaces the text, the audio is reset when it differs, and the dialog closes |
| Page.TtsPage.ClosePreview | app/page.tsx:752-755 | the dialog closes and nothing else changes |
| Page.TtsPage.LoadFromHistory | app/page.tsx:182-187 | the entry's text, voice and speed become the current ones, the audio is reset when any of them differs, and the history panel closes |
| Page.TtsPage.GenerateSpeech | app/page.tsx:439-493 | the whole new page state per gate outcome: a refusal only sets the error; a cache hit only plays the cached URL and marks the hit; a successful request plays the new URL, clears the error and the hit mark, stores the result in the cache and adds it to the history under the requested text, voice and speed, refreshing the cache count and the shown history; a failed request only shows the error and clears the hit mark and loading |
| Page.TtsPage.ShowError | app/page.tsx:440-448 | a refusal sets the error and nothing else |
| Page.TtsPage.PlayCached | app/page.tsx:451-455 | a cache hit plays the cached URL and marks the hit, and nothing else changes |
| Page.TtsPage.RequestSpeech | app/page.tsx:460-492 | the whole new page state: on success the new URL is played, the error and hit mark cleared, the result stored in the cache (count refreshed) and added to the history (shown list refreshed); on failure only the error is shown and the hit mark and loading cleared, and neither store nor what is shown changes |

## Left out

- Progress percentages (`setUploadProgress`) are left out. They include the floating-point `Math.floor((i / maxPages) * 100)`.
- Success notices, the two-second `setTimeout` that clears the cache-hit banner, and `console` output are left out.
- Playback is left out: `isPlaying` is only set and cleared, never acted on. So are the voice-preview path, the waveform player, the speech service's own route handler and the page layout, which are audio, network or rendering code.
- Keyboard shortcuts, dark mode, speed stepping and time/date formatting are left out. They are rendering or floating-point code.
- Blob URLs are plain strings. `URL.createObjectURL` and `revokeObjectURL` are not modelled.
- `LowerAscii` lowers only A-Z.
  - That is exact for choosing a branch: no other code unit lower-cases to a letter of the six extensions.
  - The extension quoted in an error message for a non-ASCII name may differ from the one JavaScript would show.
- `SpeedText` covers speeds that are whole hundredths, which every speed the page offers is. Other floating-point speeds are not modelled.
- The wording of the Vietnamese error messages is not modelled. Each `AppError` variant stands for one of them.
- The Word reader's `messages` metadata and its warning are left out.
- The page's own `selectedSheets` and `selectedDelimiter` state is left out. It is written during uploads, but only the dialog's state is ever read.
- `if (!file) return` in `handleFileUpload` is not modelled, because an uploaded file is always present here.
- Local-storage quota errors on `setItem` are not modelled. Only the parse failure of a stored value is.
- `PreviewModal.PreviewDialog.constructor` requires at least one sheet for a spreadsheet. With zero sheets, `filePreview.sheets[0].name` throws on the first render, so there is no dialog state to model.
- `AudioCache.OldestIndex` picks the first entry with the smallest timestamp. That is the head of a stable sort, which `Array.prototype.sort` is required to be. The sorting itself is not modelled.
- An extractor failure inside `parseExcel` or `handleExcelPreview` is a single `Err` of the reader. Which individual sheet call failed is not distinguished.
- Page.TtsPage.GenerateSpeech and Page.TtsPage.HandleFileUpload are modelled as running to completion without interleaving. In the source, `generateSpeech` awaits the speech request between reading the cache and writing the cache and the history, and the upload handlers await their readers. Another handler that runs during such a wait, such as clearing the cache or the history, is not modelled, so the contracts state the final stores as if nothing ran in between.
- The effect that resets the audio when the text, voice or speed changes (`Page.WithInput`) is applied inside the handler that set them. React runs it after the next render; the model applies it at the end of that handler. Its first run on mount finds the audio already empty.
