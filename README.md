# Invoice Scanner, modelled in Dafny

Invoice Scanner turns invoice PDFs into rows of a spreadsheet. For each selected PDF it:

1. reads the embedded text layer;
2. falls back to OCR when the stripped text is shorter than 150 characters;
3. rejects a file that still has no text;
4. sends the text, behind a fixed instruction prompt, to the Gemini API;
5. flattens the JSON reply into one row per line item, with the invoice-level columns repeated on every row.

The batch runs over the selected files in order, stops at the first file that raises, and otherwise normalises the accumulated rows to a fixed list of 14 export columns, "NA" filling the gaps, before appending them to `Sheet1` of the workbook.

The model follows the program's structure, one module per concern:

| module | models |
|---|---|
| `Wrappers`, `Json`, `Errors` | `Option`/`Result`; decoded JSON values with Python truthiness and `dict.get`; the exceptions that end one file |
| `TextAcquisition` | `str.strip()`, the two page-by-page extractors (loops over the pages, as in the source), and the text choice with its 150-character threshold |
| `Gemini` | the prompt (template followed by the text), the empty-key check, and the classification of the HTTP outcome |
| `Columns` | the schema leaves the flattener reads (62 invoice-level fields and 12 item fields), their flat column names, and the decoding of a column name |
| `RowFlattener` | the base record, the line items defaulting to one empty item, and one row per item (a method with its loop) |
| `Extractor` | `process_invoice_file` for one file |
| `Export` | `save_to_excel`: adding the missing columns as "NA", reindexing and `fillna`, then the sheet write |
| `InvoiceApp` | `process_files`: the early exits, the loop that stops at the first exception, and the save |

The outside world is given as parameters:

- A `Scan` is what PyMuPDF or Tesseract reads: each page's text, or a failure.
- A `Reply` is what the Gemini endpoint answers.
- A `Workbook` is the destination file, when it exists.

Methods that loop in the source (`ExtractTextFromPdf`, `ExtractTextWithOcr`, `BuildRows`, `NormaliseForExport`, `CollectRows`) are proved against the functions that specify them. The properties are proved about those functions.

## Model

| member | source | states |
|---|---|---|
| Json.Get | extractor.py:153-158 | `d.get(k)` is None exactly when the key is missing or holds JSON null; otherwise it is the stored value |
| TextAcquisition.TrimStart | extractor.py:141 | stripping leading whitespace never lengthens the text |
| TextAcquisition.TrimEnd | extractor.py:141 | stripping trailing whitespace never lengthens the text |
| TextAcquisition.TrimStartSpec | extractor.py:141 | the result is a suffix of the input, everything dropped is whitespace, and the result does not start with whitespace |
| TextAcquisition.TrimEndSpec | extractor.py:141 | the result is a prefix of the input, everything dropped is whitespace, and the result does not end with whitespace |
| TextAcquisition.StripIsTrimmedSlice | extractor.py:141 | `strip()` yields a contiguous slice whose surroundings are all whitespace and whose ends are not whitespace |
| TextAcquisition.TrimStartOfSpaces | extractor.py:141 | a text made only of whitespace strips to nothing from the left |
| TextAcquisition.StripEmptyIff | extractor.py:141 | `strip()` gives "" exactly for texts made only of whitespace |
| TextAcquisition.ExtractTextFromPdf | extractor.py:28-39 | the page loop returns the pages' texts concatenated, or "" when opening or reading any page fails |
| TextAcquisition.ExtractTextWithOcr | extractor.py:41-56 | the page loop returns each OCR page text followed by a newline, or "" on any failure |
| TextAcquisition.PrefixFailureIsFinal | extractor.py:30-39 | once a page fails, the whole extraction fails, whatever pages follow |
| TextAcquisition.AllRead | extractor.py:33-34 | a document whose pages all read has exactly those texts as its pages, in order |
| TextAcquisition.WithSuffix | extractor.py:51 | each page text gets the suffix appended, the page count unchanged |
| TextAcquisition.ConcatSnoc | extractor.py:34 | concatenating one more page appends its text |
| TextAcquisition.PagesTextOfReadable | extractor.py:33-36 | pages that all read give the concatenation of their texts, each with the suffix |
| TextAcquisition.PagesTextOfFailure | extractor.py:37-39 | a single failing page makes the extraction fail |
| TextAcquisition.EmbeddedTextIsConcat | extractor.py:32-36 | the embedded text of a readable document is its pages' texts, concatenated |
| TextAcquisition.OcrTextIsConcat | extractor.py:45-53 | the OCR text of a readable document is each page's text followed by a newline |
| TextAcquisition.OcrTextEmptyIff | extractor.py:41-56 | OCR gives "" exactly when the document cannot be opened, has no pages, or a page fails |
| TextAcquisition.PagesTextSucceeds | extractor.py:33-36 | with no failing page the extraction succeeds |
| TextAcquisition.BlankPageText | extractor.py:51 | one blank OCR page reads as "\n", which strips to "" |
| TextAcquisition.ChooseText | extractor.py:140-143 | OCR runs exactly when the stripped embedded text has fewer than 150 characters, and then replaces it; a kept embedded text has at least 150 characters |
| TextAcquisition.IsSpace | extractor.py:141 | the code points Python's `str.isspace()` accepts |
| TextAcquisition.Strip | extractor.py:141 | `str.strip()`: trailing whitespace dropped from the text with its leading whitespace dropped |
| TextAcquisition.PagesText | extractor.py:30-56 | the shared page loop of both extractors: each page's text and then the suffix, in page order; None at the first failing page |
| TextAcquisition.EmbeddedText | extractor.py:28-39 | the text layer read page by page with no separator, or "" when the document or a page cannot be read |
| TextAcquisition.OcrText | extractor.py:41-56 | the OCR text, each page followed by a newline, or "" when the document or a page cannot be read |
| Gemini.PromptTextSplits | extractor.py:115 | the posted prompt is the template followed by the invoice text, verbatim |
| Gemini.PrefixCancels | extractor.py:115 | a common prefix can be cancelled from both sides of an equality |
| Gemini.PromptTextInjective | extractor.py:115 | different invoice texts give different prompts |
| Gemini.BuildPrompt | extractor.py:114-115 | an empty key raises "API Key is required"; any other key builds the prompt for exactly the text given |
| Gemini.ReplyAsWritten | extractor.py:122-131 | the handlers as written: a POST that raises ends in the unbound-`response` error, a non-2xx body that is not JSON in a JSONDecodeError, one that is not an object in an AttributeError; every other reply is classified as intended |
| Gemini.HandlerRaises | extractor.py:123-128 | the replies on which the request handler itself raises: no response at all, or an error body that is not a JSON object |
| Gemini.AsWrittenDiffersIff | extractor.py:122-131 | the handlers as written and as intended part exactly on the replies where the handler raises; there the program gives no ConnectionError, where the generic one is intended |
| Gemini.ReplyOutcome | extractor.py:122-131 | success exactly for a decodable 2xx answer, with that content; an undecodable one is the parse error; transport failures are ConnectionErrors carrying the API's message |
| Gemini.ConnectionErrorTextShape | extractor.py:129 | the ConnectionError text starts with "API Error: " and then gives the API's message when there is one |
| Gemini.GenericConnectionErrorText | extractor.py:129 | with no message of the API's own, the text is "API Error: Failed to connect to Gemini API." |
| Gemini.FailureKindsDistinct | extractor.py:127-131 | transport failures and undecodable answers are never the same exception |
| Gemini.CallGemini | extractor.py:112-131 | an empty key raises before any request is built; otherwise the prompt is the template and the text, and the reply is classified by the handlers as written |
| Gemini.PromptText | extractor.py:59-115 | the posted string: `PromptTemplate`, the rendered text of `get_gemini_prompt()`, followed by the invoice text |
| Gemini.ConnectionErrorText | extractor.py:128-129 | the ConnectionError's text: "API Error: " and the API's message, or the generic one |
| Columns.BaseColumnListed | extractor.py:161-189 | every invoice-level column is in `BaseColumns`, the six groups' listed fields |
| Columns.ItemFieldListed | extractor.py:196-202 | every line-item field is in `ItemFields`, the listed item fields |
| Columns.HeaderNamesDecode | extractor.py:161-189 | every header column name decodes back to its column |
| Columns.SupplierNamesDecode | extractor.py:161-189 | every supplier column name decodes back to its column |
| Columns.BuyerNamesDecode | extractor.py:161-189 | every buyer column name decodes back to its column |
| Columns.LogisticsNamesDecode | extractor.py:161-189 | every logistics column name decodes back to its column |
| Columns.EWayBillNamesDecode | extractor.py:161-189 | every e-way bill column name decodes back to its column |
| Columns.SummaryNamesDecode | extractor.py:161-189 | every summary column name decodes back to its column |
| Columns.ItemNamesDecode | extractor.py:196-202 | every line-item column name decodes back to its column |
| Columns.ColumnNameRoundTrip | extractor.py:161-202 | decoding a column's name gives back that column |
| Columns.ColumnNameInjective | extractor.py:161-202 | no two columns share a name |
| Columns.ColumnNamesDisjoint | extractor.py:196-202 | no item column name repeats an invoice-level one, so `{**base_data, ...}` overrides nothing |
| Columns.TotalAmountUnread | extractor.py:174-180 | no column reads `summary.totalAmount` |
| Columns.GroupKey | extractor.py:153-158 | the key of each group in the reply object |
| Columns.GroupOf | extractor.py:161-189 | the group each invoice-level column reads from |
| Columns.Key | extractor.py:161-189 | the key each invoice-level column reads within its group, as the dict literal gives it |
| Columns.BaseColumnName | extractor.py:161-189 | the header each invoice-level column is stored under, spellings such as "Vehical Number" kept |
| Columns.ItemKey | extractor.py:198-201 | the key each item column reads from a line item |
| Columns.ItemColumnName | extractor.py:198-201 | the header each item column is stored under |
| Columns.ColumnName | extractor.py:161-201 | the header of any column, invoice-level or item |
| RowFlattener.GroupsOf | extractor.py:153-158 | unpacking succeeds exactly when each present group is an object; each group holds its fields, and a missing group is empty |
| RowFlattener.BaseRecordKeys | extractor.py:161-189 | the base record's keys are exactly the invoice-level column names |
| RowFlattener.BaseRecordValue | extractor.py:161-189 | each base column holds the `.get` of its key in its group |
| RowFlattener.ItemRecordKeys | extractor.py:196-202 | an item record's keys are exactly the item column names |
| RowFlattener.ItemRecordValue | extractor.py:196-202 | each item column holds the `.get` of its key in the item |
| RowFlattener.FullRowKeys | extractor.py:196-202 | a row has the base columns and the item columns |
| RowFlattener.FullRowBaseValue | extractor.py:197 | a row repeats the base record's value in every base column |
| RowFlattener.FullRowItemValue | extractor.py:198-201 | a row holds the item's value in every item column |
| RowFlattener.LineItemsOf | extractor.py:191-192 | a missing or falsy `lineItems` becomes one empty item; a truthy list is kept; anything else is malformed |
| RowFlattener.RowsOf | extractor.py:194-203 | one row per item, in order, each the base record merged with that item |
| RowFlattener.RowsOfSnoc | extractor.py:203 | appending an item appends its row |
| RowFlattener.BuildRows | extractor.py:194-203 | the item loop gives the rows of the items, or the malformed-reply error at the first item that is not an object |
| RowFlattener.Flatten | extractor.py:150-206 | the flattener's early exits and loop give exactly the flattened reply |
| RowFlattener.ItemObjectsFailureIsFinal | extractor.py:194-202 | once an item is not an object, the flattening fails whatever follows |
| RowFlattener.ItemObjectsSpec | extractor.py:194-202 | the items are usable exactly when all are objects, and then they are their fields in order |
| RowFlattener.FlattenedRows | extractor.py:150-206 | a flattened reply is the rows of its base record with its items |
| RowFlattener.FlattenedSucceedsIff | extractor.py:150-206 | flattening succeeds exactly for an object whose present groups are objects and whose line items are absent, falsy, or a list of objects; otherwise the error is a malformed reply |
| RowFlattener.FlattenedWithoutItems | extractor.py:191-192 | no line items give exactly one row, whose item columns are all None |
| RowFlattener.FlattenedWithItems | extractor.py:194-203 | N ≥ 1 items give exactly N rows, the i-th built from the i-th item |
| RowFlattener.FlattenedNonEmpty | extractor.py:191-192 | every flattened reply has at least one row |
| RowFlattener.FlattenedRow | extractor.py:194-203 | the i-th row is the base record merged with the i-th item |
| RowFlattener.FlattenedRowKeys | extractor.py:196-202 | every row's keys are exactly the invoice-level column names together with the item column names |
| RowFlattener.FlattenedBaseValue | extractor.py:161-189 | every row holds, in each base column, its group's value for that key |
| RowFlattener.FlattenedItemValue | extractor.py:196-202 | every row holds, in each item column, its item's value for that key |
| RowFlattener.FlattenedRowsShareBase | extractor.py:161-203 | a row's columns and all its base and item values, together |
| RowFlattener.FlattenedBaseIdentical | extractor.py:197 | all rows of one invoice agree on every invoice-level column |
| RowFlattener.ReplyObjectAt | extractor.py:153-191 | a reply object holds each group under its key, and its line items |
| RowFlattener.SyntheticInvoiceShape | extractor.py:153-158 | the sentinel reply is an object whose groups are well formed and hold the sentinel values |
| RowFlattener.SyntheticGroupHolds | extractor.py:161-189 | the sentinel group holds the sentinel of each base column's leaf |
| RowFlattener.SyntheticItemHolds | extractor.py:196-202 | the sentinel item holds the sentinel of each item leaf |
| RowFlattener.SentinelFlattens | extractor.py:150-206 | the sentinel reply flattens to exactly one row |
| RowFlattener.SyntheticGroupsIn | extractor.py:153-158 | the unpacked groups of the sentinel reply are its sentinel groups |
| RowFlattener.SentinelBaseValue | extractor.py:161-189 | each base column of the sentinel row holds its leaf's sentinel, unchanged |
| RowFlattener.SentinelItemValue | extractor.py:196-202 | each item column of the sentinel row holds its leaf's sentinel, unchanged |
| RowFlattener.SentinelRoundTrip | extractor.py:150-206 | a reply with a distinct non-null value in every leaf gives one row with every invoice-level and item column, each holding its leaf's value |
| RowFlattener.SentinelRowOmitsTotal | extractor.py:174-180 | a row holding only other leaves' sentinels never shows the total-amount sentinel |
| RowFlattener.TotalAmountDropped | extractor.py:174-180 | the `summary.totalAmount` value never reaches a row |
| RowFlattener.BaseValue | extractor.py:161-189 | `group.get(key)` for the column's group and key |
| RowFlattener.BaseRecord | extractor.py:161-189 | `base_data`: one entry per invoice-level column name |
| RowFlattener.ItemValue | extractor.py:198-201 | `item.get(key)` for the item column's key |
| RowFlattener.ItemRecord | extractor.py:198-201 | the item part of a row: one entry per item column name |
| RowFlattener.FullRow | extractor.py:196-202 | `{**base_data, ...}`: the base record merged with the item record |
| RowFlattener.ItemObjects | extractor.py:194-203 | the line items as objects, in order, or the failure at the first one that is not an object |
| RowFlattener.Flattened | extractor.py:150-206 | the whole flattening of a reply: the groups, the line items with their default, one row per item, or the failure |
| Extractor.ProcessInvoiceFile | extractor.py:134-206 | one file's course is the extractors, the threshold test, the empty-text check, the call (with the handlers as written) and the flattening in turn |
| Extractor.OcrOnlyWhenShort | extractor.py:140-143 | OCR runs exactly when the stripped embedded text is short; otherwise the embedded text is sent and the OCR reading never matters |
| Extractor.OcrReplacesEmbedded | extractor.py:141-143 | when OCR runs, exactly its text is sent, and the embedded text no longer matters |
| Extractor.NoTextIff | extractor.py:140-145 | "no text" is raised exactly when the embedded text is short and OCR gives "", and then nothing is sent |
| Extractor.BlankOcrPageIsSent | extractor.py:141-145 | the empty-text check does not strip: one blank OCR page is sent to Gemini |
| Extractor.ErrorsBeforeRequest | extractor.py:114-147 | empty text raises before the key is checked, an empty key raises before any prompt, and a sent prompt is the template and the chosen text |
| Extractor.InvoiceRowsSpec | extractor.py:134-206 | a file gives rows exactly when it has text, a key, a decodable reply that flattens; its rows are those of the reply, at least one |
| Extractor.ChosenText | extractor.py:140-143 | the text handed on: the embedded text, or the OCR text when the embedded one is too short |
| Extractor.RunFrom | extractor.py:144-206 | after the text choice: the empty-text check, the call and the flattening |
| Extractor.InvoiceRunOf | extractor.py:134-206 | the course of `process_invoice_file` for one file and key |
| Extractor.InvoiceRows | extractor.py:134-206 | the rows `process_invoice_file` returns, or the exception it raises |
| Extractor.HandlerRaisesEndsFile | extractor.py:122-131 | a file whose request handler raises ends in that handler's own exception, never a ConnectionError; a failed POST ends in the unbound-`response` error |
| Export.KeysOf | main.py:222 | the DataFrame's columns include every key of every row |
| Export.Filled | main.py:237 | `fillna("NA")` keeps a value and replaces a missing one or a null with "NA" |
| Export.ReindexedIsExport | main.py:233-237 | reindexing the frame, once the missing columns are added, gives the export table of the rows |
| Export.NormaliseForExport | main.py:229-237 | the column loop, the reindex and the fill give the export table of the rows |
| Export.ExportShape | main.py:229-237 | the table has the 14 columns in the fixed order, one line per row, 14 cells each |
| Export.ExportCell | main.py:233-237 | each cell is the row's value for that column, or "NA" where the row has none or a null; never null |
| Export.ExportIgnoresOtherColumns | main.py:237 | columns outside the 14 never affect the exported table |
| Export.ExportConcat | main.py:206-237 | the export of rows accumulated file after file is the exports of the files, in order |
| Export.ExportSourcesNamed | main.py:229-232 | each of the 14 export columns is a flattener column with exactly that name |
| Export.FlattenedExportCell | main.py:229-237 | an exported cell of a flattened reply is its leaf's value from the reply, or "NA" where the reply has none |
| Export.Written | main.py:244-255 | a missing file is created with header and lines; an existing Sheet1 gets the lines appended without a header; a workbook without Sheet1 gains it with a header; other sheets are kept |
| Export.WrittenTwice | main.py:244-252 | a second append adds only its lines: one header, then the lines of both tables |
| Export.FrameOf | main.py:222 | `pd.DataFrame(all_extracted_rows)`: the rows and the union of their keys as columns |
| Export.WithColumn | main.py:233-235 | `new_df[col] = "NA"`: the column added, every row holding "NA" in it |
| Export.Reindexed | main.py:237 | `reindex(columns=column_order).fillna("NA")` on a frame |
| Export.ExportTable | main.py:229-237 | the export table defined from the rows alone: the 14 headers and, per row, its filled cells in that order |
| InvoiceApp.Outcomes | main.py:201-205 | one outcome per selected file |
| InvoiceApp.FirstFailure | main.py:201-212 | the first failing file, when any, with every file before it a success |
| InvoiceApp.NoFailure | main.py:216 | outcomes that all succeed have no first failure |
| InvoiceApp.FirstFailureAt | main.py:201-212 | a failure preceded only by successes is the first failure |
| InvoiceApp.ProcessFiles | main.py:187-226 | the batch's attempts, rows and status are those of the key and the files' outcomes |
| InvoiceApp.CollectRows | main.py:201-212 | the loop stops at the first failing file with that file's exception and the earlier files' rows, or collects every file's rows in order |
| InvoiceApp.AccumulatedAppend | main.py:206 | the rows of two runs of files are their rows in turn |
| InvoiceApp.AccumulatedSnoc | main.py:206 | one more file appends its rows |
| InvoiceApp.AccumulatedLength | main.py:206 | files that each give at least one row give at least one row per file |
| InvoiceApp.EarlyExits | main.py:188-195 | nothing is attempted exactly when the key or the selection is empty, and then the status says which |
| InvoiceApp.StopsAtFirstFailure | main.py:208-218 | a stopped batch stopped at the first failing file, with that file's exception and only the earlier files' rows, and nothing saved |
| InvoiceApp.LaterOutcomesIgnored | main.py:212 | what follows the failing file never changes the batch |
| InvoiceApp.SavedIff | main.py:216-222 | the batch is saved exactly when there is a key, a selection, no failure and some rows; the table saved is the export of all rows |
| InvoiceApp.SavedGrowsByFile | main.py:206-222 | one more successful file appends its rows and its exported lines |
| InvoiceApp.OutcomesAppend | main.py:201 | the outcomes of two selections are their outcomes in turn |
| InvoiceApp.OutcomesSnoc | main.py:201-205 | one more file adds its own outcome |
| InvoiceApp.OutcomesPrefix | main.py:201 | the outcomes of the first n files are the first n outcomes |
| InvoiceApp.FailsAtFile | main.py:201-212 | a failing file preceded only by successful ones is where the batch stops |
| InvoiceApp.OutcomesHaveRows | main.py:205 | every file that succeeds gives at least one row |
| InvoiceApp.NoDataExtractedUnreachable | main.py:224-226 | the "no data extracted" status cannot occur |
| InvoiceApp.LaterFilesIgnored | main.py:212 | the files after the failing one are never read: replacing them changes nothing |
| InvoiceApp.Accumulated | main.py:198-206 | `all_extracted_rows`: the rows of the successful files in file order |
| InvoiceApp.BatchFrom | main.py:187-226 | the batch over a sequence of file outcomes: the early exits, the stop at the first failure, the save or the no-data status |
| InvoiceApp.BatchOf | main.py:187-226 | the batch for a key and the selected files |

## Left out

- Reading PDFs and Tesseract OCR are not modelled. Their results are given as a `Scan`: per page, a text or a failure. The text layer and the rendered pages are independent scans, so the model does not tie them to one file.
- The HTTP exchange is not modelled. The URL, headers and payload (extractor.py:116-121), `raise_for_status` and the JSON decoding are summed up in a `Reply`. The payload still carries exactly `PromptText`.
- `get_gemini_prompt` (extractor.py:59-110) is modelled as its rendered text, a literal with the schema laid out as `json.dumps(..., indent=2)` prints it.
- The Tkinter interface is not modelled: file dialogs, labels, buttons, progress updates, message boxes and the worker thread. `print` output is left out too.
- The Tesseract path setup (extractor.py:15-25) and the start-up check (main.py:262-272) are not modelled.
- The save dialog and its cancellation (main.py:238-243) are left out. So is the export error handler (main.py:258-260): the model assumes the write succeeds.
- pandas dtypes are not modelled, nor NaN from float columns. A missing value is `None` or JSON null, and both become "NA".
- The pandas aliasing of `new_df` is not modelled: the model's frame is a value, and the caller passes a freshly built frame anyway.
- Export.KeysOf: states only that the columns include every row's keys, not that they are exactly the union.
- Export.Written: appends directly below the existing lines. openpyxl reports `max_row` 1 for an empty `Sheet1`, so the source then leaves one blank row; the model does not reproduce that gap.
- Gemini.ReplyAsWritten: a 2xx answer whose envelope cannot be decoded or lacks the candidate path is the parse error (`Delivered(None)`). Depending on the `requests` version, an undecodable envelope is instead caught by the `RequestException` handler, which then raises while decoding it again; and an envelope of the wrong types (a string where a list is expected) raises a TypeError. Those are not modelled.
- The pipeline (`Gemini.CallGemini` and everything after it) classifies replies with the handlers as written, so a failed POST or an unreadable error body stops the batch with that exception. `Gemini.ReplyOutcome` is the corrected handler; `Gemini.AsWrittenDiffersIff` says exactly where the two part.
- Numbers in JSON are reals. Python's distinction between `0` and `0.0` is not kept.
- `str.strip()` is modelled with Python's whitespace table (`TextAcquisition.IsSpace`) as current Unicode versions define it; a Python built on an older Unicode database may differ.
- The flattener never reads `summary.totalAmount`, although the prompt asks for it (extractor.py:87 against 174-180). The model follows the code: the value is dropped (RowFlattener.TotalAmountDropped). So not every schema leaf has a column.
- The "no data extracted" branch (main.py:224-226) is modelled as written, but it cannot be reached: every file that succeeds gives at least one row (InvoiceApp.NoDataExtractedUnreachable).

## Findings

| source | as written | input that shows it | evidently intended | confidence | as-written member | corrected member |
|---|---|---|---|---|---|---|
| extractor.py:123-129 | the `RequestException` handler calls `response.json()`, but when `requests.post` itself raises, `response` was never assigned; and when the error body is not a JSON object, the handler's own `response.json()` or `.get` raises | a connection that fails before any answer (no network, DNS failure) gives `UnboundLocalError`; a 502 with an HTML body gives a JSONDecodeError; neither is the ConnectionError "API Error: Failed to connect to Gemini API." | every transport failure, including a failed POST and an unreadable error body, becomes a ConnectionError carrying the API's message or the generic one | high (not executed) | Gemini.ReplyAsWritten, Gemini.AsWrittenDiffersIff, Extractor.HandlerRaisesEndsFile | Gemini.ReplyOutcome |
