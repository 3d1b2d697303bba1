# ChartBot front end, modelled in Dafny

ChartBot is a chat application. The user types messages, attaches a CSV or
Excel file, and can ask a backend for a Highcharts chart. This project models
three parts of its React front end and proves properties about them:

- **The attachment parser** (`parseFile`). It refuses empty files and files
  without a usable extension. It decodes CSV through Papa.parse and Excel
  through ExcelJS, and normalises the result to a table of trimmed strings
  plus a preview of the table's first six rows. Both decoders are abstract
  values. `CsvDecode` is what Papa.parse's callbacks receive. `ExcelLoad` is
  the loaded workbook: undefined worksheet slots, rows and cells carrying the
  library's empty markers, or the value the load threw. `Date.toISOString`
  is the function parameter `toIso`. The Excel row and cell callbacks are a
  pair of nested loops (`FileParser.CollectRows`), proved equal to a
  recursive specification.
- **The chat-list store** that `App` keeps with `useState`: the chats, the
  active chat id, the text box and the typing flag, together with the
  reducers and `handleSubmit`. The store is a class whose invariant is:
  - the list is never empty;
  - chat ids are distinct;
  - the active id names a chat (this holds because `App.HandleDeleteChat`
    uses the corrected delete described under Findings);
  - every chat numbers its messages 1, 2, ….

  Fresh ids (`uuidv4`) and clock readings are method parameters. The chart
  endpoint's answer is the abstract value `ChatStore.ChartResponse`: either
  the request threw, or an HTTP status and a body that is unreadable or JSON.
- **The UI state machines**:
  - the tray's rename editor (`ChatTray.EditState`);
  - the file picker's 10 MiB gate (`FileUpload.Picker`);
  - the composer's allow-list, the staged attachment and submission
    (`ChatInput.Composer`);
  - the attachment card's rows, footer, remove button and expand toggle
    (`FileAttachmentView`).

JavaScript built-ins are restated in module `Js`:

- `trim`, using ECMAScript's whitespace and line-terminator set;
- `toLowerCase`, on ASCII letters;
- `split('.').pop()`;
- `slice`;
- `String(n)`.

`Wrappers` holds `Option` and `Result`.

Where the type declarations and the code disagree, the model follows the
code. `types/index.ts` declares a `FileAttachment` as `file`, `name`,
`type` and `preview`. `parseFile` actually returns `name`, `type`, `content`
and `preview`, and the card reads `content`. The model's `Attachment` has
the fields that `parseFile` returns.

## Model

| member | source | states |
|---|---|---|
| Js.Trim | frontend/src/utils/fileParser.ts:34 | the result has no whitespace at either end; it is empty exactly when the input is all whitespace; it is never longer than the input |
| Js.TrimIsUnique | frontend/src/utils/fileParser.ts:34 | a reference characterisation of `trim`: whitespace, then a trimmed middle, then whitespace, trims to that middle |
| Js.TrimIdempotent | frontend/src/utils/fileParser.ts:75 | trimming an already trimmed string changes nothing, so the Excel cleaning pass's second trim is a no-op |
| Js.Lower | frontend/src/utils/fileParser.ts:11 | same length as the input; each ASCII capital becomes its lower-case letter (code point + 32); every other character is kept |
| Js.AfterLastDot | frontend/src/utils/fileParser.ts:11 | the piece `split('.').pop()` returns: it holds no dot, it is a suffix of the name, and when shorter than the name a dot precedes it |
| Js.AfterLastDotSplits | frontend/src/utils/fileParser.ts:11 | either the name has no dot and is returned whole, or the name is some prefix, a dot, and the returned piece |
| Js.AfterLastDotOfDotted | frontend/src/utils/fileParser.ts:11 | for a name `p + "." + e` with no dot in `e`, `split('.').pop()` returns exactly `e` |
| Js.Slice | frontend/src/components/FileAttachment.tsx:59 | `slice` with clamped bounds: the length is the clamped window, and element i is `s[start + i]` |
| Js.NatToString | frontend/src/App.tsx:140 | `String(n)` is a non-empty string of decimal digits without a leading zero |
| Js.NatToStringRoundTrip | frontend/src/App.tsx:140 | reading the digits of `String(n)` back gives `n` |
| FileParser.ErrorMessage | frontend/src/utils/fileParser.ts:8-111 | every Excel failure message is the Excel prefix followed by the cause's text (the thrown error's own message, or the unknown-error text), and a CSV read error is the CSV prefix followed by the decoder's message |
| FileParser.Extension | frontend/src/utils/fileParser.ts:11 | the lower-cased extension holds no dot and is no longer than the name |
| FileParser.ExtensionOfDotted | frontend/src/utils/fileParser.ts:11 | the extension of `p + "." + e` (no dot in `e`) is `e` lower-cased |
| FileParser.UpperCaseExtension | frontend/src/utils/fileParser.ts:11-17 | `DATA.CSV` has the extension `csv`, so it takes the CSV path |
| FileParser.Build | frontend/src/utils/fileParser.ts:37-41 | the attachment copies name and type, holds the table as `content`, and its preview is the first `min(6, rows)` rows |
| FileParser.CleanCsv | frontend/src/utils/fileParser.ts:33-35 | the same shape as the decoded rows; each cell is the trimmed text or '' for null; every cell is trimmed |
| FileParser.CsvIsEmpty | frontend/src/utils/fileParser.ts:27 | the CSV emptiness rule on the raw rows: no rows, or one row of one falsy cell (stated by `FileParser.CsvOutcome`) |
| FileParser.ParseCsv | frontend/src/utils/fileParser.ts:17-50 | a read failure gives `CsvReadError` with the decoder's message; a success needs no decoder errors and a non-empty table, copies name and type, holds the cleaned table and its first six rows as preview; a failure is one of the three CSV errors |
| FileParser.CollectCells | frontend/src/utils/fileParser.ts:71-77 | the entries pushed for one row: never more than its cells (their contents are stated by `FileParser.CollectCellsCount`, `FileParser.CollectCellsAppend` and `FileParser.CellDatesSurviveCollection`) |
| FileParser.CollectRowsSpec | frontend/src/utils/fileParser.ts:68-80 | the rows pushed into `content`: never more than the sheet's rows (their contents are stated by `FileParser.CollectCounts`, `FileParser.CollectRowsAppend` and `FileParser.CleanCollectMatchesSheet`) |
| FileParser.CollectRows | frontend/src/utils/fileParser.ts:66-80 | the eachRow/eachCell loops push exactly `CollectRowsSpec(rows)`: empty rows and cells are skipped, dates are kept, and other values are trimmed |
| FileParser.CollectCounts | frontend/src/utils/fileParser.ts:68 | one collected row per non-empty sheet row |
| FileParser.CollectCellsCount | frontend/src/utils/fileParser.ts:71 | one collected entry per non-empty cell |
| FileParser.CollectRowsAppend | frontend/src/utils/fileParser.ts:68-80 | collecting a concatenation concatenates the collections, so rows keep their sheet order |
| FileParser.CollectCellsAppend | frontend/src/utils/fileParser.ts:71-77 | the same for the cells of one row |
| FileParser.SparseRowCollapses | frontend/src/utils/fileParser.ts:71-77 | a row with values in columns 1 and 3 yields two adjacent entries, so column positions are not kept |
| FileParser.CleanCollected | frontend/src/utils/fileParser.ts:89-94 | cleaning one entry fails exactly on an Invalid Date, with the RangeError's message `InvalidTimeMessage` |
| FileParser.CleanRow | frontend/src/utils/fileParser.ts:89-94 | `row.map`: fails with `InvalidTimeMessage` exactly when the row holds an Invalid Date; otherwise one string per entry |
| FileParser.CleanRowCells | frontend/src/utils/fileParser.ts:89-94 | a row that cleans cleans each entry on its own: entry j gives string j |
| FileParser.CleanExcel | frontend/src/utils/fileParser.ts:88-95 | the cleaning pass throws `InvalidTimeMessage` exactly when some collected entry is an Invalid Date; otherwise it keeps the number of rows |
| FileParser.ExcelIsEmpty | frontend/src/utils/fileParser.ts:83 | the Excel emptiness rule on the collected rows: none, or one row with no entries (stated by `FileParser.ExcelOutcome`) |
| FileParser.ParseExcel | frontend/src/utils/fileParser.ts:51-108 | a thrown load, no worksheets and an undefined first sheet each give their own Excel error; otherwise the no-data error comes exactly when the collected rows are empty, non-empty rows holding an Invalid Date give the thrown `InvalidTimeMessage`, and the parse succeeds exactly when neither happens; a success copies name and type and has the first six rows as preview |
| FileParser.CellDatesSurviveCollection | frontend/src/utils/fileParser.ts:71-77 | the entries collected from a row hold an Invalid Date exactly when the row's cells do |
| FileParser.DatesSurviveCollection | frontend/src/utils/fileParser.ts:68-80 | the collected rows hold an Invalid Date exactly when some non-empty sheet row does |
| FileParser.InvalidDateLeavesData | frontend/src/utils/fileParser.ts:68-85 | a sheet with an Invalid Date in a row never counts as having no data |
| FileParser.CleanCellsMatchesSheet | frontend/src/utils/fileParser.ts:71-94 | for one row without Invalid Dates, collecting and then cleaning equals the reference reading of its cells |
| FileParser.CleanCollectMatchesSheet | frontend/src/utils/fileParser.ts:66-95 | for a sheet without Invalid Dates, collecting and then cleaning succeeds with a one-pass reference reading of the sheet (`SheetTable`) |
| FileParser.ExcelContent | frontend/src/utils/fileParser.ts:51-102 | a successful Excel parse comes from a first worksheet without Invalid Dates and returns its reference table |
| FileParser.Parse | frontend/src/utils/fileParser.ts:5-112 | a zero-byte file gives the empty-file error before anything else; a success comes from a non-empty file and is a well-built attachment |
| FileParser.KindOf | frontend/src/utils/fileParser.ts:13-111 | the dispatch on the extension: unnamed, csv, Excel or other, each exactly for its extensions |
| FileParser.ParseOrder | frontend/src/utils/fileParser.ts:11-111 | see the list after this table |
| FileParser.CsvPath | frontend/src/utils/fileParser.ts:17 | a non-empty file with extension csv gets exactly the CSV reader's outcome |
| FileParser.ExcelPath | frontend/src/utils/fileParser.ts:51 | a non-empty file with extension xlsx or xls gets exactly the Excel reader's outcome |
| FileParser.ParseFile | frontend/src/utils/fileParser.ts:5-112 | the method with the collection loops returns exactly `Parse` |
| FileParser.UnsupportedNeedsNoDecoder | frontend/src/utils/fileParser.ts:11-17 | for an extension that is neither csv nor Excel, the outcome is a failure that does not depend on either decoder |
| FileParser.CsvOutcome | frontend/src/utils/fileParser.ts:20-42 | the CSV rules in the source's order: decoder errors give the invalid-CSV error, then an empty table gives the empty error, and otherwise the content is the cleaned table |
| FileParser.CsvReadFailureOutcome | frontend/src/utils/fileParser.ts:44-46 | a CSV read failure rejects with `CsvReadError` carrying the decoder's message |
| FileParser.ExcelOutcome | frontend/src/utils/fileParser.ts:51-108 | the Excel rules in the source's order for an Excel file: thrown load, no sheets, undefined first sheet, no-data exactly when the collection is empty, then the thrown `InvalidTimeMessage` when a sheet row holds an Invalid Date; success exactly when none applies |
| FileParser.InvalidDateParse | frontend/src/utils/fileParser.ts:88-105 | an Excel file whose first sheet has an Invalid Date in any row fails with the caught RangeError, whose message is `InvalidTimeMessage` |
| FileParser.ThrownMessageShown | frontend/src/utils/fileParser.ts:103-105 | a caught `Error` is reported as the Excel prefix followed by its own message |
| FileParser.InvalidDateRejected | frontend/src/utils/fileParser.ts:88-105 | such a file is refused with the Excel prefix followed by `InvalidTimeMessage` ("Error al parsear el archivo Excel: Invalid time value" in V8) |
| FileParser.LoneBlankCsvTable | frontend/src/utils/fileParser.ts:27-35 | the CSV reader accepts a lone blank cell and builds the table `[[""]]` |
| FileParser.LoneBlankCsvCellAccepted | frontend/src/utils/fileParser.ts:27-35 | the emptiness test runs on raw cells, so a lone blank cell is accepted and gives `[[""]]` |
| ChatStore.CreateInitialChat | frontend/src/App.tsx:11-23 | the default title, and the greeting as bot message 1 |
| ChatStore.FindChat | frontend/src/App.tsx:42 | `find`: none exactly when no chat has the id; otherwise the first index with that id |
| ChatStore.GetCurrentChat | frontend/src/App.tsx:41-43 | the chat with the active id when one exists, otherwise the first chat |
| ChatStore.UpdateChat | frontend/src/App.tsx:45-49 | chats with the id are replaced and all others are kept in place; nothing changes when no chat has the id |
| ChatStore.RenameChat | frontend/src/App.tsx:78-84 | matching chats get the new title; ids and messages never change |
| ChatStore.FilterOut | frontend/src/App.tsx:59 | `filter`: exactly the chats with another id |
| ChatStore.FilterOutAppend | frontend/src/App.tsx:59 | filtering distributes over concatenation, so the order of the survivors is kept |
| ChatStore.FilterOutDistinct | frontend/src/App.tsx:59 | filtering keeps ids distinct |
| ChatStore.DeleteChats | frontend/src/App.tsx:58-65 | the list after a delete is never empty and no longer holds the id; it is a fresh chat when nothing is left |
| ChatStore.ActiveAfterDelete | frontend/src/App.tsx:67-75 | another chat stays active; otherwise the first survivor becomes active, else the id of the chat created here |
| ChatStore.DeleteChatAsWritten | frontend/src/App.tsx:57-75 | as written: the list is `DeleteChats` with the first `createInitialChat()`, and the active id is `ActiveAfterDelete` with the second one's id |
| ChatStore.ActiveSurvivesDelete | frontend/src/App.tsx:57-75 | when the replacement chat supplies the active id, the active id names a chat of the new list and ids stay distinct |
| ChatStore.DeleteChat | frontend/src/App.tsx:57-75 | corrected delete: the list is non-empty, lacks the id, has distinct ids and names the new active id; another chat stays active, and a deleted active chat hands over to the first remaining chat, else to the replacement chat |
| ChatStore.NextTitle | frontend/src/App.tsx:112-114 | the title changes only on the first submission, to `input`, else the file name, else 'Chat'; it is then never empty |
| ChatStore.SubmitIgnored | frontend/src/App.tsx:93 | the no-op guard: blank input and no file (stated by `ChatInput.SubmitEnabledMatchesStoreGuard` and `ChatStore.SubmitChats`) |
| ChatStore.UserText | frontend/src/App.tsx:102 | the input when non-empty, else "Archivo adjunto: " and the file name; empty exactly when there is neither |
| ChatStore.OptionsOf | frontend/src/App.tsx:146-157 | only a non-empty string that fails to parse is an error (with the parse prefix); a parsed string or an object gives its options; an absent or other code gives no keys |
| ChatStore.OrDefault | frontend/src/App.tsx:163 | `s || default` on an optional string |
| ChatStore.ErrorReply | frontend/src/App.tsx:184-191 | an error reply is the apology prefix followed by the error's message, and carries no chart |
| ChatStore.ChartReply | frontend/src/App.tsx:121-200 | a chart is attached exactly when the request returned 2xx, the body is JSON, the options parsed and have at least one key; a failed request or a non-2xx status gives an error reply |
| ChatStore.ChartReplyCases | frontend/src/App.tsx:133-197 | each branch: a thrown request, a non-2xx status (its number in the text), an unreadable body and an unparsable code give the apology; a chart reply says the explanation or "Aquí está tu gráfico."; a chart-less one the explanation or "Respuesta normal." |
| ChatStore.ChartScenario | frontend/src/App.tsx:146-168 | a 200 answer whose code is a JSON string with keys and whose explanation is "here" gives a chart reply with text "here" |
| ChatStore.PlainReply | frontend/src/App.tsx:201-208 | no chart; the text is 'Respuesta normal: ' followed by the input, or by "Sin texto" when the input is empty |
| ChatStore.BotReply | frontend/src/App.tsx:121-215 | the chart branch with `generateChart`, and the plain reply otherwise |
| ChatStore.SubmittedChat | frontend/src/App.tsx:96-115 | the same id; the next title; the old messages and then two new ones numbered n+1 and n+2, the user's carrying the text and file with no chart, the bot's carrying the reply and no attachment; numbering preserved |
| ChatStore.SubmitChats | frontend/src/App.tsx:86-216 | a guarded submission leaves the list unchanged; the length never changes |
| ChatStore.SubmitExtendsActiveChat | frontend/src/App.tsx:96-117 | an accepted submission extends exactly the active chat and leaves every other chat unchanged |
| ChatStore.UpdateChatTwice | frontend/src/App.tsx:117-183 | the second `updateChat` under the same id overrides the first, so the two-step update equals one |
| ChatStore.SubmitKeepsInvariant | frontend/src/App.tsx:86-216 | a submission keeps the store invariant |
| ChatStore.DeleteLastChatLosesNextSubmit | frontend/src/App.tsx:67-75 | as written, deleting the only chat leaves a dangling active id, and the next submission leaves the list unchanged |
| ChatStore.DeleteLastChatThenSubmit | frontend/src/App.tsx:57-75 | corrected: the replacement chat is active, and the next submission adds two messages to it |
| ChatStore.App.constructor | frontend/src/App.tsx:26-29 | one initial chat that is active, an empty text box and no typing |
| ChatStore.App.SelectChat | frontend/src/App.tsx:226 | the active id becomes the selected listed id; the invariant holds |
| ChatStore.App.SetInput | frontend/src/App.tsx:28 | only the text box changes |
| ChatStore.App.HandleNewChat | frontend/src/App.tsx:51-55 | an initial chat is appended and made active; the invariant holds |
| ChatStore.App.HandleDeleteChat | frontend/src/App.tsx:57-75 | the corrected `DeleteChat`; the invariant holds |
| ChatStore.App.HandleRenameChat | frontend/src/App.tsx:78-84 | the list becomes `RenameChat`; the invariant holds |
| ChatStore.App.Answer | frontend/src/App.tsx:121-215 | the reply is `BotReply`; the typing flag is off after a chart request; nothing else changes |
| ChatStore.App.HandleSubmit | frontend/src/App.tsx:86-216 | a guarded submission does nothing; otherwise the list becomes `SubmitChats` and the text box is cleared; the invariant holds |
| ChatTray.SaveRequest | frontend/src/components/ChatTray.tsx:30-35 | a rename is requested exactly when an edit is open and the title is not blank; it names the edited chat and carries the trimmed, non-empty title |
| ChatTray.KeyActionOf | frontend/src/components/ChatTray.tsx:42-48 | Enter saves and Escape cancels, each for exactly that key |
| ChatTray.SavedTitleIsClean | frontend/src/components/ChatTray.tsx:30-35 | a saved rename gives the edited chat the trimmed non-empty title and keeps its messages |
| ChatTray.EditState.ControlsOffered | frontend/src/components/ChatTray.tsx:104 | rename and delete are offered exactly while no edit is open |
| ChatTray.EditState.StartEdit | frontend/src/components/ChatTray.tsx:25-28 | the chat's id and its current title |
| ChatTray.EditState.ChangeTitle | frontend/src/components/ChatTray.tsx:72 | only the typed title changes |
| ChatTray.EditState.SaveEdit | frontend/src/components/ChatTray.tsx:30-35 | returns `SaveRequest`; the edit closes only when a rename is sent; the typed title is kept |
| ChatTray.EditState.CancelEdit | frontend/src/components/ChatTray.tsx:37-40 | the edit is closed and the title cleared |
| ChatTray.EditState.KeyDown | frontend/src/components/ChatTray.tsx:42-48 | Enter acts as save, Escape as cancel, and other keys change nothing |
| FileUpload.Gate | frontend/src/components/FileUpload.tsx:12-25 | a file is passed on exactly when one was chosen and it is at most 10 MiB; it is the first chosen file |
| FileUpload.GateBoundary | frontend/src/components/FileUpload.tsx:16-17 | exactly 10485760 bytes passes and 10485761 bytes does not |
| FileUpload.Picker.HandleFileChange | frontend/src/components/FileUpload.tsx:12-30 | the file passed on is `Gate`; the alert is shown exactly for an oversized file; the input value is reset whenever a file was chosen |
| FileAttachmentView.RendersNothing | frontend/src/components/FileAttachment.tsx:16 | the card renders nothing for an empty table (stated by `FileAttachmentView.PreviewShowsSameWindow` and `FileAttachmentView.Card.TableShown`) |
| FileAttachmentView.HeaderRow | frontend/src/components/FileAttachment.tsx:51 | the heading is the first row (stated by `FileAttachmentView.NoFooterShowsEverything` and `FileAttachmentView.PreviewShowsSameWindow`) |
| FileAttachmentView.FooterText | frontend/src/components/FileAttachment.tsx:70-74 | the footer text (stated by `FileAttachmentView.FooterCountsDataRows`) |
| FileAttachmentView.BodyRows | frontend/src/components/FileAttachment.tsx:59 | the body is at most five rows: the rows after the header, in order |
| FileAttachmentView.Displayed | frontend/src/components/FileAttachment.tsx:13 | the preview in preview mode, else the content (stated by `FileAttachmentView.PreviewShowsSameWindow`) |
| FileAttachmentView.FooterShown | frontend/src/components/FileAttachment.tsx:70 | the footer condition: more than six rows (stated by `FileAttachmentView.FooterCountsDataRows` and `FileAttachmentView.NoFooterShowsEverything`) |
| FileAttachmentView.NoFooterShowsEverything | frontend/src/components/FileAttachment.tsx:51-70 | without a footer, header and body together are every displayed row |
| FileAttachmentView.FooterCountsDataRows | frontend/src/components/FileAttachment.tsx:70-74 | with a footer the body is five rows, and the footer text is "Showing 5 of N rows" where N is written in canonical decimal (no leading zero) and reads back as the number of rows minus the header |
| FileAttachmentView.PreviewShowsSameWindow | frontend/src/components/FileAttachment.tsx:13-16 | for a parsed attachment, the preview and full cards both render, with the same header and body; the preview never shows a footer |
| FileAttachmentView.RemoveNeverShownAsWritten | frontend/src/components/FileAttachment.tsx:26 | as written, the remove button is hidden at both call sites |
| FileAttachmentView.RemoveShownWhereHandled | frontend/src/components/FileAttachment.tsx:26 | corrected: the button shows where a remove handler is given and not elsewhere |
| FileAttachmentView.Card.Toggle | frontend/src/components/FileAttachment.tsx:35 | the expanded flag flips |
| FileAttachmentView.Card.TableShown | frontend/src/components/FileAttachment.tsx:16-46 | the table is drawn exactly when the card is expanded and there are rows |
| ChatInput.AllowedFilesReachDecoder | frontend/src/components/ChatInput.tsx:19-29 | a file that passes the allow-list never meets the parser's missing-extension or unsupported-type errors |
| ChatInput.ExtensionAllowed | frontend/src/components/ChatInput.tsx:20-23 | the allow-list test (stated by `ChatInput.AllowedMeansKnown`) |
| ChatInput.AllowedMeansKnown | frontend/src/components/ChatInput.tsx:20-23 | an extension is on the allow-list exactly when it is csv, xlsx or xls |
| ChatInput.AttachDisabled | frontend/src/components/ChatInput.tsx:67 | the picker is disabled while a file is staged (stated by `ChatInput.StagedAfterChoice`) |
| ChatInput.SubmitDisabled | frontend/src/components/ChatInput.tsx:76 | the send button's disabled condition (stated by `ChatInput.SubmitEnabledMatchesStoreGuard`) |
| ChatInput.SubmitEnabledMatchesStoreGuard | frontend/src/components/ChatInput.tsx:76 | the send button is disabled exactly when the store would ignore the submission |
| ChatInput.PlainSubmitIgnoresResponse | frontend/src/components/ChatInput.tsx:37-41 | without a chart request, the endpoint's answer does not affect the chat list |
| ChatInput.StagedAfterSelect | frontend/src/components/ChatInput.tsx:19-35 | a refused extension or a failed parse keeps the staged file; a successful parse stages its result |
| ChatInput.StagedAfterChoice | frontend/src/components/ChatInput.tsx:67 | a disabled picker (a file staged) or a gated-out choice keeps the staged file; otherwise the result is `StagedAfterSelect` on the first chosen file |
| ChatInput.StagedFilePassedEveryCheck | frontend/src/components/ChatInput.tsx:19-35 | whatever gets staged came from the first chosen file; that file is non-empty, at most 10 MiB and has an allowed extension, and the staged value is exactly what `parseFile` built |
| ChatInput.Composer.RemoveOffered | frontend/src/components/ChatInput.tsx:47-51 | the staged card offers removal exactly when a file is staged (corrected condition) |
| ChatInput.Composer.HandleFileSelect | frontend/src/components/ChatInput.tsx:19-35 | the staged file becomes `StagedAfterSelect`; the alert is the allow-list alert, the parse alert or none, according to the case |
| ChatInput.Composer.ChooseFiles | frontend/src/components/ChatInput.tsx:67 | the staged file becomes `StagedAfterChoice`; a disabled picker changes nothing; otherwise the picker is reset after any choice, and the alert is the size, allow-list or parse alert, according to the case |
| ChatInput.Composer.Remove | frontend/src/components/ChatInput.tsx:49 | nothing is staged afterwards |
| ChatInput.Composer.HandleSubmit | frontend/src/components/ChatInput.tsx:37-41 | the store receives `SubmitChats` with the staged file and no chart request; the text box and the staged file are cleared; the store invariant holds |

`FileParser.ParseOrder` states:

- the missing-extension error occurs exactly for a non-empty file whose
  extension is "";
- the unsupported-type error occurs exactly for a non-empty file whose
  extension is non-empty but neither csv, xlsx nor xls;
- a success implies a supported extension;
- an Excel error implies an Excel extension, and a CSV error implies csv.

## Left out

- Papa.parse and ExcelJS are not modelled internally. Their outcomes are
  inputs, so the model does not capture how bytes become rows, Papa's
  `skipEmptyLines` option, or which row errors it reports.
- Papa's `transformHeader` option is not modelled. It only applies when
  `header: true` is set, and `parseFile` does not set it.
- `cell.value?.toString()` of an Excel value is the abstract string
  `ValueCell.shown`. A cell that `eachCell({ includeEmpty: false })` visits
  with a null value (a merged cell, for instance) takes the `?? ''`
  fallback; the model represents it as `ValueCell("")`, which collects and
  cleans to "". Which cells ExcelJS visits is part of the loaded workbook.
- The `!worksheet` check is modelled as an undefined first slot. ExcelJS's
  `worksheets` getter already drops undefined slots, so a real workbook does
  not reach the `FirstSheetEmpty` branch; the model keeps the branch because
  the source tests for it.
- FileParser.InvalidTimeMessage: the RangeError text of `toISOString()` on an
  Invalid Date is V8's "Invalid time value". Other engines word it
  differently ("invalid date" in SpiderMonkey, "Invalid Date" in
  JavaScriptCore), and the model does not cover them. When the cleaning pass
  fails and what the catch does with the message are engine-independent.
- `Date.toISOString`, `uuidv4` and `new Date()` are parameters: `toIso`,
  the fresh ids, and the time stamps.
- HandleNewChat and HandleDeleteChat require that a fresh id is new. This
  stands in for the uniqueness of `uuidv4`.
- `lastUpdated` and the message time stamps are plain integers. The model
  does not say that later readings are larger.
- `fetch`, `FormData`, `response.json()` and `JSON.parse` are abstract.
  Chart options are represented only by their keys. The request body that
  is sent out is not modelled. A JSON body of `null` has no case of its
  own: destructuring it throws a TypeError into the same catch as a
  rejected `response.json()`, so it is represented as `Unreadable` with
  that error's message.
- Which error message the HTTP layer reports is a parameter, and so is the
  `String(err)` text of a JSON syntax error.
- Js.Lower: lower-cases only ASCII letters. JavaScript's full Unicode case
  mapping is not modelled. For the extensions compared here, the results
  differ only for non-ASCII letters.
- Dafny's `char` is a Unicode scalar value, while JavaScript strings are
  UTF-16 code units. Lengths and indices therefore differ for characters
  outside the Basic Multilingual Plane.
- React's batching and the asynchronous order of state updates are not
  modelled. Each handler is one atomic step on the state, which reads the
  state as it was when the handler started.
- ChatInput.Composer.ChooseFiles: runs `handleFileSelect` to completion
  before the picker's value is reset, while the source resets the value
  right after starting the asynchronous call. Only the cleared value,
  which nothing reads, is affected.
- `canvasCode`, `showChart`'s rendering, the scroll effect, the typing
  indicator's markup and all styling are left out, as are the components
  ChatMessage, ChatHeader, ChartGen, HighchartsChart and CanvasBoard.
- In `ChatStore.App.HandleSubmit`, the composer passes the parsed attachment
  where the store's signature says `File`. The model passes the
  `Attachment`. A `FormData.append` with a non-Blob value is not modelled.
- `fileInputRef.current` is assumed to be set. The null case only skips the
  value reset.
- The backend (app.py, model_inference.py, QLoRA.py, obtener_dataset.py) is
  not part of this model.

## Findings

| source | as written | input that shows it | evidently intended | confidence | as-written member | corrected member |
|---|---|---|---|---|---|---|
| frontend/src/App.tsx:67-75 | `setActiveChat` calls `createInitialChat()` again when the last chat is deleted, so the new active id belongs to a second chat that is thrown away | one chat, delete it, then send "hi": `updateChat` finds no chat with the active id and the message is lost | make the replacement chat active, so its id names a listed chat | high (not executed) | ChatStore.DeleteLastChatLosesNextSubmit | ChatStore.DeleteLastChatThenSubmit |
| frontend/src/components/FileAttachment.tsx:26 | the remove button needs `!isPreview && onRemove`, but the composer passes `isPreview` together with `onRemove`, and messages pass no `onRemove` | stage any file in the composer: the card shows no remove button, and removing the file is impossible | show the button whenever a remove handler is given | medium (not executed) | FileAttachmentView.RemoveNeverShownAsWritten | FileAttachmentView.RemoveShownWhereHandled |
