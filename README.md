# SentinelCheck AI — a verified model of the client workflow

SentinelCheck AI is a browser front end: the user drops or picks a scanned
bank check (image or PDF), the file is read as a data URL, its base64 payload
is sent to an external multimodal model, and the returned extraction and fraud
assessment are shown as a dashboard. This project models, in Dafny, the parts
of that front end that are logic rather than layout:

- `types.dfy` (module `Types`): the workflow phase enum, the risk-level and
  severity unions, and the records `CheckExtraction`, `FraudAlert`,
  `FraudAnalysis`, `AnalysisResult` and `UploadedFile`.
- `workflow.dfy` (module `Workflow`): the `App` component. The class `App`
  holds its four state cells (`status`, `uploadedFile`, `result`, `error`),
  and its methods perform `handleFileSelect` and `reset` one update at a time.
  Each method is tied to the pure transition function `Step`. On top of
  `Step` the module proves trace properties: a protocol invariant and the
  effect of a stale completion. The module also holds the data-URL prefix
  strip of `fileToBase64` and the render-time rules that decide which panels
  are visible (`Render`).
- `results_view.dfy` (module `ResultsView`): the dashboard's display rules.
  These are the risk badge with its fallback, the three colour bands and the
  chart values, the shield threshold, alert items and the empty-list message,
  `DetailRow` formatting, the `$` amount, and the signature and MICR rules.
- `file_upload.dfy` (module `Upload`): the upload surface. The class
  `FileUpload` holds `isDragging`, and the handlers apply the "first file
  only, and only if present" rule. Each handler returns the file it passes to
  `onFileSelect`, or `None` when it does not call it.
- `js_string.dfy` (module `JsString`): `split` with a one-character separator
  and `includes`, proved against a join round trip and against the positional
  definition of a substring.
- `wrappers.dfy` (module `Wrappers`): `Option`. `None` stands for
  `null`/`undefined`.

Some natural expectations of such an application differ from the code. The
model follows the code in each case:
- `split(',')[1]` is `undefined` when the data URL has no comma, and the
  handler stores and sends that value anyway. `UploadedFile.base64` is
  therefore an `Option<string>` here, although `types.ts` declares a string.
- Nothing discards a response that arrives after `reset`. The lemma
  `StaleCompletionAfterReset` shows the resulting COMPLETE state with a result
  but no file. The invariant "a result is held exactly in COMPLETE"
  (`Consistent`) is proved only for event sequences in which every event
  arrives in the phase that enables it (`Protocol`).
- A dropped file reaches the callback whatever its media type. Only the
  picker carries the accept list.
- A reader failure rejects with an event object that has no `message`, so the
  stored error is always the fallback text on that path.

## Model

| member | source | states |
|---|---|---|
| Types.StatusesAreFive | types.ts:1-7 | `AnalysisStatus` has exactly five members (IDLE, UPLOADING, ANALYZING, COMPLETE, ERROR), pairwise distinct, with distinct string values |
| Types.LabelsAreDistinct | types.ts:25-37 | severity is exactly LOW/MEDIUM/HIGH and risk level exactly SAFE/CAUTION/SUSPICIOUS/CRITICAL, each with distinct string values |
| JsString.Split | App.tsx:21 | `split(',')` yields at least one field, no field contains the separator, there is more than one field iff the separator occurs, and joining the fields gives back the input |
| JsString.SplitJoin | App.tsx:21 | splitting a join of separator-free fields gives back exactly those fields (the round trip in the other direction) |
| JsString.Includes | App.tsx:139 | `mimeType.includes('pdf')` as a recursive predicate; its meaning is stated by `JsString.IncludesAt` |
| JsString.IncludesAt | App.tsx:139 | `includes` holds iff the needle occurs at some position of the string |
| Workflow.StripDataUrlPrefix | App.tsx:15-28 | the prefix strip is undefined (None) iff the data URL has no comma; otherwise it returns a field that contains no comma, and `Workflow.StripReturnsSecondField` states which field |
| Workflow.StripReturnsSecondField | App.tsx:21 | for every data URL that contains a comma, written as a comma-free prefix, a comma, a comma-free payload and a rest that is empty or starts with a comma, the strip returns exactly that payload: the second comma-separated field |
| Workflow.StripRecoversPayload | App.tsx:21 | for "prefix,payload" with no comma in either part, the strip returns exactly the payload, without the prefix |
| Workflow.StripStopsAtNextComma | App.tsx:21 | a data URL with three comma-separated fields yields its second field |
| Workflow.ErrorText | App.tsx:53 | the stored error is the thrown message when it is non-empty, and the fixed fallback text when it is empty or missing; it is never blank |
| Workflow.Step | App.tsx:30-63 | the update each event makes to the four cells (App.tsx:31-32, 37-44, 49-50, 53-54, 59-62); its effects are stated by `Workflow.StepEffects`, and each `Workflow.App` method's new state equals it |
| Workflow.StepEffects | App.tsx:30-63 | starting a selection clears the error, sets UPLOADING and leaves file and result alone. Encoding success stores the file with the stripped payload and the file's type and sets ANALYZING. Analysis success stores exactly the returned result and sets COMPLETE. Either failure sets ERROR with the message and leaves file and result alone. Reset empties every cell |
| Workflow.ResetIdempotent | App.tsx:58-63 | reset is enabled in every phase, always yields IDLE with no file, result or error, and a second reset changes nothing |
| Workflow.SelectRun | App.tsx:30-56 | one uninterrupted run of the handler ends in one of four ways. A reader that never settles leaves it in UPLOADING. A read error gives ERROR with the fallback text. Analysis success gives COMPLETE holding exactly the returned result and the stored file. Analysis failure gives ERROR with the message and keeps the stored file |
| Workflow.ConsistentMeaning | App.tsx:9-12 | in a consistent state a result is held exactly in COMPLETE, no file is held in IDLE, and an error is held exactly in ERROR |
| Workflow.StepKeepsConsistent | App.tsx:30-63 | every step the interface enables keeps the four cells consistent |
| Workflow.ProtocolKeepsConsistent | App.tsx:30-63 | any event sequence in which every event arrives in the phase that enables it keeps the cells consistent |
| Workflow.SelectRunFromIdle | App.tsx:118-122 | a handler run started from the idle screen equals the run of its events, respects the protocol, and ends consistent |
| Workflow.StaleCompletionAfterReset | App.tsx:44-50 | with no run guard, a completion arriving after reset yields COMPLETE with the result but no file. The dashboard then shows without a preview, and the cells are inconsistent |
| Workflow.IsPdf | App.tsx:139 | the preview treats the file as a PDF iff its media type includes "pdf"; `Workflow.Render` states which preview follows from it |
| Workflow.PdfTypeDetected | App.tsx:139 | "application/pdf" counts as a PDF, so by `Workflow.Render`'s contract its preview is the PDF placeholder |
| Workflow.NotPdfWithoutD | App.tsx:139 | a media type without the letter 'd' never counts as a PDF |
| Workflow.ImageTypesNotPdf | App.tsx:139 | none of the three image types of the accept list counts as a PDF, so by `Workflow.Render`'s contract each gets the image at its preview URL |
| Workflow.Render | App.tsx:93-166 | the heading reads "Analysis Report" iff COMPLETE. The error banner shows iff ERROR, with the stored message. The upload surface shows iff IDLE. The preview shows iff the phase is UPLOADING, ANALYZING or COMPLETE and a file is held. It holds the PDF placeholder iff the media type includes "pdf", otherwise the image at the preview URL. It offers "Analyze Another" iff COMPLETE and the loading overlay iff ANALYZING. The dashboard shows iff COMPLETE with a result held, and renders that result |
| Workflow.SelectionOnlyInIdle | App.tsx:118-122 | a file can be selected exactly when the upload surface is shown, which is exactly in IDLE |
| Workflow.ScreenPerPhase | App.tsx:93-166 | for consistent cells, each phase shows its own set of panels. IDLE shows the upload surface and UPLOADING shows nothing yet. ANALYZING shows the preview under the loading overlay. COMPLETE shows the preview with "Analyze Another", the dashboard of the held result, and the report heading. ERROR shows only the banner with the stored message |
| Workflow.App.constructor | App.tsx:9-12 | the cells start as IDLE, null, null, null |
| Workflow.App.BeginSelection | App.tsx:31-32 | clears the error and sets UPLOADING, as `Step` on a file selection |
| Workflow.App.EncodingResolved | App.tsx:35-47 | stores the uploaded file and sets ANALYZING. The payload and media type it passes to the analysis call equal the stored `base64` and `mimeType` |
| Workflow.App.EncodingRejected | App.tsx:51-54 | a read error sets ERROR with the fallback text |
| Workflow.App.AnalysisResolved | App.tsx:49-50 | stores the returned result and sets COMPLETE |
| Workflow.App.AnalysisRejected | App.tsx:51-54 | stores the message or the fallback and sets ERROR |
| Workflow.App.Reset | App.tsx:58-63 | every cell back to its initial value, from any phase |
| Workflow.App.HandleFileSelect | App.tsx:30-56 | the whole handler with given outcomes leaves the state `SelectRun` describes. It calls the analysis exactly when the read produced a data URL, with the stored payload and the file's type |
| ResultsView.RiskBadge | components/ResultsView.tsx:22-35 | the badge shows the level it is given |
| ResultsView.RiskBadgeStyles | components/ResultsView.tsx:23-31 | SAFE, CAUTION, SUSPICIOUS and CRITICAL each get their own style (green, yellow, orange, red), and any other string falls back to CAUTION's style |
| ResultsView.BandColour | components/ResultsView.tsx:81-83 | red iff score > 75, amber iff 40 < score <= 75, green iff score <= 40, so every score is in exactly one band |
| ResultsView.BandsMonotone | components/ResultsView.tsx:81-83 | a higher score never gets a less alarming band |
| ResultsView.RiskChart | components/ResultsView.tsx:77-83 | the chart values are the score and 100 minus the score, always summing to 100. They are both non-negative iff the score is in 0-100. The score slice takes the band colour and the rest the grey track |
| ResultsView.ShieldIcon | components/ResultsView.tsx:92 | the alarm shield shows iff the score is above 50 |
| ResultsView.ShieldSplitsAmberBand | components/ResultsView.tsx:81-92 | the shield threshold is separate from the bands: scores 45 and 60 are both amber but get different shields |
| ResultsView.AlertItem | components/ResultsView.tsx:37-59 | an alert's flag and description are shown as given; LOW gets the blue style and check-circle icon, MEDIUM the orange style and triangle icon, HIGH the red style and x-circle icon |
| ResultsView.AlertSeveritiesDistinct | components/ResultsView.tsx:38-48 | two alerts get the same style, and the same icon, iff they have the same severity |
| ResultsView.AlertItems | components/ResultsView.tsx:132 | one alert view per alert, in list order |
| ResultsView.AlertPanelFor | components/ResultsView.tsx:131-135 | an empty list shows only "No active fraud alerts detected."; otherwise one item per alert, in order |
| ResultsView.DetailText | components/ResultsView.tsx:61-71 | a boolean shows as Yes/No, a non-empty string unchanged, an empty or undefined value as the em-dash; never blank |
| ResultsView.AmountNeverPlaceholder | components/ResultsView.tsx:159 | the numeric amount shows as "$" followed by the amount, never the placeholder, even for an empty amount |
| ResultsView.TransactionRows | components/ResultsView.tsx:157-164 | the five transaction rows in order. "Amount (Numeric)" shows "$" and the amount. "Amount (Text)", "Date", "Check Number" and "Memo" each show their field through `DetailRow` formatting. None is blank |
| ResultsView.PartyRows | components/ResultsView.tsx:166-173 | the five party rows in order: "Payee", "Payer", "Bank Name", "Routing Number" and "Account Number". Each shows its field through `DetailRow` formatting, and none is blank |
| ResultsView.SignatureIndicator | components/ResultsView.tsx:178-179 | the dot is green and the answer "Yes" iff the check is signed, otherwise red and "No" |
| ResultsView.MicrBox | components/ResultsView.tsx:181-185 | the MICR line shows, verbatim, iff it is present and non-empty |
| ResultsView.Render | components/ResultsView.tsx:73-191 | the whole dashboard for one result, composed of the members above; what it shows is stated by `ResultsView.RenderShowsResult` |
| ResultsView.RenderShowsResult | components/ResultsView.tsx:73-191 | the dashboard shows the score and the level's own badge. The chart is `RiskChart` of the score: a "Risk" slice holding the score in its band's colour (red above 75, amber above 40, green otherwise) and a grey "Safe" slice holding 100 minus the score. The shield follows the threshold. The reasoning is shown verbatim. The alert area is `AlertPanelFor` of the alerts: the empty message, or each alert's `AlertItem` (flag, description, severity style and icon) in order. The two detail groups are exactly `TransactionRows` and `PartyRows` of the extraction, so all ten fields appear under their captions and none is blank. The signature indicator is `SignatureIndicator` of `isSigned` (green dot and "Yes" iff signed), and the MICR box is `MicrBox` of the MICR line |
| Upload.FirstFile | components/FileUpload.tsx:24-27 | a drop yields a file iff the list is non-empty, and then it is the file at index 0 |
| Upload.PickedFile | components/FileUpload.tsx:31-34 | a picker change yields a file iff the list is present and non-empty, and then it is the file at index 0 |
| Upload.DropIgnoresMediaType | components/FileUpload.tsx:21-28 | a dropped file outside the picker's accept list still reaches the callback; later files are ignored |
| Upload.FileUpload.constructor | components/FileUpload.tsx:9 | the surface starts not dragging |
| Upload.FileUpload.HandleDragOver | components/FileUpload.tsx:11-14 | drag-over sets `isDragging` |
| Upload.FileUpload.HandleDragLeave | components/FileUpload.tsx:16-19 | drag-leave clears `isDragging` |
| Upload.FileUpload.HandleDrop | components/FileUpload.tsx:21-28 | a drop always clears `isDragging`, with or without a file. It calls back at most once, with the first file, and not at all for an empty list |
| Upload.FileUpload.HandleInputChange | components/FileUpload.tsx:30-35 | a picker change calls back with the first file only, and not at all for a null or empty list |

## Left out

- services/geminiService.ts is not part of this model. It wraps a network call to the external model. The analysis step is an outcome given as a parameter (`Analysis`: a result, or a failure with an optional message). Its empty-text check and its unvalidated `JSON.parse` cast are therefore not modelled, and neither is the prompt or the response schema.
- The `FileReader` read is an outcome given as a parameter (`Encoding`). A reader whose result is not a string never settles; the model represents that as the run stopping in UPLOADING. `URL.createObjectURL` is a parameter (`previewUrl`), an opaque token that the code never revokes. `console.error` logging is not modelled.
- The "Copy JSON" button writes to `navigator.clipboard`, which is browser I/O, and is not modelled.
- Asynchronous interleaving is modelled as a sequence of events. The consistency invariant is proved only for sequences in which every event arrives in the phase that enables it, because the code has no guard for the other case.
- `riskScore` is a JavaScript number. It is modelled as an integer, because threshold comparisons and `100 - score` are the only arithmetic on it.
- Layout, text and icons are not modelled: JSX structure, Tailwind class strings, icon components, the recharts drawing, hero copy and the overlay text. Colours, styles and icons are enum tags. `isDragging` only selects a highlight class.
- Types: `riskLevel` and `severity` are closed unions in the model. At run time the unchecked cast lets the service return any string. `RiskBadge` takes a string, so its fallback is modelled. An `AlertItem` with an unknown severity, which gets no style, is not modelled.
- ResultsView.RiskBadge: the record lookup in JavaScript also finds inherited property names such as "constructor". The model treats every string outside the four levels as missing from the record.
- The picker's accept list only filters the browser's file dialog, and the user can switch it to all files. `handleInputChange` checks no media type, so `PickedFile` takes whatever list the browser delivers.
