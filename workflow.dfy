/** The application's workflow (App.tsx): four state cells, the events that
    `handleFileSelect` and `reset` turn into updates of those cells, and the
    panels each state makes visible.

    The asynchronous handler is cut at its `await`s into events. The file
    reader and the analysis service are not modelled as code: their outcomes
    are parameters. There is no guard against a completion that arrives after
    a reset, exactly as in the source. */
module Workflow {
  import opened Wrappers
  import opened Types
  import JsString
  import ResultsView

  // ----------------------------------------------------------- data URL strip

  /** `reader.result.split(',')[1]`: the second comma-separated field of the
      data URL, or `None` (JavaScript's `undefined`) when the URL has no comma. */
  function StripDataUrlPrefix(dataUrl: string): (payload: Option<string>)
    ensures payload.None? <==> ',' !in dataUrl
    ensures payload.Some? ==> ',' !in payload.value
  {
    var fields := JsString.Split(dataUrl, ',');
    if |fields| > 1 then Some(fields[1]) else None
  }

  /** For "prefix,payload" with no comma in either part, the strip returns
      exactly the payload. */
  lemma StripRecoversPayload(prefix: string, payload: string)
    requires ',' !in prefix && ',' !in payload
    ensures StripDataUrlPrefix(prefix + "," + payload) == Some(payload)
  {
    var fields := [prefix, payload];
    assert JsString.Join(fields, ',') == prefix + "," + payload by {
      assert fields[1..] == [payload];
    }
    JsString.SplitJoin(fields, ',');
  }

  /** For every data URL that contains a comma: written as a comma-free prefix,
      a comma, a comma-free payload and a rest that is empty or starts with a
      comma, the strip returns exactly that payload, the second comma-separated
      field. */
  lemma StripReturnsSecondField(prefix: string, payload: string, rest: string)
    requires ',' !in prefix && ',' !in payload
    requires rest == [] || rest[0] == ','
    ensures StripDataUrlPrefix(prefix + "," + payload + rest) == Some(payload)
  {
    if rest == [] {
      assert prefix + "," + payload + rest == prefix + "," + payload;
      StripRecoversPayload(prefix, payload);
    } else {
      var tail := JsString.Split(rest[1..], ',');
      var fields := [prefix, payload] + tail;
      assert fields[1..] == [payload] + tail;
      assert fields[1..][1..] == tail;
      assert JsString.Join(fields[1..], ',') == payload + [','] + JsString.Join(tail, ',');
      assert rest == [','] + rest[1..];
      assert JsString.Join(fields, ',') == prefix + "," + payload + rest;
      assert forall i :: 2 <= i < |fields| ==> fields[i] == tail[i - 2];
      JsString.SplitJoin(fields, ',');
    }
  }

  /** A three-field data URL yields its second field. */
  lemma StripStopsAtNextComma(prefix: string, payload: string, tail: string)
    requires ',' !in prefix && ',' !in payload && ',' !in tail
    ensures StripDataUrlPrefix(prefix + "," + payload + "," + tail) == Some(payload)
  {
    var fields := [prefix, payload, tail];
    assert JsString.Join(fields, ',') == prefix + "," + payload + "," + tail by {
      assert fields[1..] == [payload, tail];
      assert fields[1..][1..] == [tail];
      assert JsString.Join(fields[1..], ',') == payload + "," + tail;
      assert JsString.Join(fields, ',') == prefix + "," + (payload + "," + tail);
    }
    JsString.SplitJoin(fields, ',');
  }

  // ------------------------------------------------------------------- state

  /** The four state cells (App.tsx:9-12). */
  datatype AppState = AppState(
    status: AnalysisStatus,
    uploadedFile: Option<UploadedFile>,
    result: Option<AnalysisResult>,
    error: Option<string>)

  /** The initial values of the cells, and what `reset` restores. */
  const Initial: AppState := AppState(Idle, None, None, None)

  const FallbackError: string := "Failed to analyze the check. Please try again."

  /** `err.message || fallback`: the thrown message when it is a non-empty
      string, the fixed text when it is empty or missing. Never blank. */
  function ErrorText(message: Option<string>): (text: string)
    ensures text != ""
    ensures message.Some? && message.value != "" ==> text == message.value
    ensures message.None? || message == Some("") ==> text == FallbackError
  {
    if message.Some? && message.value != "" then message.value else FallbackError
  }

  /** The arguments of the analysis call: the encoded payload and the media type. */
  datatype AnalysisRequest = AnalysisRequest(payload: Option<string>, mimeType: string)

  /** The steps `handleFileSelect` and `reset` take, one per state update
      between two `await`s. A reader failure rejects with an event object that
      has no `message`, so it carries none. */
  datatype Event =
    | FileSelected(file: File)
    | EncodingSucceeded(file: File, dataUrl: string, previewUrl: string)
    | EncodingFailed
    | AnalysisSucceeded(data: AnalysisResult)
    | AnalysisFailed(message: Option<string>)
    | ResetPressed

  /** The effect of one event on the four cells. */
  function Step(s: AppState, e: Event): AppState {
    match e
    case FileSelected(_) => s.(error := None, status := Uploading)
    case EncodingSucceeded(file, dataUrl, previewUrl) =>
      s.(uploadedFile := Some(UploadedFile(file, previewUrl, StripDataUrlPrefix(dataUrl), file.mimeType)),
         status := Analyzing)
    case EncodingFailed => s.(error := Some(ErrorText(None)), status := Error)
    case AnalysisSucceeded(data) => s.(result := Some(data), status := Complete)
    case AnalysisFailed(message) => s.(error := Some(ErrorText(message)), status := Error)
    case ResetPressed => Initial
  }

  /** What each step does to the cells and what it leaves alone. */
  lemma StepEffects(s: AppState, e: Event)
    ensures var t := Step(s, e);
      && (e.FileSelected? ==>
            t.status == Uploading && t.error == None && t.uploadedFile == s.uploadedFile && t.result == s.result)
      && (e.EncodingSucceeded? ==>
            && t.status == Analyzing && t.uploadedFile.Some?
            && t.uploadedFile.value.file == e.file
            && t.uploadedFile.value.previewUrl == e.previewUrl
            && t.uploadedFile.value.base64 == StripDataUrlPrefix(e.dataUrl)
            && t.uploadedFile.value.mimeType == e.file.mimeType
            && t.result == s.result && t.error == s.error)
      && (e.AnalysisSucceeded? ==>
            t.status == Complete && t.result == Some(e.data) && t.uploadedFile == s.uploadedFile && t.error == s.error)
      && (e.EncodingFailed? ==>
            t.status == Error && t.error == Some(FallbackError) && t.uploadedFile == s.uploadedFile && t.result == s.result)
      && (e.AnalysisFailed? ==>
            t.status == Error && t.error == Some(ErrorText(e.message)) &&
            t.uploadedFile == s.uploadedFile && t.result == s.result)
      && (e.ResetPressed? ==>
            t.status == Idle && t.uploadedFile == None && t.result == None && t.error == None)
  {
  }

  /** `reset` works from every phase, always lands in the initial state, and a
      second reset changes nothing. */
  lemma ResetIdempotent(s: AppState)
    ensures Step(s, ResetPressed) == Initial
    ensures Step(Step(s, ResetPressed), ResetPressed) == Step(s, ResetPressed)
    ensures Enabled(s, ResetPressed)
  {
  }

  // ---------------------------------------------------------- whole handler

  /** How the file read settles: with a data URL, with a read error, or never
      (the reader produced something other than a string). */
  datatype Encoding = Encoded(dataUrl: string) | ReadFailed | NotAString

  /** How the analysis call settles. */
  datatype Analysis = Analysed(data: AnalysisResult) | Rejected(message: Option<string>)

  /** The events one uninterrupted run of `handleFileSelect` produces. */
  function SelectEvents(file: File, previewUrl: string, enc: Encoding, ana: Analysis): seq<Event> {
    match enc
    case NotAString => [FileSelected(file)]
    case ReadFailed => [FileSelected(file), EncodingFailed]
    case Encoded(url) =>
      [FileSelected(file), EncodingSucceeded(file, url, previewUrl)] +
      (match ana
       case Analysed(data) => [AnalysisSucceeded(data)]
       case Rejected(message) => [AnalysisFailed(message)])
  }

  /** The cells after one uninterrupted run of `handleFileSelect`, by outcome. */
  function SelectRun(s: AppState, file: File, previewUrl: string, enc: Encoding, ana: Analysis): (t: AppState)
    ensures enc.NotAString? ==>
      t.status == Uploading && t.error == None && t.uploadedFile == s.uploadedFile && t.result == s.result
    ensures enc.ReadFailed? ==>
      t.status == Error && t.error == Some(FallbackError) && t.uploadedFile == s.uploadedFile && t.result == s.result
    ensures enc.Encoded? ==>
      t.uploadedFile == Some(UploadedFile(file, previewUrl, StripDataUrlPrefix(enc.dataUrl), file.mimeType))
    ensures enc.Encoded? && ana.Analysed? ==>
      t.status == Complete && t.result == Some(ana.data) && t.error == None
    ensures enc.Encoded? && ana.Rejected? ==>
      t.status == Error && t.error == Some(ErrorText(ana.message)) && t.result == s.result
  {
    var started := Step(s, FileSelected(file));
    match enc
    case NotAString => started
    case ReadFailed => Step(started, EncodingFailed)
    case Encoded(dataUrl) =>
      var encoded := Step(started, EncodingSucceeded(file, dataUrl, previewUrl));
      match ana
      case Analysed(data) => Step(encoded, AnalysisSucceeded(data))
      case Rejected(message) => Step(encoded, AnalysisFailed(message))
  }

  // ------------------------------------------------------------------ traces

  /** The cells after a sequence of events. */
  function Run(s: AppState, events: seq<Event>): AppState
    decreases |events|
  {
    if events == [] then s else Run(Step(s, events[0]), events[1..])
  }

  /** The phase in which each event is expected: a file can be chosen only
      while the upload surface is shown, the reader settles only while
      uploading, the service only while analysing, and the header resets in
      every phase. Which run an event belongs to is not tracked. */
  predicate Enabled(s: AppState, e: Event) {
    match e
    case FileSelected(_) => UploadSurfaceShown(s)
    case EncodingSucceeded(_, _, _) => s.status == Uploading
    case EncodingFailed => s.status == Uploading
    case AnalysisSucceeded(_) => s.status == Analyzing
    case AnalysisFailed(_) => s.status == Analyzing
    case ResetPressed => true
  }

  /** Every event of the sequence is enabled when it happens. */
  predicate Protocol(s: AppState, events: seq<Event>)
    decreases |events|
  {
    events == [] || (Enabled(s, events[0]) && Protocol(Step(s, events[0]), events[1..]))
  }

  /** Which cells are filled in each phase, for sequences in which every event
      arrives in the phase that enables it. */
  predicate Consistent(s: AppState) {
    match s.status
    case Idle => s.uploadedFile.None? && s.result.None? && s.error.None?
    case Uploading => s.uploadedFile.None? && s.result.None? && s.error.None?
    case Analyzing => s.uploadedFile.Some? && s.result.None? && s.error.None?
    case Complete => s.uploadedFile.Some? && s.result.Some? && s.error.None?
    case Error => s.result.None? && s.error.Some? && s.error.value != ""
  }

  /** In a consistent state a result is held exactly in COMPLETE, and no file
      is held in IDLE. */
  lemma ConsistentMeaning(s: AppState)
    requires Consistent(s)
    ensures s.result.Some? <==> s.status == Complete
    ensures s.status == Idle ==> s.uploadedFile.None?
    ensures s.status == Error <==> s.error.Some?
  {
  }

  /** Every enabled step keeps the cells consistent. */
  lemma StepKeepsConsistent(s: AppState, e: Event)
    requires Consistent(s) && Enabled(s, e)
    ensures Consistent(Step(s, e))
  {
  }

  /** A run that follows the protocol keeps the cells consistent. */
  lemma {:induction false} ProtocolKeepsConsistent(s: AppState, events: seq<Event>)
    requires Consistent(s) && Protocol(s, events)
    ensures Consistent(Run(s, events))
    decreases |events|
  {
    if events != [] {
      StepKeepsConsistent(s, events[0]);
      ProtocolKeepsConsistent(Step(s, events[0]), events[1..]);
    }
  }

  /** Running a sequence that starts with `e` is stepping `e`, then running the rest. */
  lemma RunCons(s: AppState, e: Event, rest: seq<Event>)
    ensures Run(s, [e] + rest) == Run(Step(s, e), rest)
    ensures Protocol(s, [e] + rest) <==> Enabled(s, e) && Protocol(Step(s, e), rest)
  {
  }

  /** One run of `handleFileSelect` started from the idle screen is the run of
      its events, follows the protocol, and ends consistent: COMPLETE holds the
      service's result, ERROR holds a message. */
  lemma SelectRunFromIdle(s: AppState, file: File, previewUrl: string, enc: Encoding, ana: Analysis)
    requires Consistent(s) && s.status == Idle
    ensures Run(s, SelectEvents(file, previewUrl, enc, ana)) == SelectRun(s, file, previewUrl, enc, ana)
    ensures Protocol(s, SelectEvents(file, previewUrl, enc, ana))
    ensures Consistent(SelectRun(s, file, previewUrl, enc, ana))
  {
    var events := SelectEvents(file, previewUrl, enc, ana);
    var t1 := Step(s, FileSelected(file));
    match enc
    case NotAString =>
      RunCons(s, FileSelected(file), []);
    case ReadFailed =>
      RunCons(t1, EncodingFailed, []);
      RunCons(s, FileSelected(file), [EncodingFailed]);
    case Encoded(url) =>
      var t2 := Step(t1, EncodingSucceeded(file, url, previewUrl));
      var last := events[2];
      assert events == [FileSelected(file)] + ([EncodingSucceeded(file, url, previewUrl)] + [last]);
      RunCons(t2, last, []);
      RunCons(t1, EncodingSucceeded(file, url, previewUrl), [last]);
      RunCons(s, FileSelected(file), [EncodingSucceeded(file, url, previewUrl)] + [last]);
    ProtocolKeepsConsistent(s, events);
  }

  /** Without a run identifier, a completion that arrives after a reset still
      stores its result and moves to COMPLETE, with no file held: the dashboard
      shows without a preview, and the cells are no longer consistent. */
  lemma StaleCompletionAfterReset(file: File, dataUrl: string, previewUrl: string, data: AnalysisResult)
    ensures var t := Run(Initial, [FileSelected(file), EncodingSucceeded(file, dataUrl, previewUrl),
                                   ResetPressed, AnalysisSucceeded(data)]);
      && t == AppState(Complete, None, Some(data), None)
      && !Consistent(t)
      && Render(t).dashboard == Some(ResultsView.Render(data))
      && Render(t).preview.None?
  {
    var events := [FileSelected(file), EncodingSucceeded(file, dataUrl, previewUrl), ResetPressed, AnalysisSucceeded(data)];
    var t1 := Step(Initial, events[0]);
    var t2 := Step(t1, events[1]);
    var t3 := Step(t2, events[2]);
    var t4 := Step(t3, events[3]);
    assert events[1..][1..][1..][1..] == [];
    assert Run(t4, []) == t4;
    assert Run(Initial, events) == Run(t1, events[1..]) == Run(t2, events[1..][1..]) == Run(t3, events[1..][1..][1..]);
  }

  // ------------------------------------------------------------------ views

  /** The upload surface shows only in IDLE (App.tsx:118). */
  predicate UploadSurfaceShown(s: AppState) {
    s.status == Idle
  }

  /** The error banner shows only in ERROR (App.tsx:102). */
  predicate ErrorBannerShown(s: AppState) {
    s.status == Error
  }

  /** The preview shows while uploading, analysing or complete, once a file is held (App.tsx:124). */
  predicate PreviewShown(s: AppState) {
    (s.status == Analyzing || s.status == Complete || s.status == Uploading) && s.uploadedFile.Some?
  }

  /** The dashboard shows in COMPLETE with a result held (App.tsx:164). */
  predicate ResultsShown(s: AppState) {
    s.status == Complete && s.result.Some?
  }

  /** The preview treats the file as a PDF when its media type mentions "pdf" (App.tsx:139). */
  predicate IsPdf(mimeType: string) {
    JsString.Includes(mimeType, "pdf")
  }

  /** The PDF media type of the accept list gets the PDF placeholder. */
  lemma PdfTypeDetected()
    ensures IsPdf("application/pdf")
  {
    var pdf := "application/pdf";
    assert pdf[12..15] == "pdf";
    assert JsString.OccursAt(pdf, "pdf", 12);
    JsString.IncludesAt(pdf, "pdf");
  }

  /** A media type that mentions "pdf" contains each of its letters, 'd' among them. */
  lemma PdfTypeHasLetterD(mimeType: string)
    ensures IsPdf(mimeType) ==> 'd' in mimeType
  {
    JsString.IncludesAt(mimeType, "pdf");
    if IsPdf(mimeType) {
      var i :| JsString.OccursAt(mimeType, "pdf", i);
      assert mimeType[i + 1] == mimeType[i..i + 3][1];
    }
  }

  /** A media type without the letter 'd' cannot contain "pdf", so it never
      counts as a PDF. */
  lemma NotPdfWithoutD(mimeType: string)
    requires 'd' !in mimeType
    ensures !IsPdf(mimeType)
  {
    PdfTypeHasLetterD(mimeType);
  }

  /** None of the three image types of the accept list counts as a PDF. */
  lemma ImageTypesNotPdf()
    ensures !IsPdf("image/jpeg") && !IsPdf("image/png") && !IsPdf("image/webp")
  {
    var jpeg, png, webp := "image/jpeg", "image/png", "image/webp";
    assert 'd' !in jpeg && 'd' !in png && 'd' !in webp;
    NotPdfWithoutD(jpeg);
    NotPdfWithoutD(png);
    NotPdfWithoutD(webp);
  }

  datatype PreviewKind = PdfPlaceholder | ImagePreview(url: string)

  /** The input-document card: its content, the "Analyze Another" button and the loading overlay. */
  datatype Preview = Preview(kind: PreviewKind, analyzeAnother: bool, loadingOverlay: bool)

  /** What the page shows for a state. */
  datatype Screen = Screen(
    heading: string,
    errorBanner: Option<string>,
    uploadSurface: bool,
    preview: Option<Preview>,
    dashboard: Option<ResultsView.Dashboard>)

  /** The page for a state: heading, banner, upload surface, preview card and
      dashboard. The preview card holds the PDF placeholder when the held file's
      media type mentions "pdf" and the image at its preview URL otherwise; it
      offers "Analyze Another" only when complete and the loading overlay only
      while analysing. */
  function Render(s: AppState): (v: Screen)
    ensures v.heading == if s.status == Complete then "Analysis Report" else "Check Extraction & Fraud Screen"
    ensures v.errorBanner.Some? <==> ErrorBannerShown(s)
    ensures v.errorBanner.Some? ==> v.errorBanner.value == s.error.GetOr("")
    ensures v.uploadSurface <==> UploadSurfaceShown(s)
    ensures v.preview.Some? <==> PreviewShown(s)
    ensures v.preview.Some? ==>
      v.preview.value.kind ==
        (if IsPdf(s.uploadedFile.value.mimeType) then PdfPlaceholder
         else ImagePreview(s.uploadedFile.value.previewUrl))
    ensures v.preview.Some? ==>
      (v.preview.value.analyzeAnother <==> s.status == Complete) &&
      (v.preview.value.loadingOverlay <==> s.status == Analyzing)
    ensures v.dashboard.Some? <==> ResultsShown(s)
    ensures v.dashboard.Some? ==> v.dashboard.value == ResultsView.Render(s.result.value)
  {
    Screen(
      if s.status == Complete then "Analysis Report" else "Check Extraction & Fraud Screen",
      if ErrorBannerShown(s) then Some(s.error.GetOr("")) else None,
      UploadSurfaceShown(s),
      if PreviewShown(s) then
        var f := s.uploadedFile.value;
        Some(Preview(if IsPdf(f.mimeType) then PdfPlaceholder else ImagePreview(f.previewUrl),
                     s.status == Complete, s.status == Analyzing))
      else None,
      if ResultsShown(s) then Some(ResultsView.Render(s.result.value)) else None)
  }

  /** A new file can be chosen exactly when the upload surface is on screen,
      which is exactly in IDLE. */
  lemma SelectionOnlyInIdle(s: AppState, file: File)
    ensures Enabled(s, FileSelected(file)) <==> Render(s).uploadSurface
    ensures Render(s).uploadSurface <==> s.status == Idle
  {
  }

  /** What each phase shows when the cells are consistent: the upload surface
      in IDLE, nothing yet while uploading, the preview under its overlay while
      analysing, the preview and the dashboard when complete, and the banner
      with the message on error. */
  lemma ScreenPerPhase(s: AppState)
    requires Consistent(s)
    ensures var v := Render(s);
      && (s.status != Complete ==> v.heading == "Check Extraction & Fraud Screen")
      && (s.status == Idle ==>
            v.uploadSurface && v.errorBanner.None? && v.preview.None? && v.dashboard.None?)
      && (s.status == Uploading ==>
            !v.uploadSurface && v.errorBanner.None? && v.preview.None? && v.dashboard.None?)
      && (s.status == Analyzing ==>
            !v.uploadSurface && v.errorBanner.None? && v.dashboard.None? &&
            v.preview.Some? && v.preview.value.loadingOverlay && !v.preview.value.analyzeAnother)
      && (s.status == Complete ==>
            !v.uploadSurface && v.errorBanner.None? &&
            v.preview.Some? && v.preview.value.analyzeAnother && !v.preview.value.loadingOverlay &&
            v.dashboard == Some(ResultsView.Render(s.result.value)) && v.heading == "Analysis Report")
      && (s.status == Error ==>
            !v.uploadSurface && v.preview.None? && v.dashboard.None? && v.errorBanner == s.error)
  {
  }

  // ------------------------------------------------------------ the component

  /** The component's four state cells, updated in place by the handlers. */
  class App {
    var status: AnalysisStatus
    var uploadedFile: Option<UploadedFile>
    var result: Option<AnalysisResult>
    var error: Option<string>

    /** The cells as one value. */
    function State(): AppState
      reads this
    {
      AppState(status, uploadedFile, result, error)
    }

    constructor ()
      ensures State() == Initial
    {
      status := Idle;
      uploadedFile := None;
      result := None;
      error := None;
    }

    /** The start of `handleFileSelect`: clear the error, move to UPLOADING. */
    method BeginSelection(file: File)
      modifies this
      ensures State() == Step(old(State()), FileSelected(file))
    {
      error := None;
      status := Uploading;
    }

    /** The reader resolved: store the file with its stripped payload, move to
        ANALYZING, and return the arguments of the analysis call, which are the
        stored payload and media type. */
    method EncodingResolved(file: File, dataUrl: string, previewUrl: string) returns (request: AnalysisRequest)
      modifies this
      ensures State() == Step(old(State()), EncodingSucceeded(file, dataUrl, previewUrl))
      ensures uploadedFile.Some?
      ensures request == AnalysisRequest(uploadedFile.value.base64, uploadedFile.value.mimeType)
    {
      var base64 := StripDataUrlPrefix(dataUrl);
      uploadedFile := Some(UploadedFile(file, previewUrl, base64, file.mimeType));
      status := Analyzing;
      request := AnalysisRequest(base64, file.mimeType);
    }

    /** The reader rejected: the fallback message and ERROR. */
    method EncodingRejected()
      modifies this
      ensures State() == Step(old(State()), EncodingFailed)
    {
      error := Some(ErrorText(None));
      status := Error;
    }

    /** The service answered: store its result, move to COMPLETE. */
    method AnalysisResolved(data: AnalysisResult)
      modifies this
      ensures State() == Step(old(State()), AnalysisSucceeded(data))
    {
      result := Some(data);
      status := Complete;
    }

    /** The service failed: its message (or the fallback) and ERROR. */
    method AnalysisRejected(message: Option<string>)
      modifies this
      ensures State() == Step(old(State()), AnalysisFailed(message))
    {
      error := Some(ErrorText(message));
      status := Error;
    }

    /** `reset`: every cell back to its initial value. */
    method Reset()
      modifies this
      ensures State() == Initial
    {
      status := Idle;
      uploadedFile := None;
      result := None;
      error := None;
    }

    /** `handleFileSelect` run to its end with the given outcomes. Returns the
        analysis call's arguments when the call is made. */
    method HandleFileSelect(file: File, previewUrl: string, enc: Encoding, ana: Analysis)
      returns (request: Option<AnalysisRequest>)
      modifies this
      ensures State() == SelectRun(old(State()), file, previewUrl, enc, ana)
      ensures request.Some? <==> enc.Encoded?
      ensures request.Some? ==>
        uploadedFile.Some? && request.value == AnalysisRequest(uploadedFile.value.base64, file.mimeType)
    {
      BeginSelection(file);
      request := None;
      match enc
      case NotAString =>
      case ReadFailed =>
        EncodingRejected();
      case Encoded(dataUrl) =>
        var req := EncodingResolved(file, dataUrl, previewUrl);
        request := Some(req);
        ghost var stored := uploadedFile;
        match ana
        case Analysed(data) =>
          AnalysisResolved(data);
        case Rejected(message) =>
          AnalysisRejected(message);
        assert uploadedFile == stored;
    }
  }
}
