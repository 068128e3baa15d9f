/**
 * The document-analysis component of the browser front end: its eleven state
 * fields and the handlers that change them, run one after another. What
 * `fetch` produced is passed to a handler as a `FetchOutcome`; a handler that
 * sends a request returns it.
 */
module Frontend {
  import opened Common
  import opened Text

  const CATEGORIES: seq<string> := ["summary", "sentiment", "keywords", "entity-recognition"]

  const CANNOT_CONNECT := "Cannot connect to backend server. Please ensure it's running."
  const EMPTY_TEXT := "Please enter some text to analyze"
  const UPLOAD_ERROR := "Error uploading file: "
  const TEXT_ERROR := "Error analyzing text: "
  const UPLOAD_FAILED := "Upload failed: "
  const ANALYSIS_FAILED := "Analysis failed: "
  const HEALTHY := "healthy"

  /** The fields of a parsed JSON body the component reads; an absent field is `None`. */
  datatype Json = Json(status: Option<string>, detail: Option<string>, result: Option<string>, extractedText: Option<string>)

  const EMPTY_JSON := Json(None, None, None, None)

  /** What `response.json()` gives: a parsed body, or the message of the error it throws. */
  datatype Body = Parsed(json: Json) | Unparsable(message: string)

  /** What `fetch` gave: a rejection with its error message, or a response. */
  datatype FetchOutcome = NetworkFailure(message: string) | Response(ok: bool, statusText: string, body: Body)

  /** The multipart body sent to /upload. */
  datatype UploadRequest = UploadRequest(file: Option<FileHandle>, query: string, category: string)

  /** The JSON body sent to /analyze_text. */
  datatype TextRequest = TextRequest(text: string, query: string, category: string)

  /** How the `try` block of a submission ended: with the value handed to
    * `setAnalysisResult`, or with the message of the error it threw. */
  datatype Completion = Stored(value: Option<string>) | Thrown(message: string)

  /** A snapshot of the component's state; `None` in `file` stands for `null`
    * or `undefined`, in `analysisResult` for `undefined`. */
  datatype UiState = UiState(
    file: Option<FileHandle>,
    text: string,
    analysisResult: Option<string>,
    customQuery: string,
    analysisCategory: string,
    isTextInput: bool,
    isLoading: bool,
    error: string,
    isBackendAvailable: bool,
    isSelectOpen: bool,
    showWarning: bool)

  /** The `useState` initial values. */
  const INITIAL := UiState(None, "", Some(""), "", "summary", false, false, "", false, false, false)

  predicate Truthy(s: Option<string>) {
    s.Some? && s.value != ""
  }

  /** Whether `checkBackendHealth` ends in its `catch`: `fetch` rejected or the body was not JSON. */
  predicate HealthThrows(reply: FetchOutcome) {
    reply.NetworkFailure? || reply.body.Unparsable?
  }

  /** The value `checkBackendHealth` gives `isBackendAvailable`. */
  function HealthReported(reply: FetchOutcome): (up: bool)
    ensures up <==> reply.Response? && reply.body.Parsed? && reply.body.json.status == Some(HEALTHY)
    ensures up ==> !HealthThrows(reply)
  {
    match reply
    case NetworkFailure(_) => false
    case Response(_, _, body) =>
      match body
      case Unparsable(_) => false
      case Parsed(data) => data.status == Some(HEALTHY)
  }

  /** The message thrown for a response that is not ok: `errorData.detail || fallback`,
    * where a body that does not parse counts as `{}`. */
  function FailureMessage(fallback: string, body: Body): (m: string)
    ensures body.Parsed? && Truthy(body.json.detail) ==> m == body.json.detail.value
    ensures !(body.Parsed? && Truthy(body.json.detail)) ==> m == fallback
  {
    var errorData := if body.Parsed? then body.json else EMPTY_JSON;
    if Truthy(errorData.detail) then errorData.detail.value else fallback
  }

  /** How the `try` block of `handleFileDrop` ends for a reply. */
  function UploadCompletion(reply: FetchOutcome): (c: Completion)
    ensures c.Stored? <==> reply.Response? && reply.ok && reply.body.Parsed?
    ensures c.Stored? && Truthy(reply.body.json.result) ==> c.value == reply.body.json.result
    ensures c.Stored? && !Truthy(reply.body.json.result) ==> c.value == reply.body.json.extractedText
    ensures reply.Response? && !reply.ok ==>
      c == Thrown(FailureMessage(UPLOAD_FAILED + reply.statusText, reply.body))
    ensures reply.NetworkFailure? ==> c == Thrown(reply.message)
    ensures reply.Response? && reply.ok && reply.body.Unparsable? ==> c == Thrown(reply.body.message)
  {
    match reply
    case NetworkFailure(m) => Thrown(m)
    case Response(ok, statusText, body) =>
      if !ok then Thrown(FailureMessage(UPLOAD_FAILED + statusText, body))
      else
        match body
        case Unparsable(m) => Thrown(m)
        case Parsed(data) => Stored(JsOr(data.result, data.extractedText))
  }

  /** How the `try` block of `handleTextSubmit` ends for a reply, once the text passed the check. */
  function TextCompletion(reply: FetchOutcome): (c: Completion)
    ensures c.Stored? <==> reply.Response? && reply.ok && reply.body.Parsed?
    ensures c.Stored? ==> c.value == reply.body.json.result
    ensures reply.Response? && !reply.ok ==>
      c == Thrown(FailureMessage(ANALYSIS_FAILED + reply.statusText, reply.body))
    ensures reply.NetworkFailure? ==> c == Thrown(reply.message)
    ensures reply.Response? && reply.ok && reply.body.Unparsable? ==> c == Thrown(reply.body.message)
  {
    match reply
    case NetworkFailure(m) => Thrown(m)
    case Response(ok, statusText, body) =>
      if !ok then Thrown(FailureMessage(ANALYSIS_FAILED + statusText, body))
      else
        match body
        case Unparsable(m) => Thrown(m)
        case Parsed(data) => Stored(data.result)
  }

  class DocumentAnalyzer {
    var file: Option<FileHandle>
    var text: string
    var analysisResult: Option<string>
    var customQuery: string
    var analysisCategory: string
    var isTextInput: bool
    var isLoading: bool
    var error: string
    var isBackendAvailable: bool
    var isSelectOpen: bool
    var showWarning: bool

    /** Every value `isLoading` has been set to, in order. */
    ghost var loadingHistory: seq<bool>

    /** Between handlers no request is loading and the category is one the dropdown offers. */
    ghost predicate Valid()
      reads this
    {
      analysisCategory in CATEGORIES && !isLoading
    }

    ghost function State(): UiState
      reads this
    {
      UiState(file, text, analysisResult, customQuery, analysisCategory,
              isTextInput, isLoading, error, isBackendAvailable, isSelectOpen, showWarning)
    }

    constructor ()
      ensures Valid() && State() == INITIAL && loadingHistory == []
    {
      file := None;
      text := "";
      analysisResult := Some("");
      customQuery := "";
      analysisCategory := "summary";
      isTextInput := false;
      isLoading := false;
      error := "";
      isBackendAvailable := false;
      isSelectOpen := false;
      showWarning := false;
      loadingHistory := [];
    }

    /** `checkBackendHealth`: available exactly when the body's `status` is
      * "healthy" (the HTTP status is not looked at); a thrown error also sets
      * the fixed message, any other body leaves `error` alone. */
    method CheckBackendHealth(reply: FetchOutcome)
      requires Valid()
      modifies this
      ensures Valid() && loadingHistory == old(loadingHistory)
      ensures State() == old(State()).(
        isBackendAvailable := HealthReported(reply),
        error := if HealthThrows(reply) then CANNOT_CONNECT else old(error))
    {
      var thrown := false;
      match reply {
        case NetworkFailure(_) =>
          thrown := true;
        case Response(_, _, body) =>
          match body {
            case Unparsable(_) =>
              thrown := true;
            case Parsed(data) =>
              isBackendAvailable := data.status == Some(HEALTHY);
          }
      }
      if thrown {
        isBackendAvailable := false;
        error := CANNOT_CONNECT;
      }
    }

    /** The start of a submission's `try`: loading is set and the error cleared. */
    method BeginRequest()
      requires Valid()
      modifies this
      ensures loadingHistory == old(loadingHistory) + [true]
      ensures isLoading && error == ""
      ensures file == old(file) && text == old(text) && customQuery == old(customQuery)
      ensures analysisCategory == old(analysisCategory) && isTextInput == old(isTextInput)
      ensures isBackendAvailable == old(isBackendAvailable) && analysisResult == old(analysisResult)
      ensures isSelectOpen == old(isSelectOpen) && showWarning == old(showWarning)
    {
      isLoading := true;
      loadingHistory := loadingHistory + [true];
      error := "";
    }

    /** The end of a submission: the `try` stored its value or the `catch`
      * set `prefix` and the thrown message, and `finally` reset loading. */
    method Settle(prefix: string, outcome: Completion)
      requires analysisCategory in CATEGORIES && error == ""
      modifies this
      ensures Valid()
      ensures loadingHistory == old(loadingHistory) + [false]
      ensures error == (if outcome.Thrown? then prefix + outcome.message else "")
      ensures analysisResult == (if outcome.Stored? then outcome.value else old(analysisResult))
      ensures file == old(file) && text == old(text) && customQuery == old(customQuery)
      ensures analysisCategory == old(analysisCategory) && isTextInput == old(isTextInput)
      ensures isBackendAvailable == old(isBackendAvailable)
      ensures isSelectOpen == old(isSelectOpen) && showWarning == old(showWarning)
    {
      match outcome {
        case Stored(value) => analysisResult := value;
        case Thrown(m) => error := prefix + m;
      }
      isLoading := false;
      loadingHistory := loadingHistory + [false];
    }

    /** `handleFileDrop`: stores the first accepted file before the request,
      * sends it with the trimmed query and the current category, and sets the
      * result or the "Error uploading file: " message; loading is set and
      * then reset whatever the reply. */
    method HandleFileDrop(acceptedFiles: seq<FileHandle>, reply: FetchOutcome) returns (sent: UploadRequest)
      requires Valid()
      modifies this
      ensures Valid()
      ensures loadingHistory == old(loadingHistory) + [true, false]
      ensures sent.file == (if |acceptedFiles| > 0 then Some(acceptedFiles[0]) else None)
      ensures sent.query == Trim(old(customQuery), IsJsSpace) && sent.category == old(analysisCategory)
      ensures file == sent.file
      ensures var c := UploadCompletion(reply);
        && error == (if c.Thrown? then UPLOAD_ERROR + c.message else "")
        && analysisResult == (if c.Stored? then c.value else old(analysisResult))
      ensures text == old(text) && customQuery == old(customQuery) && analysisCategory == old(analysisCategory)
      ensures isTextInput == old(isTextInput) && isBackendAvailable == old(isBackendAvailable)
      ensures isSelectOpen == old(isSelectOpen) && showWarning == old(showWarning)
    {
      BeginRequest();
      var uploadedFile := if |acceptedFiles| > 0 then Some(acceptedFiles[0]) else None;
      file := uploadedFile;
      var trimmed := Trim(customQuery, IsJsSpace);
      sent := UploadRequest(uploadedFile, trimmed, analysisCategory);
      // how the request, the status check and the JSON parse end
      var outcome := UploadCompletion(reply);
      Settle(UPLOAD_ERROR, outcome);
    }

    /** `handleTextSubmit`: blank text (by JavaScript's `trim`) throws before
      * any request; otherwise the text goes out with the trimmed query and the
      * current category, and the reply sets the result or the
      * "Error analyzing text: " message; loading is set and then reset. */
    method HandleTextSubmit(reply: FetchOutcome) returns (sent: Option<TextRequest>)
      requires Valid()
      modifies this
      ensures Valid()
      ensures loadingHistory == old(loadingHistory) + [true, false]
      ensures sent.None? <==> AllSpace(old(text), IsJsSpace)
      ensures sent.Some? ==> sent.value == TextRequest(old(text), Trim(old(customQuery), IsJsSpace), old(analysisCategory))
      ensures var c := if sent.None? then Thrown(EMPTY_TEXT) else TextCompletion(reply);
        && error == (if c.Thrown? then TEXT_ERROR + c.message else "")
        && analysisResult == (if c.Stored? then c.value else old(analysisResult))
      ensures file == old(file) && text == old(text) && customQuery == old(customQuery)
      ensures analysisCategory == old(analysisCategory) && isTextInput == old(isTextInput)
      ensures isBackendAvailable == old(isBackendAvailable)
      ensures isSelectOpen == old(isSelectOpen) && showWarning == old(showWarning)
    {
      BeginRequest();

      var outcome: Completion;
      TrimBlank(text, IsJsSpace);
      if Trim(text, IsJsSpace) == "" {
        outcome := Thrown(EMPTY_TEXT);
        sent := None;
      } else {
        var trimmed := Trim(customQuery, IsJsSpace);
        sent := Some(TextRequest(text, trimmed, analysisCategory));
        // how the request, the status check and the JSON parse end
        outcome := TextCompletion(reply);
      }
      Settle(TEXT_ERROR, outcome);
    }

    /** `handleInputMethodChange`: selects the mode and clears the file, the
      * text, the query, the result and the error, even when the mode is the
      * current one; the category and the flags stay. */
    method HandleInputMethodChange(inputMethod: string)
      requires Valid()
      modifies this
      ensures Valid() && loadingHistory == old(loadingHistory)
      ensures State() == old(State()).(
        isTextInput := inputMethod == "text",
        file := None, text := "", customQuery := "", analysisResult := Some(""), error := "")
    {
      isTextInput := inputMethod == "text";
      file := None;
      text := "";
      customQuery := "";
      analysisResult := Some("");
      error := "";
    }

    /** `handleUploadClick`: raises the warning when no file is stored; nothing else changes. */
    method HandleUploadClick()
      requires Valid()
      modifies this
      ensures Valid() && loadingHistory == old(loadingHistory)
      ensures State() == old(State()).(showWarning := old(file).None? || old(showWarning))
    {
      if file.None? {
        showWarning := true;
      }
    }

    /** `handleCategoryChange`: takes one of the dropdown's categories and closes it. */
    method HandleCategoryChange(category: string)
      requires Valid() && category in CATEGORIES
      modifies this
      ensures Valid() && loadingHistory == old(loadingHistory)
      ensures State() == old(State()).(analysisCategory := category, isSelectOpen := false)
    {
      analysisCategory := category;
      isSelectOpen := false;
    }

    /** `handleCloseWarning`: lowers the warning. */
    method HandleCloseWarning()
      requires Valid()
      modifies this
      ensures Valid() && loadingHistory == old(loadingHistory)
      ensures State() == old(State()).(showWarning := false)
    {
      showWarning := false;
    }

    /** The dropdown button: opens a closed list, closes an open one. */
    method ToggleSelect()
      requires Valid()
      modifies this
      ensures Valid() && loadingHistory == old(loadingHistory)
      ensures State() == old(State()).(isSelectOpen := !old(isSelectOpen))
    {
      isSelectOpen := !isSelectOpen;
    }

    /** The text area's `onChange`. */
    method ChangeText(value: string)
      requires Valid()
      modifies this
      ensures Valid() && loadingHistory == old(loadingHistory)
      ensures State() == old(State()).(text := value)
    {
      text := value;
    }

    /** The Submit button: in text mode it submits the text; in file mode it
      * only warns when no file is stored and sends nothing, since the upload
      * already happened on the drop. */
    method Submit(reply: FetchOutcome) returns (sent: Option<TextRequest>)
      requires Valid()
      modifies this
      ensures Valid()
      ensures !old(isTextInput) ==>
        && sent.None?
        && loadingHistory == old(loadingHistory)
        && State() == old(State()).(showWarning := old(file).None? || old(showWarning))
      ensures old(isTextInput) ==>
        && loadingHistory == old(loadingHistory) + [true, false]
        && (sent.None? <==> AllSpace(old(text), IsJsSpace))
        && (sent.Some? ==> sent.value == TextRequest(old(text), Trim(old(customQuery), IsJsSpace), old(analysisCategory)))
      ensures old(isTextInput) ==>
        var c := if sent.None? then Thrown(EMPTY_TEXT) else TextCompletion(reply);
        && error == (if c.Thrown? then TEXT_ERROR + c.message else "")
        && analysisResult == (if c.Stored? then c.value else old(analysisResult))
        && file == old(file) && text == old(text) && customQuery == old(customQuery)
        && analysisCategory == old(analysisCategory) && isTextInput == old(isTextInput)
        && isBackendAvailable == old(isBackendAvailable)
        && isSelectOpen == old(isSelectOpen) && showWarning == old(showWarning)
    {
      if isTextInput {
        sent := HandleTextSubmit(reply);
      } else {
        HandleUploadClick();
        sent := None;
      }
    }
  }
}
