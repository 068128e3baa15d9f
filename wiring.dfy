/**
 * How a request built by the browser component reaches the service. The
 * component sends an upload as a multipart form holding the file, the query
 * and the category; `upload_file` declares `query` and `category` as plain
 * optional strings, which FastAPI fills from the URL's query string, not from
 * the form. The text path sends a JSON body that binds field by field.
 */
module Wiring {
  import opened Common
  import opened Text
  import Frontend
  import Backend

  /** A multipart POST as the service receives it: the URL's query
    * parameters, the text fields of the form, and the file part. */
  datatype MultipartPost = MultipartPost(urlQuery: map<string, string>, form: map<string, string>, file: Option<FileHandle>)

  /** The arguments `upload_file` is called with. */
  datatype UploadParams = UploadParams(file: Option<FileHandle>, query: Option<string>, category: Option<string>)

  /** The `query` and `category` defaults of `upload_file`. */
  const DEFAULT_CATEGORY := "summary"

  /** The POST the component sends to /upload: nothing in the URL, the query
    * and the category as form fields beside the file. */
  function EncodeUpload(request: Frontend.UploadRequest): (post: MultipartPost)
    ensures post.urlQuery == map[] && post.file == request.file
    ensures post.form.Keys == {"query", "category"}
  {
    MultipartPost(map[], map["query" := request.query, "category" := request.category], request.file)
  }

  function Lookup(parameters: map<string, string>, key: string): (v: Option<string>)
    ensures v.Some? <==> key in parameters
    ensures v.Some? ==> v.value == parameters[key]
  {
    if key in parameters then Some(parameters[key]) else None
  }

  /** The parameters of `upload_file` as declared: the file from the form,
    * `query` and `category` from the URL, with their defaults. */
  function BindUploadAsWritten(post: MultipartPost): (p: UploadParams)
    ensures p.file == post.file
    ensures p.query == Lookup(post.urlQuery, "query")
    ensures "category" in post.urlQuery ==> p.category == Some(post.urlQuery["category"])
    ensures "category" !in post.urlQuery ==> p.category == Some(DEFAULT_CATEGORY)
  {
    var category := Lookup(post.urlQuery, "category");
    UploadParams(post.file, Lookup(post.urlQuery, "query"), if category.Some? then category else Some(DEFAULT_CATEGORY))
  }

  /** Whatever the component sends, the service as written sees no query
    * and the summary category. */
  lemma UploadFormIgnoredAsWritten(request: Frontend.UploadRequest)
    ensures BindUploadAsWritten(EncodeUpload(request)) == UploadParams(request.file, None, Some(DEFAULT_CATEGORY))
  {
    assert "category" !in EncodeUpload(request).urlQuery;
  }

  /** A concrete upload: asking for the sentiment of a text file with a
    * query of its own gets the summary instruction and the canned query. */
  lemma SentimentUploadAnsweredAsSummary(f: FileHandle)
    ensures var p := BindUploadAsWritten(EncodeUpload(Frontend.UploadRequest(Some(f), "Who is angry?", "sentiment")));
      && Backend.BasePrompt(p.category) == Backend.SUMMARY_PROMPT
      && Backend.BasePrompt(p.category) != Backend.SENTIMENT_PROMPT
      && PyOr(p.query, Backend.UPLOAD_QUERY) == Backend.UPLOAD_QUERY
  {
    UploadFormIgnoredAsWritten(Frontend.UploadRequest(Some(f), "Who is angry?", "sentiment"));
    assert |Backend.SUMMARY_PROMPT| != |Backend.SENTIMENT_PROMPT|;
  }

  /** The parameters read from the form fields the component fills, which is
    * what declaring them as `Form(...)` fields would do. */
  function BindUploadFromForm(post: MultipartPost): (p: UploadParams)
    ensures p.file == post.file
    ensures p.query == Lookup(post.form, "query")
    ensures "category" in post.form ==> p.category == Some(post.form["category"])
    ensures "category" !in post.form ==> p.category == Some(DEFAULT_CATEGORY)
  {
    var category := Lookup(post.form, "category");
    UploadParams(post.file, Lookup(post.form, "query"), if category.Some? then category else Some(DEFAULT_CATEGORY))
  }

  /** Read from the form, the upload reaches the service as the component
    * sent it. */
  lemma UploadFormRoundTrip(request: Frontend.UploadRequest)
    ensures BindUploadFromForm(EncodeUpload(request)) == UploadParams(request.file, Some(request.query), Some(request.category))
  {
    var post := EncodeUpload(request);
    assert post.form["query"] == request.query && post.form["category"] == request.category;
  }

  /** End to end, with the form binding: a category the dropdown offers
    * selects its own instruction, a non-blank query is used as typed, and a
    * blank one falls back to the upload's canned query. */
  lemma UploadHonoursChoice(request: Frontend.UploadRequest)
    requires request.category in Frontend.CATEGORIES
    ensures var p := BindUploadFromForm(EncodeUpload(request));
      && Backend.BasePrompt(p.category) == Backend.CATEGORY_PROMPTS[request.category]
      && PyOr(p.query, Backend.UPLOAD_QUERY) == (if request.query == "" then Backend.UPLOAD_QUERY else request.query)
  {
    UploadFormRoundTrip(request);
  }

  /** The JSON body the component sends to /analyze_text, as the service
    * binds it: every field present. */
  function DecodeTextRequest(request: Frontend.TextRequest): (r: Backend.TextAnalysisRequest)
    ensures r.text == request.text
    ensures r.query == Some(request.query) && r.category == Some(request.category)
  {
    Backend.TextAnalysisRequest(request.text, Some(request.query), Some(request.category))
  }

  /** The two blank checks disagree: JavaScript's `trim` does not remove the
    * information separators U+001C..U+001F that Python's `strip` removes,
    * and Python keeps the byte-order mark U+FEFF that JavaScript removes. So
    * a text of one U+001C is sent and answered with 400, and a text of one
    * U+FEFF is refused by the component but would be analysed. */
  lemma BlankChecksDisagree(svc: Backend.Services)
    ensures !AllSpace("\U{1C}", IsJsSpace)
    ensures Backend.AnalyzeText(DecodeTextRequest(Frontend.TextRequest("\U{1C}", "", "summary")), svc)
      == Backend.Error(400, "No text provided")
    ensures AllSpace("\U{FEFF}", IsJsSpace) && !AllSpace("\U{FEFF}", IsPySpace)
  {
    assert "\U{1C}"[0] == '\U{1C}' && !IsJsSpace('\U{1C}');
    assert "\U{FEFF}"[0] == '\U{FEFF}' && !IsPySpace('\U{FEFF}');
    assert AllSpace("\U{1C}", IsPySpace);
  }
}
