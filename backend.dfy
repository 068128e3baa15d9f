/**
 * The analysis service: text extraction per content type, the prompt the
 * language model receives, and the validation, dispatch, query fallback and
 * error mapping of its three analysis endpoints. The PDF and DOCX readers,
 * UTF-8 decoding, retrieval (splitting, embedding, vector search, compression)
 * and the language model are the fields of `Services`.
 */
module Backend {
  import opened Common
  import opened Text

  const PDF_TYPE := "application/pdf"
  const DOCX_TYPE := "application/vnd.openxmlformats-officedocument.wordprocessingml.document"
  const PLAIN_TYPE := "text/plain"

  const SUMMARY_PROMPT := "Provide a comprehensive summary of the following text, highlighting the main points and key takeaways:"
  const SENTIMENT_PROMPT := "Analyze the sentiment and emotional tone of the following text, providing specific examples:"
  const KEYWORDS_PROMPT := "Extract and explain the key concepts and important terms from the following text:"
  const ENTITY_PROMPT := "Identify and categorize important entities (people, organizations, locations, etc.) from the following text:"

  const CATEGORY_PROMPTS: map<string, string> := map[
    "summary" := SUMMARY_PROMPT,
    "sentiment" := SENTIMENT_PROMPT,
    "keywords" := KEYWORDS_PROMPT,
    "entity-recognition" := ENTITY_PROMPT]

  const QUERY_LABEL := "\n\nCustom Query: "
  const CONTEXT_LABEL := "\n\nContext: "
  const TEXT_LABEL := "\n\nOriginal Text: "
  const CONTEXT_SEPARATOR := "\n\n"
  const RAG_ERROR_PREFIX := "Error in RAG analysis: "

  const UPLOAD_QUERY := "Analyze the document and provide key insights"
  const MULTIPLE_QUERY := "Comprehensively analyze these documents, highlighting key insights across them"
  const TEXT_QUERY := "Analyze this text and provide key insights"
  const DOCUMENT_SEPARATOR := "\n\n---Document Separator---\n\n"

  /** The libraries the service calls, each of which may raise. */
  datatype Services = Services(
    pdfPages: Bytes -> Outcome<seq<string>>,             // PyPDF2: the text of each page
    docxParagraphs: Bytes -> Outcome<seq<string>>,       // python-docx: the text of each paragraph
    decodeUtf8: Bytes -> Outcome<string>,                // bytes.decode('utf-8')
    retrieve: (string, string) -> Outcome<seq<string>>,  // the passages retrieved from a text for a query
    generate: string -> Outcome<string>)                 // the language model's answer to a prompt

  /** An `HTTPException` raised by the service, or any other exception. */
  datatype Exception = HttpException(status: nat, detail: string) | LibraryError(message: string)

  /** `str(e)`; Starlette renders an `HTTPException` as "<status>: <detail>". */
  function Str(e: Exception): string {
    match e
    case HttpException(status, detail) => NatToDecimal(status) + ": " + detail
    case LibraryError(message) => message
  }

  lemma DecimalOfStatuses()
    ensures NatToDecimal(400) == "400" && NatToDecimal(500) == "500"
  {
    assert NatToDecimal(4) == "4" && NatToDecimal(5) == "5";
    assert NatToDecimal(40) == "40" && NatToDecimal(50) == "50";
  }

  /** The two statuses the service raises, as `str` renders them. */
  lemma StrOfStatus(detail: string)
    ensures Str(HttpException(400, detail)) == "400: " + detail
    ensures Str(HttpException(500, detail)) == "500: " + detail
  {
    DecimalOfStatuses();
  }

  datatype Body =
    | UploadBody(result: string, extractedText: string)
    | MultipleBody(result: string, documentCount: nat)
    | TextBody(result: string)

  /** A JSON reply, or the status and `detail` of an `HTTPException` that left an endpoint. */
  datatype Response = Ok(body: Body) | Error(status: nat, detail: string)

  /** The JSON body of a POST to /analyze_text (`TextAnalysisRequest`). */
  datatype TextAnalysisRequest = TextAnalysisRequest(text: string, query: Option<string>, category: Option<string>)

  predicate StartsWith(s: string, prefix: string) {
    |prefix| <= |s| && s[..|prefix|] == prefix
  }

  // ---------------------------------------------------------------- extraction

  /** What `extract_text_from_pdf` returns: the page texts, each followed by "\n". */
  function PdfText(content: Bytes, svc: Services): Outcome<string> {
    match svc.pdfPages(content)
    case Raised(m) => Raised(m)
    case Done(pages) => Done(Terminated(pages))
  }

  /** What `extract_text_from_docx` returns: the paragraph texts, each followed by "\n". */
  function DocxText(content: Bytes, svc: Services): Outcome<string> {
    match svc.docxParagraphs(content)
    case Raised(m) => Raised(m)
    case Done(paragraphs) => Done(Terminated(paragraphs))
  }

  method ExtractTextFromPdf(content: Bytes, svc: Services) returns (r: Outcome<string>)
    ensures r == PdfText(content, svc)
  {
    match svc.pdfPages(content) {
      case Raised(m) =>
        r := Raised(m);
      case Done(pages) =>
        var text := "";
        for i := 0 to |pages|
          invariant text == Terminated(pages[..i])
        {
          assert pages[..i + 1][..i] == pages[..i];
          text := text + pages[i] + "\n";
        }
        assert pages[..|pages|] == pages;
        r := Done(text);
    }
  }

  method ExtractTextFromDocx(content: Bytes, svc: Services) returns (r: Outcome<string>)
    ensures r == DocxText(content, svc)
  {
    match svc.docxParagraphs(content) {
      case Raised(m) =>
        r := Raised(m);
      case Done(paragraphs) =>
        var text := "";
        for i := 0 to |paragraphs|
          invariant text == Terminated(paragraphs[..i])
        {
          assert paragraphs[..i + 1][..i] == paragraphs[..i];
          text := text + paragraphs[i] + "\n";
        }
        assert paragraphs[..|paragraphs|] == paragraphs;
        r := Done(text);
    }
  }

  function UnsupportedDetail(contentType: string): string {
    "Unsupported file type: " + contentType
  }

  predicate IsSupported(contentType: string) {
    contentType == PDF_TYPE || contentType == DOCX_TYPE || contentType == PLAIN_TYPE
  }

  function Lift(o: Outcome<string>): Result<string, Exception> {
    match o
    case Done(v) => Success(v)
    case Raised(m) => Failure(LibraryError(m))
  }

  /** The text of an uploaded file, chosen by its content type; any other type
    * raises `HTTPException(400)`, a failing library its own exception. */
  function ExtractText(f: FileHandle, svc: Services): (r: Result<string, Exception>)
    ensures !IsSupported(f.contentType) <==> r == Failure(HttpException(400, UnsupportedDetail(f.contentType)))
    ensures IsSupported(f.contentType) && r.Failure? ==> r.error.LibraryError?
  {
    if f.contentType == PDF_TYPE then Lift(PdfText(f.content, svc))
    else if f.contentType == DOCX_TYPE then Lift(DocxText(f.content, svc))
    else if f.contentType == PLAIN_TYPE then Lift(svc.decodeUtf8(f.content))
    else Failure(HttpException(400, UnsupportedDetail(f.contentType)))
  }

  /** The body of the loop over the files of /analyze_multiple: the same
    * dispatch on the content type, calling the extraction loops. */
  method ReadDocument(file: FileHandle, svc: Services) returns (r: Result<string, Exception>)
    ensures r == ExtractText(file, svc)
  {
    if file.contentType == PDF_TYPE {
      var text := ExtractTextFromPdf(file.content, svc);
      r := Lift(text);
    } else if file.contentType == DOCX_TYPE {
      var text := ExtractTextFromDocx(file.content, svc);
      r := Lift(text);
    } else if file.contentType == PLAIN_TYPE {
      r := Lift(svc.decodeUtf8(file.content));
    } else {
      r := Failure(HttpException(400, UnsupportedDetail(file.contentType)));
    }
  }

  // ------------------------------------------------------------------ prompting

  /** The instruction for a category; any other category, or none, gets the summary one. */
  function BasePrompt(category: Option<string>): (p: string)
    ensures p in CATEGORY_PROMPTS.Values
    ensures category.Some? && category.value in CATEGORY_PROMPTS ==> p == CATEGORY_PROMPTS[category.value]
    ensures category.None? || category.value !in CATEGORY_PROMPTS ==> p == SUMMARY_PROMPT
  {
    if category.Some? && category.value in CATEGORY_PROMPTS then CATEGORY_PROMPTS[category.value]
    else CATEGORY_PROMPTS["summary"]
  }

  /** Different categories get different instructions, so the one chosen
    * tells which category was asked for (the summary one also stands for
    * every unknown category). */
  lemma CategoryPromptsDistinct(c1: string, c2: string)
    requires c1 in CATEGORY_PROMPTS && c2 in CATEGORY_PROMPTS && c1 != c2
    ensures BasePrompt(Some(c1)) != BasePrompt(Some(c2))
  {
    assert |SUMMARY_PROMPT| == 102 && |SENTIMENT_PROMPT| == 92;
    assert |KEYWORDS_PROMPT| == 81 && |ENTITY_PROMPT| == 108;
  }

  /** The prompt handed to the language model. */
  function FullPrompt(base: string, query: string, context: string, text: string): (p: string)
    ensures |p| == |base| + |QUERY_LABEL| + |query| + |CONTEXT_LABEL| + |context| + |TEXT_LABEL| + |text|
    ensures StartsWith(p, base)
    ensures p[|p| - |text|..] == text
  {
    base + QUERY_LABEL + query + CONTEXT_LABEL + context + TEXT_LABEL + text
  }

  /** Reads the four fields back out of a prompt, given the lengths of the first three. */
  function PromptFields(p: string, baseLen: nat, queryLen: nat, contextLen: nat): (fields: (string, string, string, string))
    requires baseLen + |QUERY_LABEL| + queryLen + |CONTEXT_LABEL| + contextLen + |TEXT_LABEL| <= |p|
  {
    var q0 := baseLen + |QUERY_LABEL|;
    var c0 := q0 + queryLen + |CONTEXT_LABEL|;
    var t0 := c0 + contextLen + |TEXT_LABEL|;
    (p[..baseLen], p[q0..q0 + queryLen], p[c0..c0 + contextLen], p[t0..])
  }

  /** The prompt layout is exact: instruction, query, context and text sit
    * at fixed offsets between the three labels and can be read back. */
  lemma PromptLayout(base: string, query: string, context: string, text: string)
    ensures var p := FullPrompt(base, query, context, text);
      var q0 := |base| + |QUERY_LABEL|;
      var c0 := q0 + |query| + |CONTEXT_LABEL|;
      var t0 := c0 + |context| + |TEXT_LABEL|;
      && p[|base|..q0] == QUERY_LABEL
      && p[q0 + |query|..c0] == CONTEXT_LABEL
      && p[c0 + |context|..t0] == TEXT_LABEL
      && PromptFields(p, |base|, |query|, |context|) == (base, query, context, text)
  {
    var p := FullPrompt(base, query, context, text);
    var q0 := |base| + |QUERY_LABEL|;
    var c0 := q0 + |query| + |CONTEXT_LABEL|;
    var t0 := c0 + |context| + |TEXT_LABEL|;
    assert p == base + QUERY_LABEL + query + CONTEXT_LABEL + context + TEXT_LABEL + text;
    assert p[..|base|] == base;
    assert p[|base|..q0] == QUERY_LABEL;
    assert p[q0..q0 + |query|] == query;
    assert p[q0 + |query|..c0] == CONTEXT_LABEL;
    assert p[c0..c0 + |context|] == context;
    assert p[c0 + |context|..t0] == TEXT_LABEL;
    assert p[t0..] == text;
  }

  /** The prompt for a text, a query, a category and the retrieved passages. */
  function RagPrompt(text: string, query: string, category: Option<string>, passages: seq<string>): string {
    FullPrompt(BasePrompt(category), query, JoinWith(CONTEXT_SEPARATOR, passages), text)
  }

  /** `analyze_with_rag`: retrieve passages for the query, build the prompt,
    * ask the model; any exception becomes `HTTPException(500)`. */
  function AnalyzeWithRag(text: string, query: string, category: Option<string>, svc: Services): (r: Result<string, Exception>)
    ensures r.Success? ==>
      && svc.retrieve(text, query).Done?
      && svc.generate(RagPrompt(text, query, category, svc.retrieve(text, query).value)) == Done(r.value)
    ensures r.Failure? ==> r.error.HttpException? && r.error.status == 500 && StartsWith(r.error.detail, RAG_ERROR_PREFIX)
    ensures svc.retrieve(text, query).Raised? ==>
      r == Failure(HttpException(500, RAG_ERROR_PREFIX + svc.retrieve(text, query).message))
    ensures svc.retrieve(text, query).Done? ==>
      var answer := svc.generate(RagPrompt(text, query, category, svc.retrieve(text, query).value));
      && (answer.Done? ==> r == Success(answer.value))
      && (answer.Raised? ==> r == Failure(HttpException(500, RAG_ERROR_PREFIX + answer.message)))
  {
    match svc.retrieve(text, query)
    case Raised(m) => Failure(HttpException(500, RAG_ERROR_PREFIX + m))
    case Done(passages) =>
      match svc.generate(RagPrompt(text, query, category, passages))
      case Raised(m) => Failure(HttpException(500, RAG_ERROR_PREFIX + m))
      case Done(answer) => Success(answer)
  }

  // ------------------------------------------------------------------ endpoints

  /** The reply of an endpoint once its analysis has run: an exception leaves
    * through `except Exception` as a 500 carrying `str(e)`. */
  function Reply(analysis: Result<string, Exception>, body: string -> Body): Response {
    match analysis
    case Failure(e) => Error(500, Str(e))
    case Success(a) => Ok(body(a))
  }

  /** POST /upload. */
  function UploadFile(file: Option<FileHandle>, query: Option<string>, category: Option<string>, svc: Services): (r: Response)
    ensures r.Error? ==> r.status == 400 || r.status == 500
    ensures r.Error? && r.status == 400 <==> file.None?
    ensures file.Some? && !IsSupported(file.value.contentType) ==>
      r == Error(500, "400: " + UnsupportedDetail(file.value.contentType))
    ensures r.Ok? ==> file.Some? && r.body.UploadBody? && ExtractText(file.value, svc) == Success(r.body.extractedText)
  {
    if file.None? then Error(400, "No file uploaded")
    else
      match ExtractText(file.value, svc)
      case Failure(e) =>
        StrOfStatus(UnsupportedDetail(file.value.contentType));
        Error(500, Str(e))
      case Success(text) =>
        Reply(AnalyzeWithRag(text, PyOr(query, UPLOAD_QUERY), category, svc), a => UploadBody(a, text))
  }

  /** A successful upload answers with the model's reply to the prompt built
    * from the whole extracted text, the caller's query or the upload's
    * canned one, and the category; the extracted text comes back beside it. */
  lemma UploadAnswer(file: FileHandle, query: Option<string>, category: Option<string>, svc: Services)
    requires UploadFile(Some(file), query, category, svc).Ok?
    ensures var r := UploadFile(Some(file), query, category, svc);
      var text := r.body.extractedText;
      var q := PyOr(query, UPLOAD_QUERY);
      && ExtractText(file, svc) == Success(text)
      && q != ""
      && (query.None? || query.value == "" ==> q == UPLOAD_QUERY)
      && svc.retrieve(text, q).Done?
      && svc.generate(RagPrompt(text, q, category, svc.retrieve(text, q).value)) == Done(r.body.result)
  {
  }

  /** The reply to a present file: a library failure during extraction is a
    * 500 carrying its message; a read file is answered with the analysis
    * of its text and the text itself, or with a 500 whose detail is `str` of
    * the analysis's `HTTPException(500)`. */
  lemma UploadReplies(file: FileHandle, query: Option<string>, category: Option<string>, svc: Services)
    ensures var extracted := ExtractText(file, svc);
      var r := UploadFile(Some(file), query, category, svc);
      && (extracted.Failure? && extracted.error.LibraryError? ==> r == Error(500, extracted.error.message))
      && (extracted.Success? ==>
            var analysis := AnalyzeWithRag(extracted.value, PyOr(query, UPLOAD_QUERY), category, svc);
            && (analysis.Success? ==> r == Ok(UploadBody(analysis.value, extracted.value)))
            && (analysis.Failure? ==> r == Error(500, "500: " + analysis.error.detail)))
  {
    var extracted := ExtractText(file, svc);
    if extracted.Success? {
      var analysis := AnalyzeWithRag(extracted.value, PyOr(query, UPLOAD_QUERY), category, svc);
      if analysis.Failure? {
        StrOfStatus(analysis.error.detail);
      }
    }
  }

  /** The text of every file, in order, or the first exception raised. */
  function ExtractAll(files: seq<FileHandle>, svc: Services): (r: Result<seq<string>, Exception>)
    ensures r.Success? ==> |r.value| == |files|
    ensures r.Success? ==>
      forall i :: 0 <= i < |files| ==> ExtractText(files[i], svc) == Success(r.value[i])
  {
    if files == [] then Success([])
    else
      match ExtractAll(files[..|files| - 1], svc)
      case Failure(e) => Failure(e)
      case Success(texts) =>
        match ExtractText(files[|files| - 1], svc)
        case Failure(e) => Failure(e)
        case Success(t) => Success(texts + [t])
  }

  /** Once a prefix of the files fails, so does the whole batch, with that exception. */
  lemma {:induction false} ExtractAllPrefixFailure(files: seq<FileHandle>, k: nat, svc: Services)
    requires k <= |files| && ExtractAll(files[..k], svc).Failure?
    ensures ExtractAll(files, svc) == ExtractAll(files[..k], svc)
    decreases |files|
  {
    if k < |files| {
      var n := |files|;
      assert files[..n - 1][..k] == files[..k];
      ExtractAllPrefixFailure(files[..n - 1], k, svc);
    } else {
      assert files[..k] == files;
    }
  }

  /** The first file that cannot be read (an unsupported type among them)
    * decides the outcome of the whole batch. */
  lemma {:induction false} FirstFailureAborts(files: seq<FileHandle>, k: nat, svc: Services)
    requires k < |files|
    requires forall i :: 0 <= i < k ==> ExtractText(files[i], svc).Success?
    requires ExtractText(files[k], svc).Failure?
    ensures ExtractAll(files, svc) == Failure(ExtractText(files[k], svc).error)
  {
    PrefixSucceeds(files[..k], svc);
    assert files[..k + 1][..k] == files[..k];
    ExtractAllPrefixFailure(files, k + 1, svc);
  }

  /** A batch whose every file can be read is read in full. */
  lemma {:induction false} PrefixSucceeds(files: seq<FileHandle>, svc: Services)
    requires forall i :: 0 <= i < |files| ==> ExtractText(files[i], svc).Success?
    ensures ExtractAll(files, svc).Success?
  {
    if files != [] {
      PrefixSucceeds(files[..|files| - 1], svc);
    }
  }

  /** POST /analyze_multiple. The loop reads the files in order, stops at the
    * first that cannot be read, and joins the texts with the separator. */
  method AnalyzeMultipleDocuments(files: seq<FileHandle>, query: Option<string>, category: Option<string>, svc: Services)
    returns (r: Response)
    ensures files == [] <==> r == Error(400, "No files uploaded")
    ensures files != [] && ExtractAll(files, svc).Failure? ==> r == Error(500, Str(ExtractAll(files, svc).error))
    ensures files != [] && ExtractAll(files, svc).Success? ==>
      r == Reply(
        AnalyzeWithRag(JoinWith(DOCUMENT_SEPARATOR, ExtractAll(files, svc).value), PyOr(query, MULTIPLE_QUERY), category, svc),
        a => MultipleBody(a, |files|))
    ensures r.Ok? ==> r.body.MultipleBody? && r.body.documentCount == |files|
  {
    if files == [] {
      return Error(400, "No files uploaded");
    }
    var documentsText: seq<string> := [];
    var i := 0;
    while i < |files|
      invariant 0 <= i <= |files|
      invariant ExtractAll(files[..i], svc) == Success(documentsText)
    {
      assert files[..i + 1][..i] == files[..i];
      var read := ReadDocument(files[i], svc);
      if read.Failure? {
        ExtractAllPrefixFailure(files, i + 1, svc);
        return Error(500, Str(read.error));
      }
      documentsText := documentsText + [read.value];
      i := i + 1;
    }
    assert files[..i] == files;
    var combinedText := JoinWith(DOCUMENT_SEPARATOR, documentsText);
    var analysis := AnalyzeWithRag(combinedText, PyOr(query, MULTIPLE_QUERY), category, svc);
    r := Reply(analysis, a => MultipleBody(a, |files|));
  }

  /** POST /analyze_text. The blank-text check sits before the `try`, so its
    * 400 reaches the caller unchanged. */
  function AnalyzeText(request: TextAnalysisRequest, svc: Services): (r: Response)
    ensures r == Error(400, "No text provided") <==> AllSpace(request.text, IsPySpace)
    ensures r.Error? ==> r.status == 400 || r.status == 500
    ensures r.Ok? ==> r.body.TextBody?
  {
    TrimBlank(request.text, IsPySpace);
    if Trim(request.text, IsPySpace) == "" then Error(400, "No text provided")
    else Reply(AnalyzeWithRag(request.text, PyOr(request.query, TEXT_QUERY), request.category, svc), a => TextBody(a))
  }

  /** A non-blank text is answered with the analysis of the text under the
    * request's query, or the canned one, and its category; a failure of
    * that analysis leaves through `except Exception` as a 500 whose detail
    * is `str` of the inner `HTTPException(500)`. */
  lemma TextReplies(request: TextAnalysisRequest, svc: Services)
    requires !AllSpace(request.text, IsPySpace)
    ensures var analysis := AnalyzeWithRag(request.text, PyOr(request.query, TEXT_QUERY), request.category, svc);
      var r := AnalyzeText(request, svc);
      && (analysis.Success? ==> r == Ok(TextBody(analysis.value)))
      && (analysis.Failure? ==> r == Error(500, "500: " + analysis.error.detail))
  {
    TrimBlank(request.text, IsPySpace);
    var analysis := AnalyzeWithRag(request.text, PyOr(request.query, TEXT_QUERY), request.category, svc);
    if analysis.Failure? {
      StrOfStatus(analysis.error.detail);
    }
  }
}
