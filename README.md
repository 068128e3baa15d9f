# Document analyzer: a verified model

This project models the two halves of a small document-analysis application.

- **The browser component `DocumentAnalyzer`** holds eleven pieces of state: the dropped file, the typed text, the analysis result, the custom query, the category, the input mode, the loading flag, the error message, backend availability, the open dropdown and the warning. Its handlers health-check the service, upload a dropped file, submit typed text, switch the input mode, pick a category and raise or lower the "no file" warning. It is modelled as the class `Frontend.DocumentAnalyzer`, with one method per handler. What `fetch` produced is a `FetchOutcome` parameter: a network failure, or a response with `ok`, `statusText` and a body that parses to JSON or does not. The request a handler sends is its result. A ghost field `loadingHistory` records every value the loading flag is set to, so the contracts can state that loading is set and then always reset.
- **The analysis service** covers four parts:
  - the page and paragraph accumulation loops of the PDF and DOCX extractors;
  - the category prompt and the exact prompt layout;
  - the query fallbacks;
  - the three endpoints' validation, content-type dispatch and exception mapping.

  This is module `Backend`. The parsing libraries, the retrieval pipeline and the language model are the functions of a `Services` value. Each may raise.
- **Module `Wiring`** connects the two. It shows how the component's requests are bound by the service's parameter declarations.
- **Module `Text`** holds the string semantics both sides rely on:
  - JavaScript's `trim` and Python's `strip`, each with its own whitespace set;
  - JavaScript `||` and Python `or`;
  - Python's `join`;
  - newline-terminated accumulation;
  - `str` of a natural number.

Some details of the model follow the code:

- The service renders an `HTTPException` caught by `except Exception` as `str(e)`, which is "status: detail". So an unsupported upload type reaches the client as status 500 with detail "400: Unsupported file type: …".
- `customQuery.trim() || ""` is the trimmed query itself, because `||` only replaces an empty string with another empty string.
- The health check looks only at the body's `status` field, never at the HTTP status.
- The component holds one file. No handler checks the loading flag before starting.

## Model

| member | source | states |
|---|---|---|
| Text.TrimBlank | frontend/src/components/DocumentAnalyzer.js:84-86 | trimming gives the empty string exactly when every character is whitespace; otherwise the result starts and ends with a non-space |
| Text.TrimBoundsSpec | frontend/src/components/DocumentAnalyzer.js:57 | the trim bounds cut off a whitespace-only prefix and suffix and stop at non-spaces |
| Text.SkipSpacesStops | frontend/src/components/DocumentAnalyzer.js:57 | the forward scan passes only spaces and stops at a non-space or the end |
| Text.SkipSpacesBackStops | frontend/src/components/DocumentAnalyzer.js:57 | the backward scan passes only spaces and stops after a non-space or at its lower bound |
| Text.TrimIsSlice | frontend/src/components/DocumentAnalyzer.js:57 | the trimmed string is the slice of the input between a blank prefix and a blank suffix |
| Text.TrimIdempotent | frontend/src/components/DocumentAnalyzer.js:93 | trimming an already trimmed string changes nothing |
| Text.JsOr | frontend/src/components/DocumentAnalyzer.js:71 | JavaScript's or on optional strings gives the left operand when it is a non-empty string, the right operand otherwise (so `undefined` or the empty string yields the right side), and is truthy exactly when either operand is |
| Text.PyOr | backend/app.py:140 | `q or fallback` is `q` when it is present and non-empty, otherwise the fallback; a non-empty fallback gives a non-empty result |
| Text.JoinLength | backend/app.py:178 | a join of n parts is as long as the parts plus n-1 separators |
| Text.JoinSplit | backend/app.py:178 | splitting the parts at any point splits the join at one separator, so the parts appear in order |
| Text.TerminatedCons | backend/app.py:63-64 | the accumulated text is the first piece, a newline, then the accumulation of the rest |
| Text.TerminatedNewlines | backend/app.py:62-65 | the accumulated text has one extra character and exactly one extra "\n" per piece |
| Text.LinesOfTerminated | backend/app.py:63-64 | when no piece holds a newline, cutting the accumulated text at its newlines gives back the pieces in order |
| Text.NewlineIndex | backend/app.py:62-65 | helper of the read-back used by `Text.LinesOfTerminated`: the index found is the first newline in the string, or its length |
| Text.NatToDecimalRoundTrip | backend/app.py:149 | the decimal rendering of a status reads back as the same number |
| Backend.DecimalOfStatuses | backend/app.py:149 | statuses 400 and 500 render as "400" and "500" |
| Backend.StrOfStatus | backend/app.py:148-149 | `str` of an `HTTPException` with status 400 or 500 is "400: " or "500: " followed by the detail |
| Backend.ExtractTextFromPdf | backend/app.py:59-65 | the loop returns every page text followed by "\n", in order, and passes a parser failure through |
| Backend.ExtractTextFromDocx | backend/app.py:67-73 | the loop returns every paragraph text followed by "\n", in order, and passes a parser failure through |
| Backend.ExtractText | backend/app.py:128-135 | a content type other than PDF, DOCX and text/plain fails exactly with `HTTPException(400, "Unsupported file type: …")`; a supported type fails only with a library error |
| Backend.ReadDocument | backend/app.py:165-174 | the loop body's dispatch on the content type computes exactly the upload's extraction result |
| Backend.BasePrompt | backend/app.py:97-105 | the instruction is one of the four fixed prompts: the one keyed by the category, or the summary prompt for a missing or unknown category |
| Backend.CategoryPromptsDistinct | backend/app.py:97-103 | two different known categories get different instructions |
| Backend.FullPrompt | backend/app.py:106 | the prompt starts with the instruction, ends with the original text, and is as long as the four fields and three labels |
| Backend.PromptLayout | backend/app.py:106 | the three labels sit at fixed offsets, and the instruction, query, context and text can be read back from the prompt |
| Backend.AnalyzeWithRag | backend/app.py:75-113 | success means retrieval succeeded and the model answered the prompt built from the retrieved passages; a retrieval that raises, or a model call that raises, gives `HTTPException(500)` with detail "Error in RAG analysis: " followed by that exception's message; when both succeed the result is the model's answer |
| Backend.UploadFile | backend/app.py:119-149 | the only statuses are 400 and 500; status 400 comes exactly from a missing file; an unsupported type becomes 500 with detail "400: Unsupported file type: …"; success carries the extracted text |
| Backend.UploadReplies | backend/app.py:124-149 | for a present file: an extraction library error gives 500 with its message; a read file whose analysis succeeds gives the analysis result together with the extracted text; a failed analysis gives 500 with detail "500: " followed by the analysis's detail |
| Backend.UploadAnswer | backend/app.py:137-147 | a successful upload answers with the model's reply to the prompt built from the full extracted text, the caller's query or the canned upload query, and the category |
| Backend.ExtractAll | backend/app.py:162-176 | when every file is read, there is one text per file, in upload order, each the file's extraction |
| Backend.ExtractAllPrefixFailure | backend/app.py:162-176 | once a prefix of the files fails, the whole batch fails with that exception |
| Backend.PrefixSucceeds | backend/app.py:162-176 | a batch whose every file can be read is read in full |
| Backend.FirstFailureAborts | backend/app.py:165-174 | the first file that cannot be read, an unsupported one included, decides the batch's failure |
| Backend.AnalyzeMultipleDocuments | backend/app.py:151-192 | an empty list is exactly the 400 case; a failed read is a 500 with `str` of its exception; otherwise it replies with the analysis of the texts joined in order by the document separator, and the document count is the number of files |
| Backend.AnalyzeText | backend/app.py:194-207 | blank text by Python's `strip` is exactly the case answered with 400 "No text provided"; the statuses are 400 and 500; a success carries a text-analysis body |
| Backend.TextReplies | backend/app.py:194-207 | a non-blank text is answered with the analysis of the text under `request.query or` the canned text query and the request's category; a failed analysis gives 500 with detail "500: " followed by the analysis's detail ("500: Error in RAG analysis: …") |
| Frontend.HealthReported | frontend/src/components/DocumentAnalyzer.js:27-31 | the backend counts as available exactly when a parsed body's `status` is "healthy" |
| Frontend.FailureMessage | frontend/src/components/DocumentAnalyzer.js:65-67 | a non-ok response throws the body's `detail` when it is present and non-empty, otherwise the fallback |
| Frontend.UploadCompletion | frontend/src/components/DocumentAnalyzer.js:60-71 | the upload stores a value exactly for an ok, parsed response: `result`, or `extracted_text` when `result` is missing or empty; a non-ok response throws `detail` or "Upload failed: " plus the status text; a rejected `fetch` or an ok body that does not parse throws that error's own message |
| Frontend.TextCompletion | frontend/src/components/DocumentAnalyzer.js:88-104 | the text submission stores `result` exactly for an ok, parsed response; a non-ok response throws `detail` or "Analysis failed: " plus the status text; a rejected `fetch` or an ok body that does not parse throws that error's own message |
| Frontend.DocumentAnalyzer.constructor | frontend/src/components/DocumentAnalyzer.js:11-21 | the state starts at the `useState` initial values |
| Frontend.DocumentAnalyzer.CheckBackendHealth | frontend/src/components/DocumentAnalyzer.js:27-36 | availability becomes the health verdict; a thrown error sets the fixed "Cannot connect…" message; nothing else changes |
| Frontend.DocumentAnalyzer.BeginRequest | frontend/src/components/DocumentAnalyzer.js:49-51 | a submission starts by setting loading and clearing the error |
| Frontend.DocumentAnalyzer.Settle | frontend/src/components/DocumentAnalyzer.js:72-76 | a submission ends with the stored result or the prefixed message of the thrown error, and loading reset |
| Frontend.DocumentAnalyzer.HandleFileDrop | frontend/src/components/DocumentAnalyzer.js:48-77 | loading is set then reset; the first accepted file is stored whatever the reply; the request carries it, the trimmed query and the category; the result is set as the upload completion says, or the error is "Error uploading file: " plus the thrown message with the result kept |
| Frontend.DocumentAnalyzer.HandleTextSubmit | frontend/src/components/DocumentAnalyzer.js:79-110 | no request is sent exactly when the text is blank; then the error is "Error analyzing text: Please enter some text to analyze" and the result is kept; otherwise the text, trimmed query and category go out and the reply settles result or error; loading is set then reset |
| Frontend.DocumentAnalyzer.HandleInputMethodChange | frontend/src/components/DocumentAnalyzer.js:112-119 | text mode is on exactly for "text"; the file, text, query, result and error are cleared; the category, the loading flag and availability are untouched |
| Frontend.DocumentAnalyzer.HandleUploadClick | frontend/src/components/DocumentAnalyzer.js:121-125 | the warning is raised exactly when no file is stored; nothing else changes |
| Frontend.DocumentAnalyzer.HandleCategoryChange | frontend/src/components/DocumentAnalyzer.js:127-130 | the category is set and the dropdown closed; nothing else changes |
| Frontend.DocumentAnalyzer.HandleCloseWarning | frontend/src/components/DocumentAnalyzer.js:132 | the warning is lowered; nothing else changes |
| Frontend.DocumentAnalyzer.ToggleSelect | frontend/src/components/DocumentAnalyzer.js:225 | the dropdown flips; nothing else changes |
| Frontend.DocumentAnalyzer.ChangeText | frontend/src/components/DocumentAnalyzer.js:253 | the text becomes the typed value; nothing else changes |
| Frontend.DocumentAnalyzer.Submit | frontend/src/components/DocumentAnalyzer.js:263 | in file mode only the warning may change and nothing is sent; in text mode the text submission runs, with the same request, error, result and unchanged fields as `handleTextSubmit` |
| Wiring.EncodeUpload | frontend/src/components/DocumentAnalyzer.js:55-63 | the upload puts nothing in the URL and exactly the query and category form fields beside the file |
| Wiring.BindUploadAsWritten | backend/app.py:120 | `upload_file` takes the file from the form and `query` and `category` from the URL: a category present in the URL is the one bound, otherwise "summary" |
| Wiring.UploadFormIgnoredAsWritten | backend/app.py:120 | as declared, every upload from the component arrives with no query and the summary category |
| Wiring.SentimentUploadAnsweredAsSummary | backend/app.py:120 | a sentiment upload with its own query gets the summary instruction and the canned upload query |
| Wiring.BindUploadFromForm | backend/app.py:120 | read from the form, the query and category are the form's fields; a category present in the form is the one bound, otherwise "summary" |
| Wiring.UploadFormRoundTrip | backend/app.py:120 | read from the form, the service receives exactly the file, query and category the component sent |
| Wiring.UploadHonoursChoice | backend/app.py:137-142 | with the form binding, a dropdown category selects its own instruction, and a non-empty query is used as typed while an empty one falls back to the canned query |
| Wiring.DecodeTextRequest | backend/app.py:41-44 | the text request's JSON body binds every field, so the service sees the text, query and category that were sent |
| Wiring.BlankChecksDisagree | backend/app.py:196-197 | the client's and the service's blank checks differ: U+001C passes the client but gets 400 from the service, while U+FEFF is blank for the client but not for the service |

## Left out

- Rendering is not modelled: the JSX, Markdown rendering, icons and the drop-zone widget. The file-type allowlist at frontend/src/components/DocumentAnalyzer.js:38-46 is enforced by that widget.
- `fetch`, JSON parsing and HTTP transport are a `FetchOutcome` parameter. A body exposes only `status`, `detail`, `result` and `extracted_text`, each as an optional string. A `detail` that is not a string, such as a validation error list, is not modelled.
- React's asynchronous state batching and the interleaving of handlers across `await` are not modelled. Handlers run one after another as sequential updates.
- Running the health check on mount (`useEffect`) is not modelled. A caller invokes `CheckBackendHealth`.
- Frontend.DocumentAnalyzer.HandleFileDrop: when the drop holds no file, the model sends no file. The browser would append the string "undefined" to the form, and the service's validation would answer that.
- The component never sets the custom query other than by clearing it. The model keeps the field as a free value.
- The class invariant keeps the category among the dropdown's four and the loading flag false between handlers. This holds because handlers are not interleaved.
- The parsing libraries and the language model are the functions of `Services`:
  - PDF and DOCX parsing;
  - text splitting, embeddings, the vector store and compressed retrieval, all folded into `retrieve`;
  - the language model call (`generate`);
  - UTF-8 decoding (`decodeUtf8`).

  Their internals, CORS and environment loading are not modelled.
- Reading an uploaded file (`await file.read()`) always succeeds in the model.
- FastAPI's own request validation is not modelled: the 422 answers and the requirement that `files` be present.
- The `/health` endpoint is not modelled. It only returns the constant status the component compares against.
- `analyze_multiple_documents` also binds `query` and `category` from the URL. The component never calls it, so only its behaviour for given arguments is modelled.
- The navigation sidebar is not part of this model.

## Findings

| source | as written | input that shows it | evidently intended | confidence | as-written member | corrected member |
|---|---|---|---|---|---|---|
| backend/app.py:120 | `upload_file` declares `query` and `category` as plain optional strings. FastAPI binds those from the URL's query string. The component sends them as multipart form fields (frontend/src/components/DocumentAnalyzer.js:55-58), so the service never sees them. | an upload with category "sentiment" and query "Who is angry?" gets the summary instruction and the canned upload query | the service uses the query and category chosen in the component | not executed; relies on FastAPI's documented binding of undeclared scalar parameters | Wiring.SentimentUploadAnsweredAsSummary | Wiring.UploadFormRoundTrip |
