/** `DocumentService` of app/services/document_service.py: retrieval followed
    by answer generation, the fixed prompt template, and the HTTP 500 wrapping
    of the ingestion and invoice entry points. The repository's search and
    the LLM are function parameters that may fail. */
module DocumentService {
  import opened Wrappers
  import opened Strings
  import opened Values
  import opened VectorDb
  import FileProcessor

  /** `HTTPException(status_code, detail)`. */
  datatype HttpError = HttpError(status: int, detail: string)

  /** `{"final_answer": ..., "metadata": [...]}`. */
  datatype Answer = Answer(finalAnswer: string, metadata: seq<Payload>)

  /** `vector_db_repo.search(query, limit, collection_name)`. */
  type Searcher = (string, int, string) -> Result<seq<SearchRecord>, string>

  /** `llm_service.invoke(prompt)`. */
  type Llm = string -> Result<string, string>

  const NoResultsText := "No results found"
  const SearchFailedText := "Error searching documents"
  const LlmFailedText := "Failed to generate final answer."

  // ------------------------------------------------------------ the prompt

  const PromptHead := "\n        Context:\n        "
  const PromptMiddle := "\n\n        Question:\n        "
  const PromptTail :=
    "\n\n        Instructions:\n"
    + "        1. Answer the question based exclusively on the information provided in the Context.\n"
    + "        2. Do not introduce any external knowledge or make assumptions beyond what is explicitly stated in the Context.\n"
    + "        3. If the Context does not contain sufficient information to answer the question fully, state this clearly in your response.\n"
    + "        4. Cite specific parts of the Context to support your answer when possible.\n"
    + "        5. If any part of the question cannot be answered using the given information, explain why.\n"
    + "\n        Please provide your answer below:\n        "

  /** `_get_formatted_prompt(combined_text, query)`. */
  function FormattedPrompt(combinedText: string, query: string): string {
    PromptHead + combinedText + PromptMiddle + query + PromptTail
  }

  /** The prompt opens with the "Context:" heading, holds the combined text
      right after it, then the "Question:" heading, then the query, and ends
      with the fixed instructions; so the context comes before the question. */
  lemma PromptLayout(combinedText: string, query: string)
    ensures var p := FormattedPrompt(combinedText, query);
            var c := |PromptHead|;
            var q := c + |combinedText| + |PromptMiddle|;
            && |p| == q + |query| + |PromptTail|
            && p[9..17] == "Context:"
            && p[c..c + |combinedText|] == combinedText
            && p[c + |combinedText| + 10..c + |combinedText| + 19] == "Question:"
            && p[q..q + |query|] == query
            && p[q + |query|..] == PromptTail
  {
    var p := FormattedPrompt(combinedText, query);
    var c := |PromptHead|;
    var m := c + |combinedText|;
    Slots(PromptHead, combinedText, PromptMiddle, query, PromptTail);
    Headings();
    SliceOfSlice(p, 0, c, 9, 17);
    SliceOfSlice(p, m, m + |PromptMiddle|, 10, 19);
  }

  lemma SliceOfSlice(s: string, i: nat, j: nat, k: nat, l: nat)
    requires i <= j <= |s| && k <= l <= j - i
    ensures s[i..j][k..l] == s[i + k..i + l]
  {
    forall t | 0 <= t < l - k ensures s[i..j][k..l][t] == s[i + k..i + l][t] {
      assert s[i..j][k + t] == s[i + k + t];
    }
  }

  /** Where each piece of `a + x + b + y + c` sits. */
  lemma Slots(a: string, x: string, b: string, y: string, c: string)
    ensures var p := a + x + b + y + c;
            var m := |a| + |x|;
            var q := m + |b|;
            && |p| == q + |y| + |c|
            && p[..|a|] == a && p[|a|..m] == x && p[m..q] == b
            && p[q..q + |y|] == y && p[q + |y|..] == c
  {
  }

  lemma Headings()
    ensures |PromptHead| == 26 && PromptHead[9..17] == "Context:"
    ensures |PromptMiddle| == 28 && PromptMiddle[10..19] == "Question:"
  {
  }

  /** Two prompts are equal only when their contexts and queries are: the
      template loses nothing, given the context's length. */
  lemma PromptInjective(c1: string, q1: string, c2: string, q2: string)
    requires |c1| == |c2|
    requires FormattedPrompt(c1, q1) == FormattedPrompt(c2, q2)
    ensures c1 == c2 && q1 == q2
  {
    PromptLayout(c1, q1);
    PromptLayout(c2, q2);
  }

  // ------------------------------------------------------------ the answer

  /** `result["payload"]["text"]` for one search record; a missing key or a
      text that is not a string makes the comprehension or the join raise. */
  function TextOf(record: SearchRecord): Result<string, string> {
    var text :- Lookup(record.payload, "text");
    if text.Str? then Success(text.s) else Failure("sequence item: expected str instance")
  }

  /** The texts of the results, in result order. */
  function ContextTexts(results: seq<SearchRecord>): Result<seq<string>, string> {
    MapAll(results, TextOf)
  }

  /** `"\n".join(texts)`, or the exception on the way there. */
  function CombinedText(results: seq<SearchRecord>): Result<string, string> {
    var texts :- ContextTexts(results);
    Success(Join(texts, "\n"))
  }

  /** `_generate_final_answer(results, query)`: only the LLM call is guarded,
      so an exception while collecting the texts reaches the caller. */
  function GenerateFinalAnswer(llm: Llm, results: seq<SearchRecord>, query: string): Result<string, string> {
    var combined :- CombinedText(results);
    match llm(FormattedPrompt(combined, query))
    case Success(answer) => Success(answer)
    case Failure(_) => Success(LlmFailedText)
  }

  function Payloads(results: seq<SearchRecord>): (r: seq<Payload>)
    ensures |r| == |results| && forall i :: 0 <= i < |r| ==> r[i] == results[i].payload
  {
    seq(|results|, i requires 0 <= i < |results| => results[i].payload)
  }

  /** `search_documents(query, limit, collection_name)`. */
  function SearchDocuments(search: Searcher, llm: Llm, query: string, limit: int, collectionName: string): Result<Answer, HttpError> {
    match search(query, limit, collectionName)
    case Failure(_) => Failure(HttpError(500, SearchFailedText))
    case Success(results) =>
      if results == [] then Success(Answer(NoResultsText, []))
      else
        match GenerateFinalAnswer(llm, results, query)
        case Failure(_) => Failure(HttpError(500, SearchFailedText))
        case Success(answer) => Success(Answer(answer, Payloads(results)))
  }

  /** Every result carries a string "text". */
  predicate AllTexts(results: seq<SearchRecord>) {
    forall i :: 0 <= i < |results| ==> "text" in results[i].payload && results[i].payload["text"].Str?
  }

  lemma ContextTextsSpec(results: seq<SearchRecord>)
    ensures ContextTexts(results).Success? <==> AllTexts(results)
    ensures ContextTexts(results).Success? ==>
              |ContextTexts(results).value| == |results| &&
              forall i :: 0 <= i < |results| ==> ContextTexts(results).value[i] == results[i].payload["text"].s
  {
    MapAllSuccess(results, TextOf);
  }

  /** No results: the fixed sentinel, whatever the LLM would have said, so
      no prompt is built and the LLM is never consulted. */
  lemma EmptyResultsSentinel(search: Searcher, llm1: Llm, llm2: Llm, query: string, limit: int, name: string)
    requires search(query, limit, name) == Success([])
    ensures SearchDocuments(search, llm1, query, limit, name) == Success(Answer(NoResultsText, []))
    ensures SearchDocuments(search, llm1, query, limit, name) == SearchDocuments(search, llm2, query, limit, name)
  {
  }

  /** `search_documents` fails exactly when the search raises or some result
      lacks a string text, and then always with 500 "Error searching documents". */
  lemma SearchFailures(search: Searcher, llm: Llm, query: string, limit: int, name: string)
    ensures var r := SearchDocuments(search, llm, query, limit, name);
            r.Failure? <==> search(query, limit, name).Failure? || !AllTexts(search(query, limit, name).value)
    ensures var r := SearchDocuments(search, llm, query, limit, name);
            r.Failure? ==> r.error == HttpError(500, SearchFailedText)
  {
    if search(query, limit, name).Success? {
      ContextTextsSpec(search(query, limit, name).value);
    }
  }

  /** For non-empty results the metadata is the list of payloads, same
      length and order as the results, and does not depend on the LLM. */
  lemma MetadataIsPayloads(search: Searcher, llm1: Llm, llm2: Llm, query: string, limit: int, name: string)
    requires SearchDocuments(search, llm1, query, limit, name).Success?
    requires search(query, limit, name).Success? && search(query, limit, name).value != []
    ensures var results := search(query, limit, name).value;
            var m := SearchDocuments(search, llm1, query, limit, name).value.metadata;
            && |m| == |results|
            && forall i :: 0 <= i < |m| ==> m[i] == results[i].payload
    ensures SearchDocuments(search, llm2, query, limit, name).Success?
    ensures SearchDocuments(search, llm2, query, limit, name).value.metadata
              == SearchDocuments(search, llm1, query, limit, name).value.metadata
  {
  }

  /** For non-empty results with texts, the LLM is asked the prompt built
      from the texts joined by newlines in result order; its answer is the
      final answer, and when it raises the final answer is the fixed
      failure string and no error reaches the caller. */
  lemma FinalAnswerFromLlm(search: Searcher, llm: Llm, query: string, limit: int, name: string)
    requires search(query, limit, name).Success?
    requires var results := search(query, limit, name).value; results != [] && AllTexts(results)
    ensures var results := search(query, limit, name).value;
            var texts := seq(|results|, i requires 0 <= i < |results| => results[i].payload["text"].s);
            var prompt := FormattedPrompt(Join(texts, "\n"), query);
            && SearchDocuments(search, llm, query, limit, name).Success?
            && SearchDocuments(search, llm, query, limit, name).value.finalAnswer
                 == (if llm(prompt).Success? then llm(prompt).value else LlmFailedText)
  {
    var results := search(query, limit, name).value;
    ContextTextsSpec(results);
    var texts := seq(|results|, i requires 0 <= i < |results| => results[i].payload["text"].s);
    assert ContextTexts(results).value == texts;
  }

  /** When no text holds a newline, splitting the combined context on
      newlines gives back the texts, one per result, in result order. */
  lemma ContextRoundTrip(results: seq<SearchRecord>)
    requires results != [] && AllTexts(results)
    requires forall i :: 0 <= i < |results| ==> '\n' !in results[i].payload["text"].s
    ensures CombinedText(results).Success?
    ensures var parts := Split(CombinedText(results).value, '\n');
            |parts| == |results| && forall i :: 0 <= i < |parts| ==> parts[i] == results[i].payload["text"].s
  {
    ContextTextsSpec(results);
    SplitJoin(ContextTexts(results).value, '\n');
  }

  // ------------------------------------------------------------ ingestion

  /** `except Exception as e: raise HTTPException(500, str(e))`. */
  function AsHttpError<T>(r: Result<T, string>): (h: Result<T, HttpError>)
    ensures r.Success? ==> h == Success(r.value)
    ensures r.Failure? ==> h == Failure(HttpError(500, r.error))
  {
    match r
    case Success(v) => Success(v)
    case Failure(e) => Failure(HttpError(500, e))
  }

  /** `str(e)` of the AttributeError raised by calling a method the
      repository does not define. */
  const MissingMethodText := "'VectorDBRepository' object has no attribute 'add_data_to_collection_unstructured'"

  /** `process_docs_unstructure` as written: `processed` is what `process`
      returns; the next call is `add_data_to_collection_unstructured(
      processed_data, collection)`, which the repository does not have. */
  function ProcessDocsUnstructureAsWritten(processed: Result<seq<map<string, Value>>, string>)
    : Result<seq<map<string, Value>>, HttpError>
  {
    match processed
    case Failure(e) => AsHttpError(Failure(e))
    case Success(_) => AsHttpError(Failure(MissingMethodText))
  }

  /** As written, ingestion never succeeds: a processed document set always
      ends in a 500 naming the missing attribute. */
  lemma IngestionAlwaysFails(processed: Result<seq<map<string, Value>>, string>)
    ensures ProcessDocsUnstructureAsWritten(processed).Failure?
    ensures processed.Success? ==>
              ProcessDocsUnstructureAsWritten(processed) == Failure(HttpError(500, MissingMethodText))
  {
  }

  /** `str(e)` of the TypeError raised by calling the one-parameter
      `add_data_to_collection_unstructure(data)` with two arguments. */
  const ArityText := "VectorDBRepository.add_data_to_collection_unstructure() takes 2 positional arguments but 3 were given"

  /** `process_docs_unstructure` with only the method name corrected: the
      call `add_data_to_collection_unstructure(processed_data, collection)`
      still passes `collection`, which the repository's method does not take. */
  function ProcessDocsRenamedOnly(processed: Result<seq<map<string, Value>>, string>)
    : Result<seq<map<string, Value>>, HttpError>
  {
    var _ :- AsHttpError(processed);
    AsHttpError(Failure(ArityText))
  }

  /** Correcting the name alone is not enough: every processed upload, an
      empty split included, still ends in a 500, now about the argument count. */
  lemma RenameAloneStillFails(split: seq<Document>)
    ensures ProcessDocsRenamedOnly(Success(ToJsonAll(split))) == Failure(HttpError(500, ArityText))
  {
  }

  /** `str(e)` of the AttributeError raised by `item.to_json()` on a dict. */
  const DictToJsonText := "'dict' object has no attribute 'to_json'"

  /** `process_docs_unstructure` with the name corrected and `collection`
      dropped: `add_data_to_collection_unstructure(processed_data)` is handed
      the dicts `process` returns, and its loop calls `to_json()` on the
      first of them; an empty list skips the loop and upserts no points
      (`insert([])`). */
  function ProcessDocsDictsInserted(processed: Result<seq<map<string, Value>>, string>,
                                    insert: seq<Document> -> Result<(), string>)
    : Result<seq<map<string, Value>>, HttpError>
  {
    var data :- AsHttpError(processed);
    if data != [] then Failure(HttpError(500, DictToJsonText))
    else
      var _ :- AsHttpError(insert([]));
      Success(data)
  }

  /** Correcting the name and the arguments is still not enough: every
      upload that splits into at least one document ends in a 500, now
      naming `to_json`. */
  lemma DictsStillFail(split: seq<Document>, insert: seq<Document> -> Result<(), string>)
    requires split != []
    ensures ProcessDocsDictsInserted(Success(ToJsonAll(split)), insert) == Failure(HttpError(500, DictToJsonText))
  {
    assert |ToJsonAll(split)| == |split|;
  }

  /** `process_docs_unstructure` as evidently intended: the split documents
      (`split`) are inserted with the repository's
      `add_data_to_collection_unstructure(data)` (`insert`), which writes to
      the configured collection, so `collection` is not passed; the client
      gets their `to_json()` dicts, as `process` returns them now. */
  function ProcessDocsUnstructure(split: Result<seq<Document>, string>,
                                  insert: seq<Document> -> Result<(), string>)
    : Result<seq<map<string, Value>>, HttpError>
  {
    var docs :- AsHttpError(split);
    var _ :- AsHttpError(insert(docs));
    Success(ToJsonAll(docs))
  }

  /** Corrected ingestion inserts exactly the split documents, and succeeds
      exactly when splitting and insertion both do, returning the serialized
      documents, from which the inserted ones can be read back; otherwise a
      500 carries `str(e)` of whichever failed first. */
  lemma IngestionOutcome(split: Result<seq<Document>, string>, insert: seq<Document> -> Result<(), string>)
    ensures var r := ProcessDocsUnstructure(split, insert);
            r.Success? <==> split.Success? && insert(split.value).Success?
    ensures var r := ProcessDocsUnstructure(split, insert);
            r.Success? ==> r.value == ToJsonAll(split.value)
    ensures var r := ProcessDocsUnstructure(split, insert);
            forall docs :: r.Success? && ToJsonAll(docs) == r.value ==> docs == split.value
    ensures var r := ProcessDocsUnstructure(split, insert);
            && (split.Failure? ==> r == Failure(HttpError(500, split.error)))
            && (split.Success? && insert(split.value).Failure? ==>
                  r == Failure(HttpError(500, insert(split.value).error)))
  {
    forall docs | ProcessDocsUnstructure(split, insert).Success? && ToJsonAll(docs) == ProcessDocsUnstructure(split, insert).value
      ensures docs == split.value
    {
      ToJsonAllInjective(docs, split.value);
    }
  }

  /** `process_invoice_structure`: the invoice pages, or a 500 carrying
      `str(e)`. */
  function ProcessInvoiceStructure(pages: Result<seq<FileProcessor.PageRecord>, string>): Result<seq<FileProcessor.PageRecord>, HttpError> {
    AsHttpError(pages)
  }

  /** As written, an upload of an unsupported type reaches the client as a
      500 whose detail is Python's complaint about raising a str, never the
      supported-formats message; the other uploads are unaffected. */
  lemma UnsupportedUploadDetailAsWritten(libs: FileProcessor.PdfLibraries, ocr: FileProcessor.Ocr, filename: string, path: string)
    ensures FileProcessor.RouteOf(FileProcessor.FileExtension(filename)) == FileProcessor.Unsupported ==>
              && ProcessInvoiceStructure(FileProcessor.InvoicePagesAsWritten(libs, ocr, filename, path))
                   == Failure(HttpError(500, FileProcessor.UnsupportedInvoiceErrorAsWritten()))
              && ProcessInvoiceStructure(FileProcessor.InvoicePagesAsWritten(libs, ocr, filename, path))
                   != Failure(HttpError(500, FileProcessor.UnsupportedInvoiceMessage))
    ensures FileProcessor.RouteOf(FileProcessor.FileExtension(filename)) != FileProcessor.Unsupported ==>
              FileProcessor.InvoicePagesAsWritten(libs, ocr, filename, path) == FileProcessor.InvoicePages(libs, ocr, filename, path)
  {
  }

  /** With the raise corrected, an upload of an unsupported type reaches the
      client as a 500 whose detail is the supported-formats message. */
  lemma UnsupportedUploadDetail(libs: FileProcessor.PdfLibraries, ocr: FileProcessor.Ocr, filename: string, path: string)
    requires FileProcessor.RouteOf(FileProcessor.FileExtension(filename)) == FileProcessor.Unsupported
    ensures ProcessInvoiceStructure(FileProcessor.InvoicePages(libs, ocr, filename, path))
              == Failure(HttpError(500, FileProcessor.UnsupportedInvoiceMessage))
  {
  }
}
