# OCR-backend core in Dafny

This project models the document-processing core of the OCR backend. The backend takes uploaded documents, extracts their text, stores the text chunks in a vector collection, and answers questions with an LLM from the retrieved chunks. Three parts are modelled.

- **Extraction** (`file_processor.dfy`, `lru_cache.dfy`):
  - the bounded least-recently-used cache of OCR readers;
  - the cache key built from a language list;
  - the lower-cased file extension, and how `process_invoice` routes on it;
  - the probe that decides whether a PDF has text of its own;
  - the page loops that turn pages into records numbered from 1.

  The cache and the `FileProcessor` are classes whose methods update their state. The temporary files and the OCR calls are ghost state. pdfplumber, pdf2image and easyocr are function parameters that may fail.
- **Vector store** (`vector_db.dfy`):
  - one point per splitter document, with a fresh id, the embedded page content and a payload copied from the metadata;
  - the upsert into the configured collection, and the check of its status;
  - search hits turned into score/payload records;
  - new collections sized to the embedder's output and using cosine distance.

  The Qdrant client is a class holding a map of collections. The embedder and `uuid.uuid4()` are opaque functions.
- **Service** (`document_service.dfy`): `search_documents`, `_generate_final_answer`, `_get_formatted_prompt` (with the exact template), and the HTTP 500 wrapping of ingestion and invoice processing.

`wrappers.dfy` holds `Option`, `Result`, and `MapAll`. `MapAll` is Python's "evaluate in order, stop at the first exception", which every loop and comprehension here follows. `strings.dfy` holds the `str` built-ins the code uses: `join`, `lower` and `sorted`. It also holds `split`, which the code never calls: it is there as the inverse of `join`, for the round-trip lemmas about the cache key and the combined context. `values.dfy` holds the JSON-like payload values, the LangChain `Document` with its `to_json()` form, and the text of Python's `KeyError` and `TypeError`.

Where the code and its design description disagree, the model follows the code:
- `put` evicts whenever the cache is at capacity, even for a key that is already present. Through `load_model` it is only ever called after a miss, so the present-key case is not reachable from there.
- The cache has no locking.
- Points are upserted into the configured collection (`self.collection_name`), not into a collection the caller names.

## Model

| member | source | states |
|---|---|---|
| `Lru.MoveToEnd` | app/core/file_processor.py:26 | the moved key is last and the key set gains only that key |
| `Lru.MoveToEndKeepsOthersInOrder` | app/core/file_processor.py:25-27 | after a hit, the other keys keep their relative order |
| `Lru.MoveToEndDistinct` | app/core/file_processor.py:32-33 | the recency order stays duplicate-free; it grows by one exactly when the key was new |
| `Lru.PutWithinCapacity` | app/core/file_processor.py:29-33 | `put` keeps the keys distinct and the size at most the capacity; afterwards the cache holds exactly `key` and the keys that survived evicting the oldest entry |
| `Lru.PutAbsentEvictsOldest` | app/core/file_processor.py:30-33 | a new key in a full cache replaces the oldest entry: the order becomes `order[1..] + [key]` and the size stays at capacity |
| `Lru.PutPresentInFullCacheShrinks` | app/core/file_processor.py:30-31 | as written, re-putting a present key in a full cache still evicts the oldest other key, so the size drops to capacity - 1 |
| `Lru.PutAllBelowCapacity` | app/core/file_processor.py:29-33 | up to the capacity, distinct keys are kept in insertion order |
| `Lru.FillingPastCapacityEvictsFirst` | app/core/file_processor.py:29-33 | putting capacity + 1 distinct keys evicts exactly the first |
| `Lru.LruCache.constructor` | app/core/file_processor.py:18-20 | the cache starts empty with the given capacity |
| `Lru.LruCache.Get` | app/core/file_processor.py:22-27 | a miss returns None and changes nothing; a hit returns the stored value, moves the key to the most-recent end and leaves the entries unchanged |
| `Lru.LruCache.Put` | app/core/file_processor.py:29-33 | fails (KeyError) exactly when the cache is empty and the capacity is at most 0, and then changes nothing; otherwise the new order and entries are those of evict-oldest-if-full and then store-at-end |
| `Wrappers.MapAllSuccess` | app/core/file_processor.py:134-139 | a page loop completes exactly when every per-page call succeeds, and the i-th result comes from the i-th call |
| `Wrappers.MapAllFailure` | app/core/file_processor.py:147-154 | a failing loop reports the error of the first failing call, and every call before it succeeded |
| `Wrappers.FirstFailure` | app/core/file_processor.py:147-154 | the index of the first failing call (or the length): all calls before it succeed, and the call at it fails |
| `Wrappers.MapAllFailureExtends` | app/core/file_processor.py:147-154 | once a prefix has raised, the later elements are never processed and the result is fixed |
| `Strings.Lower` | app/core/file_processor.py:114 | `lower()` keeps the length and lower-cases each ASCII letter in place |
| `Strings.LowerIdempotent` | app/core/file_processor.py:114 | lowering twice is lowering once, and no upper-case ASCII letter remains |
| `Strings.Sort` | app/core/file_processor.py:43 | `sorted` returns a list ordered by code point holding the same elements |
| `Strings.SortOrderIndependent` | app/core/file_processor.py:43 | `sorted` of two permutations of the same list is the same list |
| `Strings.SortedUnique` | app/core/file_processor.py:43 | two sorted lists with the same elements are equal |
| `Strings.SplitJoin` | app/core/file_processor.py:43 | splitting a one-character-separator join gives back the parts when no part contains the separator |
| `Strings.LexLeTotal` | app/core/file_processor.py:43 | string comparison is total |
| `Strings.LexLeTransitive` | app/core/file_processor.py:43 | string comparison is transitive |
| `Strings.LexLeAntisymmetric` | app/core/file_processor.py:43 | strings that compare both ways are equal |
| `FileProcessor.SplitExt` | app/core/file_processor.py:114 | `os.path.splitext(p)[1]`: from the last dot of the last path component, unless only dots precede it; stated by `ExtensionShape` and `ExtensionExamples` |
| `FileProcessor.FileExtension` | app/core/file_processor.py:111-114 | the lower-cased extension; stated by `ExtensionShape`, `ExtensionIgnoresCase` and `ExtensionExamples` |
| `FileProcessor.RouteOf` | app/core/file_processor.py:68-73 | ".pdf" goes to the PDF branch, the five image extensions to the image branch, anything else is unsupported; stated by `RouteIgnoresCase` |
| `FileProcessor.RFind` | app/core/file_processor.py:114 | the last index holding the character, or -1, with no such character after it |
| `FileProcessor.ExtensionShape` | app/core/file_processor.py:111-114 | the extension is empty or one dot followed by no dot or slash; it is the lower-cased tail of the name, and lowering it again changes nothing |
| `FileProcessor.ExtensionIgnoresCase` | app/core/file_processor.py:111-114 | lower-casing the file name first does not change its extension |
| `FileProcessor.ExtensionExamples` | app/core/file_processor.py:111-114 | "A.PDF" gives ".pdf", "scan.tar.JPEG" gives ".jpeg", and ".bmp" and "dir.v2/readme" give "" (splitext rules) |
| `FileProcessor.RouteIgnoresCase` | app/core/file_processor.py:68-73 | routing is insensitive to the case of the name; an upload is rejected exactly when its extension is neither ".pdf" nor one of the five image extensions |
| `FileProcessor.UnsupportedInvoiceErrorAsWritten` | app/core/file_processor.py:73 | as written, the text a handler sees is not the supported-formats message |
| `FileProcessor.UnsupportedInvoiceError` | app/core/file_processor.py:73 | with the raise corrected, the handler sees the supported-formats message |
| `FileProcessor.IsSearchablePdf` | app/core/file_processor.py:101-109 | the first page's extracted text is non-empty; an exception in opening, indexing or extracting counts as not searchable; stated by `ProbeFailureMeansOcr` and `SearchablePdfIgnoresOcr` |
| `FileProcessor.SearchablePages` | app/core/file_processor.py:130-140 | the pdfplumber page loop as a traversal that stops at the first exception; stated by `SearchablePdfRecords` and met by `ProcessSearchablePdf` |
| `FileProcessor.ScannedPages` | app/core/file_processor.py:142-155 | the render-then-OCR page loop with the English reader; stated by `ScannedPdfRecords` and `ScannedPdfReadsEveryPageOnce` and met by `ProcessNonSearchablePdf` |
| `FileProcessor.ImagePages` | app/core/file_processor.py:157-165 | one `readtext` on the file path, one record numbered 1; stated by `ImageRecords` and met by `ProcessImageFile` |
| `FileProcessor.InvoicePages` | app/core/file_processor.py:63-75 | `process_invoice` with the raise corrected: the route's pages, or the supported-formats message; the reference for the corrected half of the first finding |
| `FileProcessor.InvoicePagesAsWritten` | app/core/file_processor.py:63-75 | `process_invoice` as written: the same as `InvoicePages` except that an unsupported extension fails with "exceptions must derive from BaseException"; met by `ProcessInvoice` |
| `FileProcessor.Numbered` | app/core/file_processor.py:134-139 | one record per text, with record i numbered i + 1 and holding the i-th text |
| `FileProcessor.ProbeFailureMeansOcr` | app/core/file_processor.py:101-109 | if opening the PDF raises, it has no pages, or the first page's extraction raises, the PDF takes the OCR path |
| `FileProcessor.SearchablePdfIgnoresOcr` | app/core/file_processor.py:77-84 | a PDF whose first page has text never reaches OCR: the result does not depend on the reader, and no `readtext` call is made |
| `FileProcessor.ScannedPdfReadsEveryPageOnce` | app/core/file_processor.py:146-149 | a scanned PDF that succeeds gets exactly one `readtext` per rendered page, in page order |
| `FileProcessor.SearchablePdfRecords` | app/core/file_processor.py:130-140 | on success, one record per page numbered from 1, holding the page's text, or "" when the extraction returns None |
| `FileProcessor.ScannedPdfRecords` | app/core/file_processor.py:142-155 | on success, one record per rendered page numbered from 1, holding the English reader's tokens joined by single spaces |
| `FileProcessor.ImageRecords` | app/core/file_processor.py:157-165 | on success, an image gives exactly one record, numbered 1, holding its tokens joined by single spaces |
| `FileProcessor.LanguagesKey` | app/core/file_processor.py:43 | the cache key `','.join(sorted(languages))`; stated by the four lemmas that follow |
| `FileProcessor.LanguagesKeyOrderIndependent` | app/core/file_processor.py:43 | permutations of a language list share one cache key |
| `FileProcessor.LanguagesKeyDistinguishes` | app/core/file_processor.py:43 | non-empty, comma-free language lists share a key only if they hold the same languages |
| `FileProcessor.LanguagesKeyCollision` | app/core/file_processor.py:43 | without the comma-free condition, `["a,b"]` and `["a", "b"]` share the key "a,b" |
| `FileProcessor.EnglishKey` | app/core/file_processor.py:144 | the only language list whose key is "en" is `["en"]`, so the reader found under that key reads English |
| `FileProcessor.Reader.constructor` | app/core/file_processor.py:49 | a reader is built for the requested languages, in the order given |
| `FileProcessor.FileProcessor.constructor` | app/core/file_processor.py:40 | a fresh, empty model cache of capacity 5, assuming the three settings read at lines 37-39 exist (see "## Left out") |
| `FileProcessor.FileProcessor.LoadModel` | app/core/file_processor.py:42-52 | a hit returns the cached reader, only refreshes recency and builds no reader (the ghost log `built` is unchanged); a miss builds exactly one new reader for the languages, appends it to `built` and puts it under the sorted, comma-joined key; every cached reader sits under its own languages' key |
| `FileProcessor.FileProcessor.ProcessSearchablePdf` | app/core/file_processor.py:130-140 | the page loop's result is the searchable-PDF records, or the first exception |
| `FileProcessor.FileProcessor.ReadRasters` | app/core/file_processor.py:147-154 | the OCR page loop's result, and `readtext` called once per page up to and including the first that raises |
| `FileProcessor.FileProcessor.ProcessNonSearchablePdf` | app/core/file_processor.py:142-155 | loads the English reader through the cache, then renders and reads the pages; the temporary files are untouched |
| `FileProcessor.FileProcessor.ProcessImageFile` | app/core/file_processor.py:157-165 | loads the English reader through the cache and makes one `readtext` call on the file path |
| `FileProcessor.FileProcessor.ProcessPdf` | app/core/file_processor.py:77-84 | a searchable PDF leaves the cache and the OCR calls untouched; any other PDF takes the OCR path |
| `FileProcessor.FileProcessor.ProcessInvoice` | app/core/file_processor.py:63-75 | the result is `process_invoice` as written (`InvoicePagesAsWritten`): a PDF or image follows its route, and an unsupported extension fails with the TypeError text of raising a str; the cache is touched and readers are built only when OCR runs; the temporary file is gone on every exit |
| `FileProcessor.FileProcessor.Process` | app/core/file_processor.py:54-61 | returns the split documents serialized with `to_json()`, one dict per document in order, or the loader's error; removes the temporary file on every exit, makes no easyocr `readtext` call and builds no reader |
| `Values.Kwargs` | app/core/file_processor.py:99 | the "kwargs" of `to_json()` hold the page content always and the metadata exactly when it is not empty |
| `Values.ToJson` | app/core/file_processor.py:99 | `to_json()` is a dict whose "kwargs" are those of the document |
| `Values.ToJsonInjective` | app/core/file_processor.py:99 | distinct documents serialize to distinct dicts |
| `Values.ToJsonAll` | app/core/file_processor.py:99 | one dict per document, in order |
| `Values.ToJsonAllInjective` | app/core/file_processor.py:99 | the serialized list determines the documents and their order |
| `VectorDb.BuildPayload` | app/repositories/vector_db_repository.py:47-56 | read through `item.to_json()['kwargs']`: the payload is built exactly when the metadata has the five keys and a "coordinates" dict with "points"; then it has the eight keys, with "text_id" the id, "text" the page content, "coordinates" the points, and the rest copied; empty metadata raises KeyError('metadata'), and otherwise a missing "category" raises that KeyError first |
| `VectorDb.MakePoint` | app/repositories/vector_db_repository.py:45-57 | one `PointStruct` under the drawn id, with the embedded page content and the payload, or the payload's exception; stated by `BuildPointsShape` |
| `VectorDb.WithIds` | app/repositories/vector_db_repository.py:45 | the i-th document of a batch gets the i-th id drawn |
| `VectorDb.BuildPoints` | app/repositories/vector_db_repository.py:43-58 | the `points` loop: each document with its drawn id, stopping at the first exception; stated by `BuildPointsShape`, `BuildPointsDistinctIds` and `MissingCategoryStopsBatch`, and met by `BuildBatch` |
| `VectorDb.BuildPointsShape` | app/repositories/vector_db_repository.py:43-58 | a batch builds exactly when every document has the payload fields; then there is one point per document, in order, with id equal to `payload["text_id"]`, vector equal to `embed(page_content)`, and `payload["text"]` equal to that same page content |
| `VectorDb.BuildPointsDistinctIds` | app/repositories/vector_db_repository.py:45-57 | with distinct uuids, no two points of a batch share an id |
| `VectorDb.MissingCategoryStopsBatch` | app/repositories/vector_db_repository.py:50 | the first document with metadata but without "category" stops the batch with that KeyError |
| `VectorDb.WritePoints` | app/repositories/vector_db_repository.py:60-64 | after a write, the stored ids are the old ones plus the batch's ids |
| `VectorDb.WritePointsLastWins` | app/repositories/vector_db_repository.py:60-64 | a point whose id no later point reuses is stored with its vector and payload |
| `VectorDb.UpsertResult` | app/repositories/vector_db_repository.py:60-64 | the server's answer to an upsert: a missing collection or a wrong dimension is refused, otherwise the reported status; stated by `UpsertEffect` and `CreatedCollectionAcceptsBatch` |
| `VectorDb.UpsertState` | app/repositories/vector_db_repository.py:60-64 | the collections after an upsert; stated by `UpsertEffect` |
| `VectorDb.UpsertEffect` | app/repositories/vector_db_repository.py:60-64 | an upsert keeps every vector at its collection's dimension and leaves other collections alone; a refused upsert changes nothing; an accepted one stores every point under its id and keeps every other point of the collection as it was |
| `VectorDb.VectorStore.Upsert` | app/repositories/vector_db_repository.py:60-64 | the server refuses a missing collection or a wrong dimension; otherwise it writes the points and answers with its status |
| `VectorDb.VectorStore.CreateCollection` | app/repositories/vector_db_repository.py:79-85 | a name that is taken is refused; otherwise an empty collection with the given parameters is added |
| `VectorDb.InsertOutcome` | app/repositories/vector_db_repository.py:66-67 | insertion succeeds only on COMPLETED; any other status raises "Failed to insert data", and a server error propagates |
| `VectorDb.SearchRecords` | app/repositories/vector_db_repository.py:76 | one score/payload record per hit, in hit order |
| `VectorDb.VectorDbRepository.constructor` | app/repositories/vector_db_repository.py:11-14 | the repository keeps the client, the configured collection name and the embedder |
| `VectorDb.VectorDbRepository.BuildBatch` | app/repositories/vector_db_repository.py:43-58 | the loop builds the batch's points, drawing one id for each document it starts |
| `VectorDb.VectorDbRepository.AddDataToCollectionUnstructure` | app/repositories/vector_db_repository.py:42-67 | a payload error stops before the server is touched; otherwise the batch is upserted into the configured collection, and the outcome is COMPLETED or an error |
| `VectorDb.ServerSearch` | app/repositories/vector_db_repository.py:71-75 | the server refuses a missing collection, a vector name the collection lacks or a wrong dimension, and otherwise ranks the collection; stated by `SearchNamedVectorRefused` and `SearchCreatedCollection` |
| `VectorDb.VectorDbRepository.Search` | app/repositories/vector_db_repository.py:69-76 | as written, asking for the vector "text": the records for the server's hits in hit order, or the server's error |
| `VectorDb.VectorDbRepository.SearchCorrected` | app/repositories/vector_db_repository.py:69-76 | with the bare query vector: the records for the server's hits in hit order, or the server's error |
| `VectorDb.SearchNamedVectorRefused` | app/repositories/vector_db_repository.py:73 | as written, a search of any existing collection is refused, because no collection has a vector named "text" |
| `VectorDb.SearchCreatedCollection` | app/repositories/vector_db_repository.py:69-85 | with the bare query vector, a search of a collection the repository created reaches the ranking, and its hits come back as records in order |
| `VectorDb.VectorDbRepository.CreateCollection` | app/repositories/vector_db_repository.py:78-85 | a new collection has the embedder's dimension and cosine distance |
| `VectorDb.CreatedCollectionAcceptsBatch` | app/repositories/vector_db_repository.py:82 | given an embedder whose vectors always have its reported dimension, a batch always fits a collection the repository created, so the insert outcome depends only on the server's status |
| `DocumentService.FormattedPrompt` | app/services/document_service.py:64-82 | the f-string template around the combined text and the query; stated by `PromptLayout` and `PromptInjective` |
| `DocumentService.PromptLayout` | app/services/document_service.py:65-82 | the prompt has "Context:", then the combined text, then "Question:", then the query, then the fixed instructions |
| `DocumentService.PromptInjective` | app/services/document_service.py:67-72 | given the context's length, the prompt determines both the context and the query |
| `DocumentService.ContextTextsSpec` | app/services/document_service.py:55 | the texts are collected exactly when every payload has a string "text"; they come in result order |
| `DocumentService.ContextRoundTrip` | app/services/document_service.py:55-56 | when no text contains a newline, splitting the combined context on newlines gives back the texts in result order |
| `DocumentService.Payloads` | app/services/document_service.py:47 | one payload per result, in order |
| `DocumentService.GenerateFinalAnswer` | app/services/document_service.py:53-62 | the texts are collected and joined outside the `try`, so their exception reaches the caller; only the LLM call falls back to the fixed string; stated by `FinalAnswerFromLlm` and `SearchFailures` |
| `DocumentService.SearchDocuments` | app/services/document_service.py:40-51 | `search_documents`; stated by `EmptyResultsSentinel`, `MetadataIsPayloads`, `FinalAnswerFromLlm` and `SearchFailures` |
| `DocumentService.EmptyResultsSentinel` | app/services/document_service.py:44-45 | no results give `{"final_answer": "No results found", "metadata": []}`, the same for every LLM |
| `DocumentService.MetadataIsPayloads` | app/services/document_service.py:47-48 | for results that are not empty, the metadata is the payloads, same length and order, and does not depend on the LLM |
| `DocumentService.FinalAnswerFromLlm` | app/services/document_service.py:53-62 | the LLM is asked the prompt built from the newline-joined texts; its answer is the final answer, and if it raises the answer is "Failed to generate final answer." with no error to the caller |
| `DocumentService.SearchFailures` | app/services/document_service.py:49-51 | the search fails exactly when the backend raises or a result lacks a string text, and then always with HTTP 500 "Error searching documents" |
| `DocumentService.AsHttpError` | app/services/document_service.py:25-27 | success passes through; an exception becomes HTTP 500 with detail `str(e)` |
| `DocumentService.ProcessDocsUnstructureAsWritten` | app/services/document_service.py:19-27 | `process_docs_unstructure` as written, given what `process` returns; stated by `IngestionAlwaysFails` |
| `DocumentService.IngestionAlwaysFails` | app/services/document_service.py:23 | as written, ingestion never succeeds; processed documents always end in a 500 naming the missing attribute |
| `DocumentService.ProcessDocsRenamedOnly` | app/services/document_service.py:19-27 | with only the method name corrected, the call still passes `collection` to the one-parameter method; stated by `RenameAloneStillFails` |
| `DocumentService.RenameAloneStillFails` | app/services/document_service.py:23 | correcting the name alone is not enough: the two-argument call raises the arity TypeError, so every processed upload, an empty split included, still ends in a 500 |
| `DocumentService.ProcessDocsDictsInserted` | app/services/document_service.py:19-27 | with the name corrected and `collection` dropped, the repository is handed `process`'s dicts; stated by `DictsStillFail` |
| `DocumentService.DictsStillFail` | app/repositories/vector_db_repository.py:44-46 | correcting the name and the arguments is still not enough: the repository calls `to_json()` on the first dict, so every upload that splits into at least one document ends in a 500 |
| `DocumentService.ProcessDocsUnstructure` | app/services/document_service.py:19-27 | ingestion as evidently intended: the split documents are inserted and their dicts returned; stated by `IngestionOutcome` |
| `DocumentService.IngestionOutcome` | app/services/document_service.py:19-27 | corrected ingestion inserts exactly the split documents; it succeeds exactly when splitting and insertion do, returning the dicts `process` returns now, from which the inserted documents can be read back; otherwise it returns 500 with the first `str(e)` |
| `DocumentService.ProcessInvoiceStructure` | app/services/document_service.py:29-38 | `process_invoice_structure`: the pages, or 500 with `str(e)`; stated by `UnsupportedUploadDetailAsWritten` and `UnsupportedUploadDetail` |
| `DocumentService.UnsupportedUploadDetailAsWritten` | app/services/document_service.py:36-38 | as written, an unsupported upload surfaces as 500 "exceptions must derive from BaseException", never as the supported-formats message; other uploads are unaffected |
| `DocumentService.UnsupportedUploadDetail` | app/services/document_service.py:36-38 | with the raise corrected, an unsupported upload surfaces as 500 with the supported-formats message |

## Left out

- File I/O: reading the upload, writing the temporary file and removing it. These are a ghost set of paths that `ProcessInvoice` and `Process` add to and remove from.
- A missing file name (`filename=None`): it is not modelled, and names are strings.
- `str.lower()` is modelled for ASCII letters only; Unicode case mapping is not modelled.
- `os.path.splitext` is modelled with POSIX separators only.
- The bodies of pdfplumber, pdf2image, easyocr, SentenceTransformer, the Qdrant server and the OpenAI client:
  - they are function parameters or opaque functions;
  - an exception from pdfplumber, pdf2image, easyocr's `readtext`, the Qdrant server or the OpenAI client is a `Failure` carrying `str(e)`;
  - an exception while building an easyocr `Reader` is not modelled.
- The embedder `SentenceTransformer.encode` is a total function whose vectors always have the length `get_sentence_embedding_dimension()` reports (`VectorDbRepository.Valid` and its constructor require this). So an exception from `encode` is not modelled, neither in the points loop (app/repositories/vector_db_repository.py:46) nor for the query in `search` (line 70). `CreatedCollectionAcceptsBatch` holds because of this assumption.
- `np.array(image)` (app/core/file_processor.py:148) is not modelled. The rendered page goes to `readtext` as it is, and that conversion cannot fail in the model.
- The Qdrant server's exact error texts are not modelled. The texts that `VectorStore` and `ServerSearch` give are placeholders that name the reason.
- Search ranking, scores and embedding values: floating point is an opaque 64-bit pattern, and the ranking is an opaque function of one collection, the query vector and the limit, which may still fail.
- Qdrant collections with several named vectors are not modelled. Every collection here has the one unnamed vector that `create_collection` configures, and upserts and searches are checked against it.
- `to_json()` is modelled down to its "kwargs" (page content, type tag, metadata). The document's optional `id` and the exact "lc" and "id" entries of the envelope are not used by the code and are not modelled exactly.
- `_process_unstructured`, the loader and `RecursiveCharacterTextSplitter`: that code is not part of this model. `Process` takes the split documents as a function of the path, and models only the final `to_json()` comprehension.
- The first definition of `add_data_to_collection_unstructure` (vector_db_repository.py:16-40) is dead code, because the second definition replaces it. Only the second is modelled.
- `delete_collection`, `get_collection_details`, the collection service, the storage repository, the HTTP routes and logging are pass-throughs with no logic of their own.
- `FileProcessor.FileProcessor.constructor` assumes that `Config` defines `UNSTRUCTURE__OCR_STRATEGY`, `LANGCHAIN__CHUNK_SIZE` and `LANGCHAIN__CHUNK_OVERLAP` (app/core/file_processor.py:37-39). `DocumentService.__init__` also needs `OPENAI_TEMPERATURE` and `OPENAI_LLM_MODEL` (app/services/document_service.py:17). app/config.py defines none of these five, so as written every `FileProcessor()` and every `DocumentService` raises `AttributeError` when it is built. The model builds them as if the settings were there, and it does not model the strategy or the chunk sizes, which only the loader and the splitter use.
- The routes in app/api/routes/document.py call service methods that do not exist (`process_pdf`) or with too few arguments (`search_documents`). No route calls `process_invoice_structure` or `process_docs_unstructure`, so the findings below are stated at the service.
- Concurrency: the cache has no locking, and the model is sequential.
- `DocumentService.ContextTextsSpec`: the text of the exception raised for a missing or non-string "text" is not tracked, because the handler replaces it with a fixed detail.
- `FileProcessor.FileProcessor.ProcessInvoice` models the code as written. The corrected raise is modelled by the function `InvoicePages` and the service lemma `UnsupportedUploadDetail`, not by a second method.
- `FileProcessor.FileProcessor.ProcessNonSearchablePdf` and `FileProcessor.FileProcessor.ProcessImageFile`: `readtext` gets the languages of the reader that `load_model(['en'])` returned. The model proves that those languages are `["en"]`.

## Findings

| source | as written | input that shows it | evidently intended | confidence | as-written member | corrected member |
|---|---|---|---|---|---|---|
| app/core/file_processor.py:73 | `raise "Currently we support pdf and image format for invoice"` raises a `str`, which Python refuses with `TypeError: exceptions must derive from BaseException`; the `HTTPException` that `process_invoice_structure` raises carries that text | an upload named `notes.txt` to invoice processing | raise an exception whose message is the supported-formats text | not executed | `DocumentService.UnsupportedUploadDetailAsWritten` | `DocumentService.UnsupportedUploadDetail` |
| app/services/document_service.py:23 | calls `self.vector_db_repo.add_data_to_collection_unstructured(processed_data, collection)`, a method the repository does not define (it has `add_data_to_collection_unstructure(data)`), so every ingestion ends in a 500 | any upload whose processing succeeds | three changes: call the repository's `add_data_to_collection_unstructure`; drop the `collection` argument, which the method does not take (it upserts into the configured collection), since otherwise the call raises an arity `TypeError` (`RenameAloneStillFails`); and hand it the split `Document`s rather than the `to_json()` dicts that `process` returns (app/core/file_processor.py:99), on which its `item.to_json()` raises `AttributeError` (`DictsStillFail`) | not executed | `DocumentService.IngestionAlwaysFails` | `DocumentService.IngestionOutcome` |
| app/repositories/vector_db_repository.py:73 | `search` asks for the named vector "text" (`query_vector=("text", query_vector)`), but `create_collection` (lines 81-84) configures one unnamed vector and the points are upserted with unnamed vectors, so Qdrant refuses the search with a "Not existing vector name" error, which `search_documents` turns into 500 "Error searching documents" | any search of a collection this repository created | pass the bare query vector (`query_vector=query_vector`) | not executed | `VectorDb.SearchNamedVectorRefused` | `VectorDb.SearchCreatedCollection` |
