# AwsomeAgent knowledge-file vectorisation, modelled in Dafny

This project models the document-ingestion core of the AwsomeAgent backend:

- the background job `celery_text_vectorize` (`services/tasks.py`). It takes one task payload
  describing a batch of uploaded files of a knowledge base. For each file it extracts text chunks,
  writes one full-text document per chunk to Elasticsearch and makes sure the Milvus collection
  exists. It then embeds every chunk, inserts one batch of rows into Milvus and sets the file's
  status record to 1, or to -1 with an error text in `extra` when anything in that file fails;
- the default Milvus collection schemas and index parameters (`services/constant.py`);
- the `conversation_knowledge_link` table and its DAO (`models/dao/conversation_knowledge_link.py`):
  links between conversations and knowledge bases, keyed by the pair, removed by a soft-delete flag;
- the uniform HTTP response body `ResponseModel` and its two constructors (`db/schemas/response.py`).

Modules:

- `Wrappers` — `Option` and `Result`.
- `Response` — `ResponseModel`, `Resp200`, `Resp500`.
- `MilvusSchema` — the two eleven-field schemas (1024 and 768 dimensions) and the HNSW index
  parameters, with lemmas about their keys and types.
- `Vectorize` — the job as functions over a value `World` (the Elasticsearch documents, the Milvus
  collections and the file records). Every external collaborator is a field of `Services`: a total
  function from its arguments to a result or an error text, so a call "raises" exactly when its
  oracle says so. `Run` is the whole job; `ProcessFile` is one iteration of its file loop.
- `VectorizeJob` — the job as `celery_text_vectorize` runs it. It is a method over a `Backends` object whose
  fields are the three stores. Its loops append to `insert_data` and keep `file_vectorize_err_msg`.
  Each store call is a method of `Backends`. Each method is proved to compute the matching function
  of `Vectorize`, and `CeleryTextVectorize` is proved to compute `Vectorize.Run`.
- `VectorizeLemmas` — what the job guarantees: files processed in list order; one file's failure
  does not stop the batch; the effect of each failure on both stores and on the status record; the
  field mapping; and the agreement between the inserted rows and the schema.
- `ConversationKnowledgeLinks` — the link table as a class with `Create` and `Delete` methods and
  the two query functions. It has a validity invariant (primary key and both foreign keys) and
  lemmas about soft deletion and result order.

Code behaviours that are easy to misread, as the model states them:

- After a setup failure the job logs and returns normally (tasks.py:37-40). The task queue
  therefore does not retry it: `Run` gives `Returned`.
- Exceptions that escape `run` do exist, and the queue retries those. They are: a payload that
  `parse_obj` rejects (tasks.py:26), a missing key in a file entry, which is read outside the
  per-file `try` (tasks.py:47-50), and a failure inside the per-file handler itself, such as a
  missing status record, a failing lookup or a failing update (tasks.py:137-140). These give
  `Raised`, and the loop stops at that file.
- The status record is looked up twice, by separate queries: once for the success write-back
  (tasks.py:127) and once in the handler (tasks.py:137). The first failing only fails the file;
  the second failing escapes `run`.
- The search document carries the page as `start_page` (tasks.py:81), not as `page`.

## Model

| member | source | states |
|---|---|---|
| Response.Resp200 | src/backend/awsome/db/schemas/response.py:14-18 | the supplied code, message and data are copied unchanged into status_code, status_message and data |
| Response.Resp500 | src/backend/awsome/db/schemas/response.py:21-25 | the supplied code, message and data are copied unchanged into status_code, status_message and data |
| Response.Resp200Defaults | src/backend/awsome/db/schemas/response.py:14-18 | called with no argument it answers 200, "SUCCESS" and no data |
| Response.Resp500Defaults | src/backend/awsome/db/schemas/response.py:21-25 | called with no argument it answers 500, "BAD REQUEST" and no data |
| Response.SameShape | src/backend/awsome/db/schemas/response.py:7-25 | both constructors build the same record from the same arguments, and their default results differ |
| MilvusSchema.SameFieldNames | src/backend/awsome/services/constant.py:8-34 | both schemas declare the same eleven field names in the same order, listed explicitly |
| MilvusSchema.DifferOnlyInDimension | src/backend/awsome/services/constant.py:8-34 | the schemas agree on the first ten fields; the vector field has dimension 1024 in one and 768 in the other and is otherwise the same |
| MilvusSchema.SinglePrimaryKey | src/backend/awsome/services/constant.py:8-34 | a field is primary iff it is `pk`; the primary field is an auto-generated INT64; `pk` is the tenth field |
| MilvusSchema.SinglePartitionKey | src/backend/awsome/services/constant.py:8-34 | a field is the partition key iff it is `knowledge_id` |
| MilvusSchema.VarCharBounds | src/backend/awsome/services/constant.py:8-34 | a field is VARCHAR iff it has the length bound 65535 |
| MilvusSchema.IndexParamsValues | src/backend/awsome/services/constant.py:39-46 | the index is HNSW with metric L2, and its parameters are exactly M = 8 and efConstruction = 64 |
| Vectorize.ErrorLine | src/backend/awsome/services/tasks.py:134 | the recorded line is 文件, the file name, 解析异常:, the error text and a newline, so the file name and the error text can be read back from it |
| Vectorize.ReadEntry | src/backend/awsome/services/tasks.py:47-50 | the entry is read iff all four keys are present, and then carries their four values; otherwise the error is the quoted name of the first key missing in source order |
| Vectorize.Render | src/backend/awsome/services/tasks.py:106 | `str()` of a bbox value that is a string is that string |
| Vectorize.Extract | src/backend/awsome/services/tasks.py:57-66 | with `enable_layout` 0 the result is the extractor's own chunks or error; with any other value no chunk is produced |
| Vectorize.MakeDocument | src/backend/awsome/services/tasks.py:75-87 | the search document goes to the task's index, is attributed to its file and knowledge base, and has `extra` ""; `FieldMappingPerKey` gives its chunk fields and `ProjectionsAgree` its file fields |
| Vectorize.MakeRow | src/backend/awsome/services/tasks.py:105-118 | the row carries the chunk's embedding as `vector` and no `pk`, which the store generates; `FieldMappingPerKey` gives its chunk columns, `ProjectionsAgree` its file columns, and `RowColumns` and `RowValuesFitSchema` its column set and types |
| Vectorize.SaveDocuments | src/backend/awsome/services/tasks.py:74-90 | the search-index pass appends a prefix of the documents in order; it completes iff every document was written; on failure the error is that of the first unwritten document; other stores unchanged |
| Vectorize.EnsureCollection | src/backend/awsome/services/tasks.py:96-98 | ensuring the collection changes neither the documents nor the file records and never changes an existing collection; on success the collection exists |
| Vectorize.BuildRows | src/backend/awsome/services/tasks.py:101-119 | the embedding pass succeeds iff every chunk's embedding succeeds; then `insert_data` gains exactly one row per chunk, in order; otherwise the error is that of the first failing chunk, all earlier ones having succeeded |
| Vectorize.SelectByFileId | src/backend/awsome/services/tasks.py:127 | the lookup at a given call site (write-back or handler) succeeds iff that query does not fail; then it finds at most one record, one iff the file id has a record, and that record is the stored one |
| Vectorize.MarkSucceeded | src/backend/awsome/services/tasks.py:127-129 | the success write-back completes iff its own lookup succeeds, the record exists and the update succeeds; it then changes only that record's status, to 1, and otherwise changes nothing |
| Vectorize.MarkFailed | src/backend/awsome/services/tasks.py:137-140 | the handler's write-back completes iff the handler's lookup succeeds, the record exists and the update succeeds; it then sets the record to status -1 with the error text as `extra`, and otherwise changes nothing |
| Vectorize.TryBody | src/backend/awsome/services/tasks.py:52-129 | when the per-file `try` body completes, the file's record existed and only its status changed, to 1; when it raises, no file record changed |
| Vectorize.ProcessFile | src/backend/awsome/services/tasks.py:47-143 | one loop iteration: a missing entry key escapes with nothing changed; the file succeeds iff its `try` body completes; a file that does not escape had a status record. `TryFailureIsAbsorbed` and `FailureRecordsOwnMessage` give the failure case in both directions |
| Vectorize.RunFiles | src/backend/awsome/services/tasks.py:46-146 | one result per file reached; only the last can be an escaped exception; a normal return reached every file; a raise ends the log with that exception |
| Vectorize.Run | src/backend/awsome/services/tasks.py:25-146 | a parse failure raises with no effect; a setup failure returns with no effect; any other raise comes from an exception that escaped a file iteration |
| VectorizeJob.Backends.SaveDocument | src/backend/awsome/services/tasks.py:90 | the call changes the stores exactly as `Vectorize.SaveDocument` |
| VectorizeJob.Backends.CheckCollectionExists | src/backend/awsome/services/tasks.py:96 | the answer agrees with `Vectorize.CheckCollectionExists`, and when the call succeeds it is true iff the collection exists |
| VectorizeJob.Backends.CreateCollection | src/backend/awsome/services/tasks.py:98 | the call changes the stores exactly as `Vectorize.CreateCollection` |
| VectorizeJob.Backends.InsertData | src/backend/awsome/services/tasks.py:121 | the call changes the stores exactly as `Vectorize.InsertData` |
| VectorizeJob.Backends.SelectByFileId | src/backend/awsome/services/tasks.py:127 | the answer agrees with `Vectorize.SelectByFileId`; when the query succeeds, at most one record is found, and one iff the file id has a record |
| VectorizeJob.Backends.UpdateFile | src/backend/awsome/services/tasks.py:129 | the call changes the stores exactly as `Vectorize.UpdateFile` |
| VectorizeJob.RunFilesFirst | src/backend/awsome/services/tasks.py:46 | the loop runs the first file, then the rest of the list from the state that file left, unless that file's exception escaped |
| VectorizeJob.SaveChunkDocuments | src/backend/awsome/services/tasks.py:74-90 | the chunk loop of `save_document` calls has exactly the effect and error of `Vectorize.SaveDocuments` on the chunks' documents |
| VectorizeJob.EmbedChunks | src/backend/awsome/services/tasks.py:101-119 | the loop filling `insert_data` returns exactly `Vectorize.BuildRows` from an empty list |
| VectorizeJob.VectorizeFile | src/backend/awsome/services/tasks.py:52-129 | the per-file `try` body, run call by call on the stores, has exactly the effect and exception of `Vectorize.TryBody` |
| VectorizeJob.RecordFailure | src/backend/awsome/services/tasks.py:137-140 | the handler's lookup, in-place assignment and update have exactly the effect and exception of `Vectorize.MarkFailed` |
| VectorizeJob.CeleryTextVectorize | src/backend/awsome/services/tasks.py:25-146 | the whole job leaves the stores as `Vectorize.Run` does and ends the same way (return or raise) |
| VectorizeLemmas.LogFollowsFileOrder | src/backend/awsome/services/tasks.py:46-146 | the j-th result is what the loop body does to the j-th file in the state left by the files before it |
| VectorizeLemmas.FailedFileDoesNotStopLoop | src/backend/awsome/services/tasks.py:131-146 | after a file that ended with status 1 or -1, the next file is still processed, from the state the earlier files left |
| VectorizeLemmas.EveryFileProcessed | src/backend/awsome/services/tasks.py:46-146 | when the job returns normally after setup, it produced one result per file, each from processing that file after the files before it |
| VectorizeLemmas.EmptyPathRecordsDownloadFailure | src/backend/awsome/services/tasks.py:53 | a file with an empty download path ends with status -1 and the download-failure message in `extra`; neither store is written |
| VectorizeLemmas.FailureRecordsOwnMessage | src/backend/awsome/services/tasks.py:131-143 | a failed file's `extra` is the message of its own exception only; only its record changes, to status -1; the stores keep what the failed attempt wrote |
| VectorizeLemmas.MissingRecordEscapes | src/backend/awsome/services/tasks.py:137 | a file without a status record makes the handler raise IndexError, which escapes the job |
| VectorizeLemmas.TryFailureIsAbsorbed | src/backend/awsome/services/tasks.py:52-143 | whatever the `try` body raises, when the handler's lookup and update succeed the file ends with status -1 and its own error line, the stores keep what the attempt wrote, and the loop goes on |
| VectorizeLemmas.ExtractorFailureFailsFile | src/backend/awsome/services/tasks.py:63-66 | an extractor that raises gives status -1 with its message, and neither store is written |
| VectorizeLemmas.HandlerLookupFailureEscapes | src/backend/awsome/services/tasks.py:131-140 | when the `try` body raised and the handler's own status lookup fails, that exception escapes the job, leaving the stores as the attempt left them |
| VectorizeLemmas.TryBodyReachesWriteBack | src/backend/awsome/services/tasks.py:52-129 | when every call up to the insert succeeds, the `try` body ends with the success write-back, run after all documents and the row batch were written |
| VectorizeLemmas.WriteBackLookupFailureFailsFile | src/backend/awsome/services/tasks.py:121-143 | when the write-back lookup fails and the handler's lookup succeeds, the file keeps its documents and rows, ends with status -1 and the lookup's message, and the loop goes on |
| VectorizeLemmas.SavedDocumentsSucceeded | src/backend/awsome/services/tasks.py:74-90 | every document the search-index pass wrote was saved without error |
| VectorizeLemmas.SaveDocumentsAppendsAll | src/backend/awsome/services/tasks.py:74-90 | when no save fails, every document is appended, in order |
| VectorizeLemmas.TryBodySucceeds | src/backend/awsome/services/tasks.py:52-129 | when every call succeeds, the `try` body appends all documents, appends one batch of rows to the existing or newly created collection, and sets status 1 |
| VectorizeLemmas.SuccessfulFileWritesEveryChunk | src/backend/awsome/services/tasks.py:74-129 | a fully successful file gains exactly one search document and one vector row per chunk, in extractor order, leaves other collections untouched, and gets status 1 with `extra` kept |
| VectorizeLemmas.EmbeddingFailureKeepsSearchDocuments | src/backend/awsome/services/tasks.py:74-140 | when an embedding fails, the search index keeps all the file's documents, the collection gains no row, and the file gets status -1 with the first failing embedding's message |
| VectorizeLemmas.SearchWriteFailureSkipsVectorStore | src/backend/awsome/services/tasks.py:74-140 | when the k-th search write fails, the first k documents stay written, no collection changes, and the file gets status -1 with that write's message |
| VectorizeLemmas.LayoutFlagSkipsExtraction | src/backend/awsome/services/tasks.py:57-66 | with `enable_layout` other than 0 no document and no row is written, the collection is still ensured and the file gets status 1 |
| VectorizeLemmas.EnsureCollectionCreatesOnlyWhenAbsent | src/backend/awsome/services/tasks.py:96-98 | an existing collection is left as it is; an absent one is created empty with the 768-dimension schema, or its creation error is raised |
| VectorizeLemmas.EnsureCollectionIdempotent | src/backend/awsome/services/tasks.py:96-98 | ensuring the collection twice has the effect of ensuring it once |
| VectorizeLemmas.FieldMappingPerKey | src/backend/awsome/services/tasks.py:79-115 | for every chunk and each of its four keys on its own: a present key's value is copied into the document and the row (bbox through `str()`), a missing key gives its default, text and bbox "", start page and chunk index 0 |
| VectorizeLemmas.MissingKeysUseDefaults | src/backend/awsome/services/tasks.py:79-118 | missing chunk keys give text "", bbox "" (rendered "" in the row), start page 0 and chunk index 0 in both the document and the row; `extra` is always "" |
| VectorizeLemmas.ProjectionsAgree | src/backend/awsome/services/tasks.py:77-118 | the search document and the vector row of a chunk carry the same field values, except that the row's bbox is the `str()` rendering of the document's (equal when it is a string); the row's text is the title, a colon and the document's text |
| VectorizeLemmas.RowColumns | src/backend/awsome/services/tasks.py:105-118 | the inserted row's columns are exactly the names of the fields of either default schema other than `pk` |
| VectorizeLemmas.RowValuesFitSchema | src/backend/awsome/services/constant.py:22-34 | every column of the inserted row other than `pk` holds a value of the type the schema declares |
| ConversationKnowledgeLinks.SoftDelete | src/backend/awsome/models/dao/conversation_knowledge_link.py:84-91 | the bulk update keeps every row and its key; it sets `delete` to 1 exactly on the conversation's rows and leaves every other flag |
| ConversationKnowledgeLinks.ActiveLinks | src/backend/awsome/models/dao/conversation_knowledge_link.py:94-102 | a link is selected iff it is in the table, belongs to the conversation and has `delete` 0 |
| ConversationKnowledgeLinks.AttachedKnowledge | src/backend/awsome/models/dao/conversation_knowledge_link.py:105-109 | a knowledge base is in the result iff some link points to it and its own `delete` is 0; there are at most as many as links |
| ConversationKnowledgeLinks.LinkTable.Create | src/backend/awsome/models/dao/conversation_knowledge_link.py:74-81 | the insert succeeds iff the pair has no row yet (live or soft-deleted) and both parents exist; it then appends the link with `delete` 0; otherwise the table is unchanged; the key and foreign-key invariant is kept |
| ConversationKnowledgeLinks.LinkTable.Delete | src/backend/awsome/models/dao/conversation_knowledge_link.py:84-91 | the row-by-row update leaves the table equal to `SoftDelete`, and the invariant is kept |
| ConversationKnowledgeLinks.LinkTable.GetActiveLinks | src/backend/awsome/models/dao/conversation_knowledge_link.py:94-102 | returns exactly the table's links of the conversation with `delete` 0 |
| ConversationKnowledgeLinks.LinkTable.GetAttachedKnowledge | src/backend/awsome/models/dao/conversation_knowledge_link.py:105-109 | at most one knowledge base per active link; each has `delete` 0 and is the target of an active link of the conversation, whose knowledge id is its own id |
| ConversationKnowledgeLinks.SoftDeleteIsFlagged | src/backend/awsome/models/dao/conversation_knowledge_link.py:86-88 | the soft delete flags each row on its own |
| ConversationKnowledgeLinks.DeleteIdempotent | src/backend/awsome/models/dao/conversation_knowledge_link.py:86-88 | deleting a conversation twice leaves the table as deleting it once |
| ConversationKnowledgeLinks.NoActiveLinkAfterDelete | src/backend/awsome/models/dao/conversation_knowledge_link.py:84-102 | after deleting a conversation its active-links query is empty |
| ConversationKnowledgeLinks.DeleteKeepsOtherConversations | src/backend/awsome/models/dao/conversation_knowledge_link.py:84-102 | deleting one conversation leaves every other conversation's active links as they were |
| ConversationKnowledgeLinks.DeleteKeepsKeys | src/backend/awsome/models/dao/conversation_knowledge_link.py:24-25 | a soft-deleted row keeps its key, so the same pair cannot be created again |
| ConversationKnowledgeLinks.ActiveLinksInTableOrder | src/backend/awsome/models/dao/conversation_knowledge_link.py:94-102 | the query keeps table order: on a table split in two it returns the first part's links, then the second's |
| ConversationKnowledgeLinks.CreatedLinkIsActive | src/backend/awsome/models/dao/conversation_knowledge_link.py:74-102 | a newly created link is the last active link of its conversation |
| ConversationKnowledgeLinks.AttachedKnowledgeInLinkOrder | src/backend/awsome/models/dao/conversation_knowledge_link.py:105-109 | the attached knowledge follows link order: on links split in two it is the first part's result, then the second's |

## Left out

- Only one run of the task in isolation is modelled. Concurrent runs are not: two runs could both find the collection absent and both create it (the check and the create at tasks.py:96-98 are not atomic), and their status writes could interleave.
- Celery's task wrapper (retry count, backoff and maximum delay, tasks.py:17-24) is not modelled. The model only says whether `run` returns or raises, and so whether the queue would retry.
- Logging is left out, including the retry-count log line in the handler.
- The MinIO client is instantiated in the setup phase, but the job makes no call to it. The whole setup phase is one oracle `setupError` of the embedding model name. That phase is three client constructors (MinIO, Milvus, Elasticsearch) and one `ModelFactory.create_client` call.
- Payload parsing (`parse_obj`, tasks.py:26) is not modelled. `Run` receives its outcome as a `Result`; a parse error raises out of `run`.
- The PDF extractor, the embedding model, Elasticsearch, Milvus and the knowledge-file service (both its lookup and its update) are oracles in `Services`. Each call's outcome is a fixed function of its arguments. A failing store call writes nothing, and a batch insert is all or nothing.
- The Milvus server's own checks are not modelled: vector dimension, VARCHAR length and column types at insert. `RowValuesFitSchema` states the types the job supplies.
- The collection records only its schema and rows. The index built at creation (`milvus_default_index_params`) is in `MilvusSchema` but is not tracked per collection.
- Inserting into a missing collection fails with the text "collection not found". The job ensures the collection first, so this path is not reached in a normal run.
- The bbox value is either a string or a structured value. A structured value is given by the text `str()` renders it as. How Python renders lists and floats is not computed.
- Elasticsearch's field typing is not modelled: `file_id` is a string in both stores.
- Embedding vectors are opaque sequences of reals. Their length is not checked.
- Of the `KnowledgeFile` record, only `status` and `extra` are modelled. Assigning them in place on the fetched ORM object is modelled as updating a record value.
- Only the `id` and `delete` columns of a knowledge base are modelled. The link timestamps (`created_at`, `updated_at`), the ORM relationships' lazy loading and the async sessions are left out.
- The integrity errors on `create` are modelled with fixed texts ("duplicate primary key", "foreign key constraint fails"). The database's own messages are not modelled.
- The active-links query returns rows in table (insertion) order. SQL does not fix an order without `ORDER BY`, so that order is the model's assumption.
- ConversationKnowledgeLinks.LinkTable.GetAttachedKnowledge: states membership in one direction only and a length bound. The exact result, in link order, is `AttachedKnowledge` of the active links, whose contract gives both directions.
- ConversationKnowledgeLinks.LinkTable.GetAttachedKnowledge: requires the foreign keys (`Valid`). A link whose knowledge row is missing would make `link.knowledge` None and the comprehension raise; the table's foreign key rules that out.
