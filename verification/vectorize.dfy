/**
 * The background vectorisation job `celery_text_vectorize` (services/tasks.py), as functions over
 * the state of the stores it writes to. Every external collaborator (PDF extractor, embedding
 * model, Elasticsearch, Milvus, the knowledge-file table) is an oracle in `Services` that may fail;
 * a failing call raises an exception whose text is the oracle's error string.
 *
 * The imperative job in module VectorizeJob is proved to compute exactly `Run`.
 */
module Vectorize {
  import opened Wrappers
  import MilvusSchema

  /** One entry of `file_info_list`: a dict from key to value. */
  type FileInfo = map<string, string>

  /** `KnowledgeFileVectorizeTasks`, the parsed task payload. */
  datatype VectorizeTask = VectorizeTask(
    targetKbId: string,
    collectionName: string,
    indexName: string,
    embeddingName: string,
    chunkSize: int,
    repeatSize: int,
    enableLayout: int,
    fileInfoList: seq<FileInfo>)

  /** The four values the job reads from a file entry. */
  datatype FileEntry = FileEntry(savePath: string, fileName: string, fileId: string, objectName: string)

  /**
   * The `chunk_bboxes` value of an extractor result: either a string, or a structured value (such
   * as a list of boxes) given by the text Python's `str()` renders it as.
   */
  datatype Bboxes = BboxText(text: string) | BboxValue(repr: string)

  /** Python's `str()` of a `chunk_bboxes` value: the identity on strings, the rendering otherwise. */
  function Render(b: Bboxes): (r: string)
    ensures b.BboxText? ==> r == b.text
  {
    match b
    case BboxText(t) => t
    case BboxValue(t) => t
  }

  /** One extractor result: a dict whose keys may each be missing. */
  datatype Chunk = Chunk(
    chunk: Option<string>,
    chunkBboxes: Option<Bboxes>,
    startPage: Option<int>,
    chunkIndex: Option<int>)

  /** An embedding; its contents are opaque to the job. */
  type Vector = seq<real>

  /**
   * The `metadata` object of a search document. The Elasticsearch mapping names the page field
   * `page`, while the job assigns `start_page`; the model follows the job.
   */
  datatype Metadata = Metadata(
    bbox: Bboxes,
    startPage: int,
    source: string,
    title: string,
    chunkIndex: int,
    extra: string,
    fileId: string,
    knowledgeId: string)

  /** `SaveDocument`: the full-text document of one chunk and the index it is saved to. */
  datatype SearchDocument = SearchDocument(indexName: string, text: string, metadata: Metadata)

  /** A value of one column of a Milvus row. */
  datatype FieldValue = Str(s: string) | Int(i: int) | FloatVec(v: Vector)

  /** One row of `insert_data`: a dict from column name to value. */
  type Row = map<string, FieldValue>

  /** A Milvus collection: the schema it was created with and its rows in insertion order. */
  datatype Collection = Collection(fields: seq<MilvusSchema.FieldSchema>, rows: seq<Row>)

  /** The columns of a `KnowledgeFile` record that the job touches. */
  datatype FileRecord = FileRecord(status: int, extra: string)

  /**
   * The two places the job looks a file record up: the success write-back at the end of the `try`
   * body, and the exception handler. They are separate queries, so one can fail while the other
   * does not.
   */
  datatype LookupSite = WriteBack | Handler

  /** The external state: Elasticsearch documents, Milvus collections by name, file records by id. */
  datatype World = World(
    documents: seq<SearchDocument>,
    collections: map<string, Collection>,
    files: map<string, FileRecord>)

  /**
   * The external collaborators. The outcome of each call is a fixed function of its arguments;
   * a store call that fails writes nothing.
   */
  datatype Services = Services(
    setupError: string -> Option<string>,             // instantiating the clients, given the embedding model name
    extract: (string, int, int) -> Result<seq<Chunk>>, // `PdfExtractTool(path, chunk_size, repeat_size).extract()`
    embed: string -> Result<Vector>,                   // `client.get_embeddings(...).data[0].embedding`
    saveError: SearchDocument -> Option<string>,       // `es_client.save_document`
    existsError: string -> Option<string>,             // `milvus_client.check_collection_exists`
    createError: string -> Option<string>,             // `milvus_client.create_collection`
    insertError: (string, seq<Row>) -> Option<string>, // `milvus_client.insert_data`
    selectError: (string, LookupSite) -> Option<string>, // `KnowledgeFileService.select_by_file_id`, per call site
    updateError: (string, FileRecord) -> Option<string>) // `KnowledgeFileService.update_file`

  /** The new state after a store call, and the exception it raised, if any. */
  datatype Effect = Effect(world: World, error: Option<string>)

  /** How one file ended: status 1, status -1 with its `extra`, or an exception that left the loop. */
  datatype FileResult = Succeeded | Failed(extra: string) | Escaped(error: string)

  datatype FileStep = FileStep(world: World, result: FileResult)

  /** How `run` ended: a normal return, or an exception that reaches the task queue (which retries it). */
  datatype RunOutcome = Returned | Raised(error: string)

  /** The final state, the outcome and one result per file the loop reached, in list order. */
  datatype Progress = Progress(world: World, outcome: RunOutcome, log: seq<FileResult>)

  /** Text of the exception raised for a file whose download path is empty. */
  const DownloadFailed: string := "文件下载失败"
  /** Text of the IndexError raised by `select_by_file_id(file_id)[0]` when there is no record. */
  const IndexOutOfRange: string := "list index out of range"
  /** Text of the error the vector store raises on an insert into a missing collection. */
  const CollectionNotFound: string := "collection not found"

  /** The `extra` recorded for a file whose processing raised `error`. */
  function ErrorLine(fileName: string, error: string): (r: string)
    ensures |r| == 2 + |fileName| + 5 + |error| + 1
    ensures r[..2] == "文件" && r[2..2 + |fileName|] == fileName && r[2 + |fileName|..2 + |fileName| + 5] == "解析异常:"
    ensures r[|r| - 1 - |error|..|r| - 1] == error && r[|r| - 1] == '\n'
  {
    "文件" + fileName + "解析异常:" + error + "\n"
  }

  /** The keys of a file entry, in the order the job reads them. */
  const EntryKeys: seq<string> := ["file_save_path", "file_name", "file_id", "file_object_name"]

  /** The text of the KeyError for a missing key: the key in single quotes. */
  function KeyErrorText(key: string): string
  {
    "'" + key + "'"
  }

  /**
   * Reads the four keys of a file entry in source order; a missing key raises a KeyError whose text
   * is the quoted key, for the first key missing in that order.
   */
  function ReadEntry(info: FileInfo): (r: Result<FileEntry>)
    ensures r.Ok? <==> {"file_save_path", "file_name", "file_id", "file_object_name"} <= info.Keys
    ensures r.Ok? ==> r.value == FileEntry(info["file_save_path"], info["file_name"], info["file_id"], info["file_object_name"])
    ensures r.Err? ==> exists i :: 0 <= i < |EntryKeys| && EntryKeys[i] !in info && r.error == KeyErrorText(EntryKeys[i])
                                   && forall j :: 0 <= j < i ==> EntryKeys[j] in info
  {
    if "file_save_path" !in info then assert EntryKeys[0] !in info; Err(KeyErrorText("file_save_path"))
    else if "file_name" !in info then assert EntryKeys[0] in info && EntryKeys[1] !in info; Err(KeyErrorText("file_name"))
    else if "file_id" !in info then assert EntryKeys[1] in info && EntryKeys[2] !in info; Err(KeyErrorText("file_id"))
    else if "file_object_name" !in info then
      assert forall j :: 0 <= j < 3 ==> EntryKeys[j] in info;
      assert EntryKeys[3] !in info;
      Err(KeyErrorText("file_object_name"))
    else Ok(FileEntry(info["file_save_path"], info["file_name"], info["file_id"], info["file_object_name"]))
  }

  /** `chunk.get("chunk", "")`: the text that is indexed and embedded. */
  function ChunkText(c: Chunk): string
  {
    c.chunk.GetOr("")
  }

  /** The search document built for one chunk: saved to the task's index and attributed to its file and knowledge base. */
  function MakeDocument(task: VectorizeTask, e: FileEntry, c: Chunk): (r: SearchDocument)
    ensures r.indexName == task.indexName && r.metadata.extra == ""
    ensures r.metadata.fileId == e.fileId && r.metadata.knowledgeId == task.targetKbId
  {
    SearchDocument(
      indexName := task.indexName,
      text := ChunkText(c),
      metadata := Metadata(
        bbox := c.chunkBboxes.GetOr(BboxText("")),
        startPage := c.startPage.GetOr(0),
        source := e.objectName,
        title := e.fileName,
        chunkIndex := c.chunkIndex.GetOr(0),
        extra := "",
        fileId := e.fileId,
        knowledgeId := task.targetKbId))
  }

  /** The search documents of a file's chunks, in extractor order. */
  function Documents(task: VectorizeTask, e: FileEntry, chunks: seq<Chunk>): seq<SearchDocument>
  {
    seq(|chunks|, i requires 0 <= i < |chunks| => MakeDocument(task, e, chunks[i]))
  }

  /** The vector-store row built for one chunk and its embedding; the primary key is left to the store. */
  function MakeRow(task: VectorizeTask, e: FileEntry, c: Chunk, v: Vector): (r: Row)
    ensures "pk" !in r
    ensures "vector" in r && r["vector"] == FloatVec(v)
  {
    map[
      "bbox" := Str(Render(c.chunkBboxes.GetOr(BboxText("")))),
      "start_page" := Int(c.startPage.GetOr(0)),
      "source" := Str(e.objectName),
      "title" := Str(e.fileName),
      "chunk_index" := Int(c.chunkIndex.GetOr(0)),
      "extra" := Str(""),
      "file_id" := Str(e.fileId),
      "knowledge_id" := Str(task.targetKbId),
      "text" := Str(e.fileName + ":" + ChunkText(c)),
      "vector" := FloatVec(v)]
  }

  /** The chunks of a file: the extractor's only when `enable_layout` is 0, none otherwise. */
  function Extract(svc: Services, task: VectorizeTask, path: string): (r: Result<seq<Chunk>>)
    ensures task.enableLayout != 0 ==> r == Ok([])
    ensures task.enableLayout == 0 ==> r == svc.extract(path, task.chunkSize, task.repeatSize)
  {
    if task.enableLayout == 1 then Ok([])
    else if task.enableLayout == 0 then svc.extract(path, task.chunkSize, task.repeatSize)
    else Ok([])
  }

  // ---- single calls to the stores ----

  /** `es_client.save_document`: appends the document unless the call fails. */
  function SaveDocument(w: World, svc: Services, doc: SearchDocument): Effect
  {
    match svc.saveError(doc)
    case Some(x) => Effect(w, Some(x))
    case None => Effect(w.(documents := w.documents + [doc]), None)
  }

  /** `milvus_client.check_collection_exists`. */
  function CheckCollectionExists(w: World, svc: Services, name: string): Result<bool>
  {
    match svc.existsError(name)
    case Some(x) => Err(x)
    case None => Ok(name in w.collections)
  }

  /** `milvus_client.create_collection`: a new, empty collection with the given schema. */
  function CreateCollection(w: World, svc: Services, name: string, fields: seq<MilvusSchema.FieldSchema>): Effect
  {
    match svc.createError(name)
    case Some(x) => Effect(w, Some(x))
    case None => Effect(w.(collections := w.collections[name := Collection(fields, [])]), None)
  }

  /** `milvus_client.insert_data`: one batch, appended as a whole or not at all. */
  function InsertData(w: World, svc: Services, name: string, rows: seq<Row>): Effect
  {
    if name !in w.collections then Effect(w, Some(CollectionNotFound))
    else match svc.insertError(name, rows)
      case Some(x) => Effect(w, Some(x))
      case None =>
        var c := w.collections[name];
        Effect(w.(collections := w.collections[name := c.(rows := c.rows + rows)]), None)
  }

  /** `KnowledgeFileService.select_by_file_id` at `site`: the records with that id (at most one), unless the query fails. */
  function SelectByFileId(w: World, svc: Services, fileId: string, site: LookupSite): (r: Result<seq<FileRecord>>)
    ensures r.Ok? <==> svc.selectError(fileId, site).None?
    ensures r.Ok? ==> |r.value| <= 1 && (|r.value| == 1 <==> fileId in w.files)
    ensures r.Ok? && fileId in w.files ==> r.value[0] == w.files[fileId]
  {
    match svc.selectError(fileId, site)
    case Some(x) => Err(x)
    case None => Ok(if fileId in w.files then [w.files[fileId]] else [])
  }

  /** `KnowledgeFileService.update_file`: stores the record under its id unless the call fails. */
  function UpdateFile(w: World, svc: Services, fileId: string, rec: FileRecord): Effect
  {
    match svc.updateError(fileId, rec)
    case Some(x) => Effect(w, Some(x))
    case None => Effect(w.(files := w.files[fileId := rec]), None)
  }

  // ---- the steps of one file ----

  /** The search-index pass: saves the documents in order and stops at the first failing save. */
  function SaveDocuments(w: World, svc: Services, docs: seq<SearchDocument>): (r: Effect)
    decreases |docs|
    ensures r.world.collections == w.collections && r.world.files == w.files
    ensures |w.documents| <= |r.world.documents| <= |w.documents| + |docs|
    ensures r.world.documents == w.documents + docs[..|r.world.documents| - |w.documents|]
    ensures r.error.None? <==> |r.world.documents| == |w.documents| + |docs|
    ensures r.error.Some? ==> r.error == svc.saveError(docs[|r.world.documents| - |w.documents|])
  {
    if |docs| == 0 then Effect(w, None)
    else
      var first := SaveDocument(w, svc, docs[0]);
      if first.error.Some? then first
      else
        var rest := SaveDocuments(first.world, svc, docs[1..]);
        assert docs[..1] + docs[1..][..|rest.world.documents| - |first.world.documents|]
            == docs[..|rest.world.documents| - |w.documents|];
        rest
  }

  /** Creates the collection with the 768-dimension schema when it does not exist yet. */
  function EnsureCollection(w: World, svc: Services, name: string): (r: Effect)
    ensures r.world.documents == w.documents && r.world.files == w.files
    ensures r.error.None? ==> name in r.world.collections
    ensures forall n :: n in w.collections ==> n in r.world.collections && r.world.collections[n] == w.collections[n]
  {
    match CheckCollectionExists(w, svc, name)
    case Err(x) => Effect(w, Some(x))
    case Ok(present) =>
      if present then Effect(w, None)
      else CreateCollection(w, svc, name, MilvusSchema.Fields768)
  }

  /**
   * The embedding pass: embeds the chunks in order, appending one row per chunk to `acc`
   * (`insert_data`), and stops at the first failing embedding.
   */
  function BuildRows(svc: Services, task: VectorizeTask, e: FileEntry, chunks: seq<Chunk>, acc: seq<Row>): (r: Result<seq<Row>>)
    decreases |chunks|
    ensures r.Ok? <==> forall j :: 0 <= j < |chunks| ==> svc.embed(ChunkText(chunks[j])).Ok?
    ensures r.Ok? ==> |r.value| == |acc| + |chunks| && r.value[..|acc|] == acc
    ensures r.Ok? ==> forall j :: 0 <= j < |chunks| ==>
      r.value[|acc| + j] == MakeRow(task, e, chunks[j], svc.embed(ChunkText(chunks[j])).value)
    ensures r.Err? ==> exists j :: 0 <= j < |chunks| && svc.embed(ChunkText(chunks[j])) == Err(r.error)
                               && forall i :: 0 <= i < j ==> svc.embed(ChunkText(chunks[i])).Ok?
  {
    if |chunks| == 0 then Ok(acc)
    else match svc.embed(ChunkText(chunks[0]))
      case Err(x) => Err(x)
      case Ok(v) =>
        var r := BuildRows(svc, task, e, chunks[1..], acc + [MakeRow(task, e, chunks[0], v)]);
        assert forall j :: 1 <= j < |chunks| ==> chunks[1..][j - 1] == chunks[j];
        r
  }

  /** The success write-back: the file's status becomes 1; its `extra` is kept. */
  function MarkSucceeded(w: World, svc: Services, fileId: string): (r: Effect)
    ensures r.error.None? <==> svc.selectError(fileId, WriteBack).None? && fileId in w.files
                               && svc.updateError(fileId, w.files[fileId].(status := 1)).None?
    ensures r.world == if r.error.None? then w.(files := w.files[fileId := w.files[fileId].(status := 1)]) else w
  {
    match SelectByFileId(w, svc, fileId, WriteBack)
    case Err(x) => Effect(w, Some(x))
    case Ok(found) =>
      if |found| == 0 then Effect(w, Some(IndexOutOfRange))
      else UpdateFile(w, svc, fileId, found[0].(status := 1))
  }

  /** The failure write-back: the file's status becomes -1 and its `extra` the error text. */
  function MarkFailed(w: World, svc: Services, fileId: string, extra: string): (r: Effect)
    ensures r.error.None? <==> svc.selectError(fileId, Handler).None? && fileId in w.files
                               && svc.updateError(fileId, FileRecord(-1, extra)).None?
    ensures r.world == if r.error.None? then w.(files := w.files[fileId := FileRecord(-1, extra)]) else w
  {
    match SelectByFileId(w, svc, fileId, Handler)
    case Err(x) => Effect(w, Some(x))
    case Ok(found) =>
      if |found| == 0 then Effect(w, Some(IndexOutOfRange))
      else UpdateFile(w, svc, fileId, found[0].(status := -1, extra := extra))
  }

  /**
   * The body of the per-file `try`: download guard, extraction, the search-index pass, the
   * collection check, the embedding pass, one batch insert, and the success write-back. The first
   * exception ends it.
   */
  function TryBody(w: World, svc: Services, task: VectorizeTask, e: FileEntry): (r: Effect)
    ensures r.error.None? ==> e.fileId in w.files
    ensures r.world.files == if r.error.None? then w.files[e.fileId := w.files[e.fileId].(status := 1)] else w.files
  {
    if e.savePath == "" then Effect(w, Some(DownloadFailed))
    else match Extract(svc, task, e.savePath)
      case Err(x) => Effect(w, Some(x))
      case Ok(chunks) =>
        var saved := SaveDocuments(w, svc, Documents(task, e, chunks));
        if saved.error.Some? then saved
        else
          var ensured := EnsureCollection(saved.world, svc, task.collectionName);
          if ensured.error.Some? then ensured
          else match BuildRows(svc, task, e, chunks, [])
            case Err(x) => Effect(ensured.world, Some(x))
            case Ok(rows) =>
              var inserted := InsertData(ensured.world, svc, task.collectionName, rows);
              if inserted.error.Some? then inserted
              else MarkSucceeded(inserted.world, svc, e.fileId)
  }

  /**
   * One iteration of the file loop: read the entry (outside the `try`), run the `try` body, and on
   * an exception record status -1 with the error text; an exception in that handler leaves the loop.
   */
  function ProcessFile(w: World, svc: Services, task: VectorizeTask, info: FileInfo): (s: FileStep)
    ensures ReadEntry(info).Err? ==> s == FileStep(w, Escaped(ReadEntry(info).error))
    ensures s.result.Succeeded? <==> ReadEntry(info).Ok? && TryBody(w, svc, task, ReadEntry(info).value).error.None?
    ensures !s.result.Escaped? ==> ReadEntry(info).Ok? && ReadEntry(info).value.fileId in w.files
  {
    match ReadEntry(info)
    case Err(x) => FileStep(w, Escaped(x))
    case Ok(e) =>
      var attempt := TryBody(w, svc, task, e);
      if attempt.error.None? then FileStep(attempt.world, Succeeded)
      else
        var extra := ErrorLine(e.fileName, attempt.error.value);
        var marked := MarkFailed(attempt.world, svc, e.fileId, extra);
        if marked.error.Some? then FileStep(marked.world, Escaped(marked.error.value))
        else FileStep(marked.world, Failed(extra))
  }

  /** The iteration the file loop runs for every entry of `file_info_list`. */
  function FileIteration(svc: Services, task: VectorizeTask): (World, FileInfo) -> FileStep
  {
    (w, info) => ProcessFile(w, svc, task, info)
  }

  /**
   * The file loop: `iteration` is applied to the files one after the other, in list order; only
   * an exception that escapes an iteration stops the loop, and it then escapes `run`.
   */
  function RunFiles(w: World, iteration: (World, FileInfo) -> FileStep, files: seq<FileInfo>): (p: Progress)
    decreases |files|
    ensures |p.log| <= |files|
    ensures forall j :: 0 <= j < |p.log| - 1 ==> !p.log[j].Escaped?
    ensures p.outcome == Returned ==> |p.log| == |files| && (p.log != [] ==> !p.log[|p.log| - 1].Escaped?)
    ensures p.outcome.Raised? ==> p.log != [] && p.log[|p.log| - 1] == Escaped(p.outcome.error)
  {
    if |files| == 0 then Progress(w, Returned, [])
    else
      var step := iteration(w, files[0]);
      if step.result.Escaped? then Progress(step.world, Raised(step.result.error), [step.result])
      else
        var rest := RunFiles(step.world, iteration, files[1..]);
        var log := [step.result] + rest.log;
        assert log[0] == step.result && forall j :: 1 <= j < |log| ==> log[j] == rest.log[j - 1];
        Progress(rest.world, rest.outcome, log)
  }

  /**
   * `celery_text_vectorize`: `parsed` is the outcome of parsing the payload. A setup failure
   * returns normally without touching any store, so the queue does not retry it.
   */
  function Run(w: World, svc: Services, parsed: Result<VectorizeTask>): (p: Progress)
    ensures parsed.Err? ==> p == Progress(w, Raised(parsed.error), [])
    ensures parsed.Ok? && svc.setupError(parsed.value.embeddingName).Some? ==> p == Progress(w, Returned, [])
    ensures p.outcome.Raised? ==> parsed.Err? || (p.log != [] && p.log[|p.log| - 1].Escaped?)
  {
    match parsed
    case Err(x) => Progress(w, Raised(x), [])
    case Ok(task) =>
      if svc.setupError(task.embeddingName).Some? then Progress(w, Returned, [])
      else RunFiles(w, FileIteration(svc, task), task.fileInfoList)
  }
}
