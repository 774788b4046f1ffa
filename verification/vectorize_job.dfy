/**
 * The vectorisation job as `celery_text_vectorize` runs it: a loop over the files of the task
 * that calls the stores one at a time, appends to `insert_data`, and keeps the error accumulator
 * `file_vectorize_err_msg`. Each method is proved to compute the matching function of module
 * Vectorize, and the job as a whole computes `Vectorize.Run`.
 */
module VectorizeJob {
  import opened Wrappers
  import MilvusSchema
  import opened Vectorize

  /** The stores the job changes: Elasticsearch, Milvus and the knowledge-file table. */
  class Backends {
    var documents: seq<SearchDocument>
    var collections: map<string, Collection>
    var files: map<string, FileRecord>

    /** The current state of the three stores. */
    function Snapshot(): World
      reads this
    {
      World(documents, collections, files)
    }

    constructor (w: World)
      ensures Snapshot() == w
    {
      documents := w.documents;
      collections := w.collections;
      files := w.files;
    }

    /** `es_client.save_document(save_document)`. */
    method SaveDocument(svc: Services, doc: SearchDocument) returns (err: Option<string>)
      modifies this
      ensures Effect(Snapshot(), err) == Vectorize.SaveDocument(old(Snapshot()), svc, doc)
    {
      err := svc.saveError(doc);
      if err.None? {
        documents := documents + [doc];
      }
    }

    /** `milvus_client.check_collection_exists(name)`. */
    method CheckCollectionExists(svc: Services, name: string) returns (r: Result<bool>)
      ensures r == Vectorize.CheckCollectionExists(Snapshot(), svc, name)
      ensures r.Ok? ==> (r.value <==> name in collections)
    {
      match svc.existsError(name)
      case Some(x) => r := Err(x);
      case None => r := Ok(name in collections);
    }

    /** `milvus_client.create_collection(name, fields)`. */
    method CreateCollection(svc: Services, name: string, fields: seq<MilvusSchema.FieldSchema>) returns (err: Option<string>)
      modifies this
      ensures Effect(Snapshot(), err) == Vectorize.CreateCollection(old(Snapshot()), svc, name, fields)
    {
      err := svc.createError(name);
      if err.None? {
        collections := collections[name := Collection(fields, [])];
      }
    }

    /** `milvus_client.insert_data(name, rows)`: one batch. */
    method InsertData(svc: Services, name: string, rows: seq<Row>) returns (err: Option<string>)
      modifies this
      ensures Effect(Snapshot(), err) == Vectorize.InsertData(old(Snapshot()), svc, name, rows)
    {
      if name !in collections {
        return Some(CollectionNotFound);
      }
      err := svc.insertError(name, rows);
      if err.None? {
        var c := collections[name];
        collections := collections[name := c.(rows := c.rows + rows)];
      }
    }

    /** `KnowledgeFileService.select_by_file_id(file_id)`, called at `site`. */
    method SelectByFileId(svc: Services, fileId: string, site: LookupSite) returns (found: Result<seq<FileRecord>>)
      ensures found == Vectorize.SelectByFileId(Snapshot(), svc, fileId, site)
      ensures found.Ok? ==> |found.value| <= 1 && (|found.value| == 1 <==> fileId in files)
    {
      match svc.selectError(fileId, site)
      case Some(x) => found := Err(x);
      case None =>
        if fileId in files {
          found := Ok([files[fileId]]);
        } else {
          found := Ok([]);
        }
    }

    /** `KnowledgeFileService.update_file(record)`. */
    method UpdateFile(svc: Services, fileId: string, rec: FileRecord) returns (err: Option<string>)
      modifies this
      ensures Effect(Snapshot(), err) == Vectorize.UpdateFile(old(Snapshot()), svc, fileId, rec)
    {
      err := svc.updateError(fileId, rec);
      if err.None? {
        files := files[fileId := rec];
      }
    }
  }

  /** One step of the file loop: the first file's iteration, then the rest of the list unless it escaped. */
  lemma RunFilesFirst(w: World, svc: Services, task: VectorizeTask, files: seq<FileInfo>)
    requires files != []
    ensures var step := ProcessFile(w, svc, task, files[0]);
      var loop := FileIteration(svc, task);
      && RunFiles(w, loop, files).world
         == (if step.result.Escaped? then step.world else RunFiles(step.world, loop, files[1..]).world)
      && RunFiles(w, loop, files).outcome
         == (if step.result.Escaped? then Raised(step.result.error) else RunFiles(step.world, loop, files[1..]).outcome)
  {
  }

  /** The search-index pass: one `save_document` per chunk, in extractor order. */
  method SaveChunkDocuments(db: Backends, svc: Services, task: VectorizeTask, e: FileEntry, chunks: seq<Chunk>)
    returns (err: Option<string>)
    modifies db
    ensures Effect(db.Snapshot(), err) == SaveDocuments(old(db.Snapshot()), svc, Documents(task, e, chunks))
  {
    ghost var docs := Documents(task, e, chunks);
    for j := 0 to |chunks|
      invariant SaveDocuments(old(db.Snapshot()), svc, docs) == SaveDocuments(db.Snapshot(), svc, docs[j..])
    {
      var saveDocument := MakeDocument(task, e, chunks[j]);
      assert docs[j..][0] == saveDocument && docs[j..][1..] == docs[j + 1..];
      err := db.SaveDocument(svc, saveDocument);
      if err.Some? {
        return;
      }
    }
    err := None;
  }

  /** The embedding pass: one embedding per chunk, each appended to `insert_data` as a row. */
  method EmbedChunks(svc: Services, task: VectorizeTask, e: FileEntry, chunks: seq<Chunk>) returns (r: Result<seq<Row>>)
    ensures r == BuildRows(svc, task, e, chunks, [])
  {
    var insertData: seq<Row> := [];
    for j := 0 to |chunks|
      invariant BuildRows(svc, task, e, chunks, []) == BuildRows(svc, task, e, chunks[j..], insertData)
    {
      var chunkVector := svc.embed(ChunkText(chunks[j]));
      assert chunks[j..][0] == chunks[j] && chunks[j..][1..] == chunks[j + 1..];
      if chunkVector.Err? {
        return Err(chunkVector.error);
      }
      insertData := insertData + [MakeRow(task, e, chunks[j], chunkVector.value)];
    }
    r := Ok(insertData);
  }

  /** The `try` body for one file; the returned error is the exception it raised. */
  method VectorizeFile(db: Backends, svc: Services, task: VectorizeTask, e: FileEntry) returns (err: Option<string>)
    modifies db
    ensures Effect(db.Snapshot(), err) == TryBody(old(db.Snapshot()), svc, task, e)
  {
    if e.savePath == "" {
      return Some(DownloadFailed);
    }
    var extractResults: seq<Chunk> := [];
    if task.enableLayout == 1 {
      // layout recognition is not implemented: no chunks
    } else if task.enableLayout == 0 {
      var extracted := svc.extract(e.savePath, task.chunkSize, task.repeatSize);
      if extracted.Err? {
        return Some(extracted.error);
      }
      extractResults := extracted.value;
    }
    err := SaveChunkDocuments(db, svc, task, e, extractResults);
    if err.Some? {
      return;
    }
    var present := db.CheckCollectionExists(svc, task.collectionName);
    if present.Err? {
      return Some(present.error);
    }
    if !present.value {
      err := db.CreateCollection(svc, task.collectionName, MilvusSchema.Fields768);
      if err.Some? {
        return;
      }
    }
    var insertData := EmbedChunks(svc, task, e, extractResults);
    if insertData.Err? {
      return Some(insertData.error);
    }
    err := db.InsertData(svc, task.collectionName, insertData.value);
    if err.Some? {
      return;
    }
    var found := db.SelectByFileId(svc, e.fileId, WriteBack);
    if found.Err? {
      return Some(found.error);
    }
    if |found.value| == 0 {
      return Some(IndexOutOfRange);
    }
    var updateFile := found.value[0].(status := 1);
    err := db.UpdateFile(svc, e.fileId, updateFile);
  }

  /** The exception handler's write-back: status -1 and the error text; its own exception, if any, is returned. */
  method RecordFailure(db: Backends, svc: Services, fileId: string, extra: string) returns (err: Option<string>)
    modifies db
    ensures Effect(db.Snapshot(), err) == MarkFailed(old(db.Snapshot()), svc, fileId, extra)
  {
    var found := db.SelectByFileId(svc, fileId, Handler);
    if found.Err? {
      return Some(found.error);
    }
    if |found.value| == 0 {
      return Some(IndexOutOfRange);
    }
    var updateFile := found.value[0].(status := -1, extra := extra);
    err := db.UpdateFile(svc, fileId, updateFile);
  }

  /**
   * `celery_text_vectorize`. `parsed` is the outcome of `parse_obj(task_json)`; the result says
   * whether the call returned or raised.
   */
  method CeleryTextVectorize(db: Backends, svc: Services, parsed: Result<VectorizeTask>) returns (outcome: RunOutcome)
    modifies db
    ensures db.Snapshot() == Run(old(db.Snapshot()), svc, parsed).world
    ensures outcome == Run(old(db.Snapshot()), svc, parsed).outcome
  {
    if parsed.Err? {
      return Raised(parsed.error);
    }
    var task := parsed.value;
    var fileVectorizeErrMsg := "";
    var setup := svc.setupError(task.embeddingName);
    if setup.Some? {
      fileVectorizeErrMsg := fileVectorizeErrMsg + "实例化异常:" + setup.value + "\n";
      return Returned;
    }
    ghost var w0 := db.Snapshot();
    var fileInfoList := task.fileInfoList;
    for i := 0 to |fileInfoList|
      invariant fileVectorizeErrMsg == ""
      invariant RunFiles(w0, FileIteration(svc, task), fileInfoList).world == RunFiles(db.Snapshot(), FileIteration(svc, task), fileInfoList[i..]).world
      invariant RunFiles(w0, FileIteration(svc, task), fileInfoList).outcome == RunFiles(db.Snapshot(), FileIteration(svc, task), fileInfoList[i..]).outcome
    {
      var fileInfo := fileInfoList[i];
      ghost var step := ProcessFile(db.Snapshot(), svc, task, fileInfo);
      assert fileInfoList[i..][0] == fileInfo && fileInfoList[i..][1..] == fileInfoList[i + 1..];
      RunFilesFirst(db.Snapshot(), svc, task, fileInfoList[i..]);
      if !({"file_save_path", "file_name", "file_id", "file_object_name"} <= fileInfo.Keys) {
        if "file_save_path" !in fileInfo {
          return Raised(KeyErrorText("file_save_path"));
        }
        if "file_name" !in fileInfo {
          return Raised(KeyErrorText("file_name"));
        }
        if "file_id" !in fileInfo {
          return Raised(KeyErrorText("file_id"));
        }
        return Raised(KeyErrorText("file_object_name"));
      }
      var e := FileEntry(fileInfo["file_save_path"], fileInfo["file_name"], fileInfo["file_id"], fileInfo["file_object_name"]);
      assert ReadEntry(fileInfo) == Ok(e);
      var err := VectorizeFile(db, svc, task, e);
      if err.Some? {
        fileVectorizeErrMsg := fileVectorizeErrMsg + ErrorLine(e.fileName, err.value);
        assert fileVectorizeErrMsg == ErrorLine(e.fileName, err.value);
        ghost var marked := MarkFailed(db.Snapshot(), svc, e.fileId, fileVectorizeErrMsg);
        var failed := RecordFailure(db, svc, e.fileId, fileVectorizeErrMsg);
        if failed.Some? {
          assert step == FileStep(marked.world, Escaped(failed.value));
          return Raised(failed.value);
        }
        assert step == FileStep(db.Snapshot(), Failed(fileVectorizeErrMsg));
        fileVectorizeErrMsg := "";
      } else {
        assert step == FileStep(db.Snapshot(), Succeeded);
      }
    }
    outcome := Returned;
  }
}
