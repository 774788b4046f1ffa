/**
 * What the vectorisation job guarantees: failure isolation and list order across files, the
 * effects of one file on both stores and on its status record, the field mapping of the two
 * projections of a chunk, and the agreement of the vector row with the collection schema.
 */
module VectorizeLemmas {
  import opened Wrappers
  import opened MilvusSchema
  import opened Vectorize

  // ---- the file loop ----

  /**
   * The j-th result of the loop is what the iteration does to `files[j]` in the state left by
   * `files[..j]`: files are processed one at a time, in list order.
   */
  lemma {:induction false} LogFollowsFileOrder(w: World, iteration: (World, FileInfo) -> FileStep, files: seq<FileInfo>, j: nat)
    requires j < |RunFiles(w, iteration, files).log|
    ensures RunFiles(w, iteration, files).log[j] == iteration(RunFiles(w, iteration, files[..j]).world, files[j]).result
    decreases j
  {
    var step := iteration(w, files[0]);
    if j == 0 {
      assert files[..0] == [];
    } else {
      LogFollowsFileOrder(step.world, iteration, files[1..], j - 1);
      assert files[..j][0] == files[0] && files[..j][1..] == files[1..][..j - 1];
      assert files[1..][j - 1] == files[j];
    }
  }

  /**
   * A file that ends with status 1 or -1 does not stop the loop: the next file in the list is
   * processed, starting from the state the earlier files left.
   */
  lemma FailedFileDoesNotStopLoop(w: World, iteration: (World, FileInfo) -> FileStep, files: seq<FileInfo>, i: nat)
    requires i + 1 < |files|
    requires i < |RunFiles(w, iteration, files).log| && !RunFiles(w, iteration, files).log[i].Escaped?
    ensures i + 1 < |RunFiles(w, iteration, files).log|
    ensures RunFiles(w, iteration, files).log[i + 1]
         == iteration(RunFiles(w, iteration, files[..i + 1]).world, files[i + 1]).result
  {
    LogFollowsFileOrder(w, iteration, files, i + 1);
  }

  /**
   * When the job returns normally (no queue retry) after the clients were set up, it produced one
   * result per file, each file taken in list order from the state the earlier files left.
   */
  lemma EveryFileProcessed(w: World, svc: Services, task: VectorizeTask, j: nat)
    requires svc.setupError(task.embeddingName).None? && Run(w, svc, Ok(task)).outcome == Returned
    requires j < |task.fileInfoList|
    ensures |Run(w, svc, Ok(task)).log| == |task.fileInfoList|
    ensures Run(w, svc, Ok(task)).log[j]
         == ProcessFile(RunFiles(w, FileIteration(svc, task), task.fileInfoList[..j]).world, svc, task, task.fileInfoList[j]).result
  {
    LogFollowsFileOrder(w, FileIteration(svc, task), task.fileInfoList, j);
  }

  // ---- one file ----

  /** A file with an empty download path ends with status -1 and the download-failure message; neither store is written. */
  lemma EmptyPathRecordsDownloadFailure(w: World, svc: Services, task: VectorizeTask, info: FileInfo, e: FileEntry)
    requires ReadEntry(info) == Ok(e) && e.savePath == ""
    requires e.fileId in w.files
    requires svc.selectError(e.fileId, Handler).None? && svc.updateError(e.fileId, FileRecord(-1, ErrorLine(e.fileName, DownloadFailed))).None?
    ensures var extra := ErrorLine(e.fileName, DownloadFailed);
      ProcessFile(w, svc, task, info) == FileStep(w.(files := w.files[e.fileId := FileRecord(-1, extra)]), Failed(extra))
  {
  }

  /**
   * A failed file's `extra` is exactly the message of its own exception; every other file record
   * keeps its value, and the stores keep what the failed attempt wrote.
   */
  lemma FailureRecordsOwnMessage(w: World, svc: Services, task: VectorizeTask, info: FileInfo, e: FileEntry)
    requires ReadEntry(info) == Ok(e)
    requires ProcessFile(w, svc, task, info).result.Failed?
    ensures var attempt := TryBody(w, svc, task, e);
      && attempt.error.Some?
      && ProcessFile(w, svc, task, info).result.extra == ErrorLine(e.fileName, attempt.error.value)
    ensures var s := ProcessFile(w, svc, task, info);
      var attempt := TryBody(w, svc, task, e);
      && e.fileId in w.files
      && s.world.files == w.files[e.fileId := FileRecord(-1, s.result.extra)]
      && s.world.documents == attempt.world.documents
      && s.world.collections == attempt.world.collections
  {
  }

  /** A file whose status record does not exist makes the handler raise: the exception leaves `run`. */
  lemma MissingRecordEscapes(w: World, svc: Services, task: VectorizeTask, info: FileInfo, e: FileEntry)
    requires ReadEntry(info) == Ok(e) && e.fileId !in w.files && svc.selectError(e.fileId, Handler).None?
    ensures ProcessFile(w, svc, task, info).result == Escaped(IndexOutOfRange)
  {
  }

  /**
   * Failure isolation: whatever the `try` body of a file raises, the handler absorbs it when its own
   * lookup and update succeed. The file ends with status -1 and its own error line, the stores keep
   * what the attempt wrote, and the loop goes on.
   */
  lemma TryFailureIsAbsorbed(w: World, svc: Services, task: VectorizeTask, info: FileInfo, e: FileEntry)
    requires ReadEntry(info) == Ok(e) && TryBody(w, svc, task, e).error.Some?
    requires e.fileId in w.files && svc.selectError(e.fileId, Handler).None?
    requires svc.updateError(e.fileId, FileRecord(-1, ErrorLine(e.fileName, TryBody(w, svc, task, e).error.value))).None?
    ensures var attempt := TryBody(w, svc, task, e);
      var extra := ErrorLine(e.fileName, attempt.error.value);
      ProcessFile(w, svc, task, info) == FileStep(attempt.world.(files := w.files[e.fileId := FileRecord(-1, extra)]), Failed(extra))
  {
  }

  /** An extractor that raises fails the file before either store is written: status -1 with the extractor's message. */
  lemma ExtractorFailureFailsFile(w: World, svc: Services, task: VectorizeTask, info: FileInfo, e: FileEntry)
    requires ReadEntry(info) == Ok(e) && e.savePath != "" && task.enableLayout == 0
    requires svc.extract(e.savePath, task.chunkSize, task.repeatSize).Err?
    requires e.fileId in w.files && svc.selectError(e.fileId, Handler).None?
    requires svc.updateError(e.fileId, FileRecord(-1, ErrorLine(e.fileName, svc.extract(e.savePath, task.chunkSize, task.repeatSize).error))).None?
    ensures var extra := ErrorLine(e.fileName, svc.extract(e.savePath, task.chunkSize, task.repeatSize).error);
      ProcessFile(w, svc, task, info) == FileStep(w.(files := w.files[e.fileId := FileRecord(-1, extra)]), Failed(extra))
  {
  }

  /**
   * A failing status lookup in the exception handler is not handled: the exception leaves `run`,
   * whatever the `try` body raised, with the stores as the attempt left them.
   */
  lemma HandlerLookupFailureEscapes(w: World, svc: Services, task: VectorizeTask, info: FileInfo, e: FileEntry)
    requires ReadEntry(info) == Ok(e) && TryBody(w, svc, task, e).error.Some?
    requires svc.selectError(e.fileId, Handler).Some?
    ensures var attempt := TryBody(w, svc, task, e);
      ProcessFile(w, svc, task, info) == FileStep(attempt.world, Escaped(svc.selectError(e.fileId, Handler).value))
  {
  }

  /** Every document the search-index pass wrote was saved without error: the pass stops at the first failing save. */
  lemma {:induction false} SavedDocumentsSucceeded(w: World, svc: Services, docs: seq<SearchDocument>)
    ensures var r := SaveDocuments(w, svc, docs);
      forall j :: 0 <= j < |r.world.documents| - |w.documents| ==> svc.saveError(docs[j]).None?
    decreases |docs|
  {
    if |docs| > 0 {
      var first := SaveDocument(w, svc, docs[0]);
      if first.error.None? {
        SavedDocumentsSucceeded(first.world, svc, docs[1..]);
        var r := SaveDocuments(w, svc, docs);
        forall j | 1 <= j < |r.world.documents| - |w.documents|
          ensures svc.saveError(docs[j]).None?
        {
          assert docs[1..][j - 1] == docs[j];
        }
      }
    }
  }

  /** When every save succeeds, the search-index pass appends all documents, in order. */
  lemma SaveDocumentsAppendsAll(w: World, svc: Services, docs: seq<SearchDocument>)
    requires forall j :: 0 <= j < |docs| ==> svc.saveError(docs[j]).None?
    ensures SaveDocuments(w, svc, docs) == Effect(w.(documents := w.documents + docs), None)
  {
    assert docs[..|docs|] == docs;
  }

  /** The collection the job inserts into once it has been ensured: the existing one, or a new empty one with the 768-dimension schema. */
  function EnsuredCollection(w: World, name: string): Collection
  {
    if name in w.collections then w.collections[name] else Collection(Fields768, [])
  }

  /**
   * The `try` body of a file for which every call succeeds: all search documents are appended,
   * one batch of rows is appended to the (possibly new) collection, and the status becomes 1.
   */
  lemma TryBodySucceeds(w: World, svc: Services, task: VectorizeTask, e: FileEntry, chunks: seq<Chunk>)
    requires e.savePath != "" && Extract(svc, task, e.savePath) == Ok(chunks)
    requires forall j :: 0 <= j < |chunks| ==> svc.saveError(MakeDocument(task, e, chunks[j])).None?
    requires svc.existsError(task.collectionName).None?
    requires task.collectionName !in w.collections ==> svc.createError(task.collectionName).None?
    requires forall j :: 0 <= j < |chunks| ==> svc.embed(ChunkText(chunks[j])).Ok?
    requires svc.insertError(task.collectionName, BuildRows(svc, task, e, chunks, []).value).None?
    requires e.fileId in w.files && svc.selectError(e.fileId, WriteBack).None? && svc.updateError(e.fileId, w.files[e.fileId].(status := 1)).None?
    ensures var c := EnsuredCollection(w, task.collectionName);
      TryBody(w, svc, task, e) == Effect(
        World(w.documents + Documents(task, e, chunks),
              w.collections[task.collectionName := c.(rows := c.rows + BuildRows(svc, task, e, chunks, []).value)],
              w.files[e.fileId := w.files[e.fileId].(status := 1)]),
        None)
  {
    TryBodyReachesWriteBack(w, svc, task, e, chunks);
  }


  /**
   * The `try` body of a file whose calls succeed up to the insert reaches the success write-back,
   * with every document appended and the row batch inserted.
   */
  lemma TryBodyReachesWriteBack(w: World, svc: Services, task: VectorizeTask, e: FileEntry, chunks: seq<Chunk>)
    requires e.savePath != "" && Extract(svc, task, e.savePath) == Ok(chunks)
    requires forall j :: 0 <= j < |chunks| ==> svc.saveError(MakeDocument(task, e, chunks[j])).None?
    requires svc.existsError(task.collectionName).None?
    requires task.collectionName !in w.collections ==> svc.createError(task.collectionName).None?
    requires forall j :: 0 <= j < |chunks| ==> svc.embed(ChunkText(chunks[j])).Ok?
    requires svc.insertError(task.collectionName, BuildRows(svc, task, e, chunks, []).value).None?
    ensures var c := EnsuredCollection(w, task.collectionName);
      TryBody(w, svc, task, e) == MarkSucceeded(
        World(w.documents + Documents(task, e, chunks),
              w.collections[task.collectionName := c.(rows := c.rows + BuildRows(svc, task, e, chunks, []).value)],
              w.files),
        svc, e.fileId)
  {
    var name := task.collectionName;
    SavedThenEnsured(w, svc, task, e, chunks);
    var saved := SaveDocuments(w, svc, Documents(task, e, chunks));
    var ensured := EnsureCollection(saved.world, svc, name);
    var rows := BuildRows(svc, task, e, chunks, []);
    assert saved.error.None? && ensured.error.None? && rows.Ok?;
    var c := EnsuredCollection(w, name);
    var inserted := InsertData(ensured.world, svc, name, rows.value);
    assert inserted == Effect(World(w.documents + Documents(task, e, chunks), w.collections[name := c.(rows := c.rows + rows.value)], w.files), None);
  }

  /** When every save succeeds and the collection can be ensured, the documents are appended and the collection is the ensured one. */
  lemma SavedThenEnsured(w: World, svc: Services, task: VectorizeTask, e: FileEntry, chunks: seq<Chunk>)
    requires forall j :: 0 <= j < |chunks| ==> svc.saveError(MakeDocument(task, e, chunks[j])).None?
    requires svc.existsError(task.collectionName).None?
    requires task.collectionName !in w.collections ==> svc.createError(task.collectionName).None?
    ensures var saved := SaveDocuments(w, svc, Documents(task, e, chunks));
      && saved == Effect(w.(documents := w.documents + Documents(task, e, chunks)), None)
      && EnsureCollection(saved.world, svc, task.collectionName)
         == Effect(World(w.documents + Documents(task, e, chunks),
                         w.collections[task.collectionName := EnsuredCollection(w, task.collectionName)], w.files), None)
  {
    var name := task.collectionName;
    var docs := Documents(task, e, chunks);
    SaveDocumentsAppendsAll(w, svc, docs);
    var saved := w.(documents := w.documents + docs);
    var c := EnsuredCollection(w, name);
    if name in w.collections {
      assert saved.collections[name := c] == saved.collections;
    }
  }


  /**
   * The write-back lookup and the handler lookup are separate queries: when the first fails and the
   * second succeeds, the file is handled like any other failure. It keeps its documents and rows,
   * ends with status -1 and the lookup's message, and the loop goes on.
   */
  lemma WriteBackLookupFailureFailsFile(w: World, svc: Services, task: VectorizeTask, info: FileInfo, e: FileEntry, chunks: seq<Chunk>)
    requires ReadEntry(info) == Ok(e) && e.savePath != "" && Extract(svc, task, e.savePath) == Ok(chunks)
    requires forall j :: 0 <= j < |chunks| ==> svc.saveError(MakeDocument(task, e, chunks[j])).None?
    requires svc.existsError(task.collectionName).None?
    requires task.collectionName !in w.collections ==> svc.createError(task.collectionName).None?
    requires forall j :: 0 <= j < |chunks| ==> svc.embed(ChunkText(chunks[j])).Ok?
    requires svc.insertError(task.collectionName, BuildRows(svc, task, e, chunks, []).value).None?
    requires svc.selectError(e.fileId, WriteBack).Some?
    requires e.fileId in w.files && svc.selectError(e.fileId, Handler).None?
    requires svc.updateError(e.fileId, FileRecord(-1, ErrorLine(e.fileName, svc.selectError(e.fileId, WriteBack).value))).None?
    ensures var extra := ErrorLine(e.fileName, svc.selectError(e.fileId, WriteBack).value);
      var c := EnsuredCollection(w, task.collectionName);
      ProcessFile(w, svc, task, info) == FileStep(
        World(w.documents + Documents(task, e, chunks),
              w.collections[task.collectionName := c.(rows := c.rows + BuildRows(svc, task, e, chunks, []).value)],
              w.files[e.fileId := FileRecord(-1, extra)]),
        Failed(extra))
  {
    TryBodyReachesWriteBack(w, svc, task, e, chunks);
  }

  /**
   * A file for which every call succeeds gains one search document and one vector row per chunk,
   * both in extractor order, and its status becomes 1; its `extra` is kept.
   */
  lemma SuccessfulFileWritesEveryChunk(w: World, svc: Services, task: VectorizeTask, info: FileInfo, e: FileEntry, chunks: seq<Chunk>)
    requires ReadEntry(info) == Ok(e) && e.savePath != ""
    requires Extract(svc, task, e.savePath) == Ok(chunks)
    requires forall j :: 0 <= j < |chunks| ==> svc.saveError(MakeDocument(task, e, chunks[j])).None?
    requires svc.existsError(task.collectionName).None?
    requires task.collectionName !in w.collections ==> svc.createError(task.collectionName).None?
    requires forall j :: 0 <= j < |chunks| ==> svc.embed(ChunkText(chunks[j])).Ok?
    requires svc.insertError(task.collectionName, BuildRows(svc, task, e, chunks, []).value).None?
    requires e.fileId in w.files && svc.selectError(e.fileId, WriteBack).None? && svc.updateError(e.fileId, w.files[e.fileId].(status := 1)).None?
    ensures ProcessFile(w, svc, task, info).result == Succeeded
    ensures ProcessFile(w, svc, task, info).world.documents == w.documents + Documents(task, e, chunks)
    ensures var s := ProcessFile(w, svc, task, info);
      var name := task.collectionName;
      var before := EnsuredCollection(w, name).rows;
      && name in s.world.collections
      && |s.world.collections[name].rows| == |before| + |chunks|
      && s.world.collections[name].rows[..|before|] == before
      && (forall j :: 0 <= j < |chunks| ==>
            s.world.collections[name].rows[|before| + j] == MakeRow(task, e, chunks[j], svc.embed(ChunkText(chunks[j])).value))
      && (forall n :: n in w.collections && n != name ==> n in s.world.collections && s.world.collections[n] == w.collections[n])
    ensures ProcessFile(w, svc, task, info).world.files == w.files[e.fileId := w.files[e.fileId].(status := 1)]
  {
    TryBodySucceeds(w, svc, task, e, chunks);
    var rows := BuildRows(svc, task, e, chunks, []).value;
    var before := EnsuredCollection(w, task.collectionName).rows;
    assert (before + rows)[..|before|] == before;
    assert forall j :: 0 <= j < |chunks| ==> (before + rows)[|before| + j] == rows[j];
  }

  /**
   * Every search document of a file is written before any vector insert: when an embedding fails,
   * the file keeps all its search documents, gains no vector row, and ends with status -1 and the
   * first failing embedding's message.
   */
  lemma EmbeddingFailureKeepsSearchDocuments(w: World, svc: Services, task: VectorizeTask, info: FileInfo, e: FileEntry, chunks: seq<Chunk>, k: nat)
    requires ReadEntry(info) == Ok(e) && e.savePath != ""
    requires Extract(svc, task, e.savePath) == Ok(chunks)
    requires forall j :: 0 <= j < |chunks| ==> svc.saveError(MakeDocument(task, e, chunks[j])).None?
    requires svc.existsError(task.collectionName).None?
    requires task.collectionName !in w.collections ==> svc.createError(task.collectionName).None?
    requires k < |chunks| && svc.embed(ChunkText(chunks[k])).Err?
    requires forall j :: 0 <= j < k ==> svc.embed(ChunkText(chunks[j])).Ok?
    requires e.fileId in w.files
    requires svc.selectError(e.fileId, Handler).None? && svc.updateError(e.fileId, FileRecord(-1, ErrorLine(e.fileName, svc.embed(ChunkText(chunks[k])).error))).None?
    ensures var extra := ErrorLine(e.fileName, svc.embed(ChunkText(chunks[k])).error);
      ProcessFile(w, svc, task, info) == FileStep(
        World(w.documents + Documents(task, e, chunks),
              w.collections[task.collectionName := EnsuredCollection(w, task.collectionName)],
              w.files[e.fileId := FileRecord(-1, extra)]),
        Failed(extra))
  {
    var name := task.collectionName;
    var docs := Documents(task, e, chunks);
    SaveDocumentsAppendsAll(w, svc, docs);
    var saved := w.(documents := w.documents + docs);
    var c := EnsuredCollection(w, name);
    assert EnsureCollection(saved, svc, name) == Effect(saved.(collections := saved.collections[name := c]), None);
    var rows := BuildRows(svc, task, e, chunks, []);
    var j :| 0 <= j < |chunks| && svc.embed(ChunkText(chunks[j])) == Err(rows.error)
             && forall i :: 0 <= i < j ==> svc.embed(ChunkText(chunks[i])).Ok?;
    assert j == k;
  }

  /**
   * A failing search-index write stops the file before the vector store is touched: the documents
   * of the earlier chunks stay written, no collection changes, and the status becomes -1.
   */
  lemma SearchWriteFailureSkipsVectorStore(w: World, svc: Services, task: VectorizeTask, info: FileInfo, e: FileEntry, chunks: seq<Chunk>, k: nat)
    requires ReadEntry(info) == Ok(e) && e.savePath != ""
    requires Extract(svc, task, e.savePath) == Ok(chunks)
    requires k < |chunks| && svc.saveError(MakeDocument(task, e, chunks[k])).Some?
    requires forall j :: 0 <= j < k ==> svc.saveError(MakeDocument(task, e, chunks[j])).None?
    requires e.fileId in w.files
    requires svc.selectError(e.fileId, Handler).None? && svc.updateError(e.fileId, FileRecord(-1, ErrorLine(e.fileName, svc.saveError(MakeDocument(task, e, chunks[k])).value))).None?
    ensures var extra := ErrorLine(e.fileName, svc.saveError(MakeDocument(task, e, chunks[k])).value);
      ProcessFile(w, svc, task, info) ==
        FileStep(World(w.documents + Documents(task, e, chunks)[..k], w.collections, w.files[e.fileId := FileRecord(-1, extra)]), Failed(extra))
  {
    var docs := Documents(task, e, chunks);
    var saved := SaveDocuments(w, svc, docs);
    SavedDocumentsSucceeded(w, svc, docs);
    var n := |saved.world.documents| - |w.documents|;
    assert docs[k] == MakeDocument(task, e, chunks[k]);
    assert n < |docs| ==> docs[n] == MakeDocument(task, e, chunks[n]);
    assert n == k;
  }

  /**
   * With `enable_layout` other than 0 no chunk is produced: no search document and no vector row is
   * written, but the collection is still ensured and the file ends with status 1.
   */
  lemma LayoutFlagSkipsExtraction(w: World, svc: Services, task: VectorizeTask, info: FileInfo, e: FileEntry)
    requires ReadEntry(info) == Ok(e) && e.savePath != "" && task.enableLayout != 0
    requires svc.existsError(task.collectionName).None?
    requires task.collectionName !in w.collections ==> svc.createError(task.collectionName).None?
    requires svc.insertError(task.collectionName, []).None?
    requires e.fileId in w.files && svc.selectError(e.fileId, WriteBack).None? && svc.updateError(e.fileId, w.files[e.fileId].(status := 1)).None?
    ensures ProcessFile(w, svc, task, info) == FileStep(
      World(w.documents,
            w.collections[task.collectionName := EnsuredCollection(w, task.collectionName)],
            w.files[e.fileId := w.files[e.fileId].(status := 1)]),
      Succeeded)
  {
    TryBodySucceeds(w, svc, task, e, []);
    var c := EnsuredCollection(w, task.collectionName);
    assert c.(rows := c.rows + []) == c;
    assert Documents(task, e, []) == [];
  }

  // ---- collection provisioning ----

  /** The collection is created, empty and with the 768-dimension schema, only when it is absent; an existing one is left as it is. */
  lemma EnsureCollectionCreatesOnlyWhenAbsent(w: World, svc: Services, name: string)
    requires svc.existsError(name).None?
    ensures name in w.collections ==> EnsureCollection(w, svc, name) == Effect(w, None)
    ensures name !in w.collections && svc.createError(name).None? ==>
      EnsureCollection(w, svc, name) == Effect(w.(collections := w.collections[name := Collection(Fields768, [])]), None)
    ensures name !in w.collections && svc.createError(name).Some? ==>
      EnsureCollection(w, svc, name) == Effect(w, svc.createError(name))
  {
  }

  /**
   * Ensuring a collection twice is the same as ensuring it once: the second pass creates nothing and
   * leaves the collection as the first left it. That the second existence check does not raise
   * follows from each call's outcome being a fixed function of its arguments, not from the store.
   */
  lemma EnsureCollectionIdempotent(w: World, svc: Services, name: string)
    requires EnsureCollection(w, svc, name).error.None?
    ensures var once := EnsureCollection(w, svc, name);
      EnsureCollection(once.world, svc, name) == once
  {
  }

  // ---- field mapping ----

  /** Missing chunk keys take their defaults: text and bbox "", start page and chunk index 0; `extra` is always "". */
  lemma MissingKeysUseDefaults(task: VectorizeTask, e: FileEntry, v: Vector)
    ensures MakeDocument(task, e, Chunk(None, None, None, None))
         == SearchDocument(task.indexName, "", Metadata(BboxText(""), 0, e.objectName, e.fileName, 0, "", e.fileId, task.targetKbId))
    ensures MakeRow(task, e, Chunk(None, None, None, None), v)
         == map["bbox" := Str(""), "start_page" := Int(0), "source" := Str(e.objectName), "title" := Str(e.fileName),
                "chunk_index" := Int(0), "extra" := Str(""), "file_id" := Str(e.fileId),
                "knowledge_id" := Str(task.targetKbId), "text" := Str(e.fileName + ":"), "vector" := FloatVec(v)]
  {
    assert e.fileName + ":" + "" == e.fileName + ":";
  }

  /**
   * Each chunk key is mapped on its own: a key the chunk has is copied into the document and the
   * row, and a missing key takes its default (text and bbox "", start page and chunk index 0),
   * whatever the other keys hold.
   */
  lemma FieldMappingPerKey(task: VectorizeTask, e: FileEntry, c: Chunk, v: Vector)
    ensures var doc := MakeDocument(task, e, c);
      && doc.text == (if c.chunk.Some? then c.chunk.value else "")
      && doc.metadata.bbox == (if c.chunkBboxes.Some? then c.chunkBboxes.value else BboxText(""))
      && doc.metadata.startPage == (if c.startPage.Some? then c.startPage.value else 0)
      && doc.metadata.chunkIndex == (if c.chunkIndex.Some? then c.chunkIndex.value else 0)
    ensures var row := MakeRow(task, e, c, v);
      && row["text"] == Str(e.fileName + ":" + (if c.chunk.Some? then c.chunk.value else ""))
      && row["bbox"] == Str(if c.chunkBboxes.Some? then Render(c.chunkBboxes.value) else "")
      && row["start_page"] == Int(if c.startPage.Some? then c.startPage.value else 0)
      && row["chunk_index"] == Int(if c.chunkIndex.Some? then c.chunkIndex.value else 0)
  {
  }

  /**
   * The two projections of a chunk carry the same fields: `source`, `title`, `file_id` and
   * `knowledge_id` come from the file entry and the task, and the row's text is the title, a colon
   * and the document's text. The bbox differs in form: the document keeps the extractor's value as
   * it is, the row holds its `str()` rendering; the two agree when the value is a string.
   */
  lemma ProjectionsAgree(task: VectorizeTask, e: FileEntry, c: Chunk, v: Vector)
    ensures var doc := MakeDocument(task, e, c);
      var row := MakeRow(task, e, c, v);
      && doc.indexName == task.indexName
      && doc.metadata.source == e.objectName && doc.metadata.title == e.fileName
      && doc.metadata.fileId == e.fileId && doc.metadata.knowledgeId == task.targetKbId
      && doc.metadata.extra == ""
      && row["text"] == Str(doc.metadata.title + ":" + doc.text)
      && row["bbox"] == Str(Render(doc.metadata.bbox))
      && (doc.metadata.bbox.BboxText? ==> row["bbox"] == Str(doc.metadata.bbox.text))
      && row["start_page"] == Int(doc.metadata.startPage)
      && row["source"] == Str(doc.metadata.source) && row["title"] == Str(doc.metadata.title)
      && row["chunk_index"] == Int(doc.metadata.chunkIndex) && row["extra"] == Str(doc.metadata.extra)
      && row["file_id"] == Str(doc.metadata.fileId) && row["knowledge_id"] == Str(doc.metadata.knowledgeId)
      && row["vector"] == FloatVec(v)
  {
  }

  /** A row value fits a column of the given type. */
  predicate Fits(value: FieldValue, dtype: DataType)
  {
    match dtype
    case VarChar => value.Str?
    case Int64 => value.Int?
    case FloatVector => value.FloatVec?
  }

  /** The row the job inserts has exactly the columns of the default schemas except the generated primary key `pk`. */
  lemma RowColumns(task: VectorizeTask, e: FileEntry, c: Chunk, v: Vector)
    ensures MakeRow(task, e, c, v).Keys == set i | 0 <= i < |Fields768| && Fields768[i].name != "pk" :: Fields768[i].name
    ensures MakeRow(task, e, c, v).Keys == set i | 0 <= i < |Fields1024| && Fields1024[i].name != "pk" :: Fields1024[i].name
  {
    SameFieldNames();
    NonKeyColumns(Fields768);
    NonKeyColumns(Fields1024);
  }

  /** The names of the non-`pk` fields of a schema that declares the default eleven names. */
  lemma NonKeyColumns(fields: seq<FieldSchema>)
    requires FieldNames(fields) ==
      ["bbox", "start_page", "source", "title", "chunk_index", "extra", "file_id", "knowledge_id", "text", "pk", "vector"]
    ensures (set i | 0 <= i < |fields| && fields[i].name != "pk" :: fields[i].name)
         == {"bbox", "start_page", "source", "title", "chunk_index", "extra", "file_id", "knowledge_id", "text", "vector"}
  {
    var names := FieldNames(fields);
    assert forall i :: 0 <= i < |fields| ==> fields[i].name == names[i];
    var columns := set i | 0 <= i < |fields| && fields[i].name != "pk" :: fields[i].name;
    assert fields[0].name in columns && fields[1].name in columns && fields[2].name in columns;
    assert fields[3].name in columns && fields[4].name in columns && fields[5].name in columns;
    assert fields[6].name in columns && fields[7].name in columns && fields[8].name in columns;
    assert fields[10].name in columns;
  }

  /** Each column of the row the job inserts, other than `pk`, holds a value of the type the schema declares for it. */
  lemma RowValuesFitSchema(task: VectorizeTask, e: FileEntry, c: Chunk, v: Vector, fields: seq<FieldSchema>)
    requires fields == Fields768 || fields == Fields1024
    ensures forall i :: 0 <= i < |fields| && i != 9 ==>
      fields[i].name in MakeRow(task, e, c, v) && Fits(MakeRow(task, e, c, v)[fields[i].name], fields[i].dtype)
  {
  }
}
