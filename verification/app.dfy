/**
 * The desktop application's back end (embed-visualizer/app.go): the `App` object and its
 * current database, `ProcessFile` (the whole pipeline from a text file to a database of
 * chunks and similarities), `OpenDatabase`, and `GetGraphData`.
 *
 * Everything outside the process is a parameter: directory creation, opening and setting up
 * the database, reading the file, the embedding and summary services, inserts and queries.
 */
module App {
  import opened Wrappers
  import opened Records
  import opened Paths
  import Chunker
  import Batch
  import Summary
  import Pairs
  import Store

  /** The error `database/sql` reports for a query on a closed handle. */
  const ErrDatabaseClosed := "sql: database is closed"

  /** An open database handle and the file behind it. */
  class Connection {
    const path: string
    var closed: bool

    constructor (path: string)
      ensures this.path == path && !closed
    {
      this.path := path;
      closed := false;
    }

    method Close()
      modifies this
      ensures closed
    {
      closed := true;
    }
  }

  /** A graph node as `GetGraphData` builds it. */
  datatype AppNode = AppNode(id: int, index: int, text: string, summary: string)

  /** A graph link as `GetGraphData` builds it: no distance. */
  datatype AppLink = AppLink(source: int, target: int, similarity: real)

  datatype Graph = Graph(nodes: seq<AppNode>, links: seq<AppLink>)

  /** Why `ProcessFile` stopped: each case is one of its wrapped errors. */
  datatype AppError =
    | CreateDirFailed(cause: string)
    | CreateDbFailed(cause: string)
    | ChunkFailed(cause: string)
    | EmbeddingsFailed(batch: Batch.BatchError)
    | SummariesFailed(batch: Batch.BatchError)
    | StoreFailed(cause: string)
    | SimilaritiesFailed(cause: string)

  /** The node `GetGraphData` builds: both `id` and `index` are the chunk's position. */
  function NodeOf(chunk: TextChunk): (node: AppNode)
    ensures node.id == chunk.chunkIndex && node.index == chunk.chunkIndex
    ensures node.text == chunk.text && node.summary == chunk.summary
  {
    AppNode(chunk.chunkIndex, chunk.chunkIndex, chunk.text, chunk.summary)
  }

  /** The link `GetGraphData` builds: the records' database chunk ids and the similarity. */
  function LinkOf(sim: ChunkSimilarity): (link: AppLink)
    ensures link.source == sim.chunkId1 && link.target == sim.chunkId2
    ensures link.similarity == sim.similarity
  {
    AppLink(sim.chunkId1, sim.chunkId2, sim.similarity)
  }

  /** The chunks `ChunkTextByParagraphs` returns for a file read. */
  function ChunksRead(read: Chunker.FileRead): (r: Result<seq<TextChunk>, string>)
    ensures read.OpenFailed? ==> r == Failure(read.error)
    ensures read.Scanned? && read.scanError.Some? ==> r == Failure(read.scanError.value)
    ensures read.Scanned? && read.scanError.None? ==>
      r == Success(Chunker.ChunksOf(Chunker.Paragraphs(read.lines)))
  {
    if read.OpenFailed? then Failure(read.error)
    else if read.scanError.Some? then Failure(read.scanError.value)
    else Success(Chunker.ChunksOf(Chunker.Paragraphs(read.lines)))
  }

  /** Every one of the first `n` embedding requests succeeded. */
  predicate AllEmbedded(n: nat, embedReply: nat -> Result<seq<real>, string>)
  {
    forall i :: 0 <= i < n ==> embedReply(i).Success?
  }

  /** Every one of the first `n` summary requests succeeded. */
  predicate AllSummarized(n: nat, summaryReply: nat -> Result<string, string>)
  {
    forall i :: 0 <= i < n ==> summaryReply(i).Success?
  }

  /** The chunks after both batches: each with its embedding and its cleaned, cut summary. */
  function Processed(chunks: seq<TextChunk>, embedReply: nat -> Result<seq<real>, string>,
                     summaryReply: nat -> Result<string, string>): seq<TextChunk>
    requires AllEmbedded(|chunks|, embedReply) && AllSummarized(|chunks|, summaryReply)
  {
    seq(|chunks|, i requires 0 <= i < |chunks| && embedReply(i).Success? && summaryReply(i).Success? =>
      chunks[i].(embedding := embedReply(i).value, summary := Summary.SummaryOf(summaryReply(i).value)))
  }

  /** The first insert from `i` on (below `n`) that fails, or `n` when none does. */
  function FirstInsertFailure(n: nat, insert: nat -> Outcome<string>, i: nat): (f: nat)
    requires i <= n
    ensures i <= f <= n
    ensures forall k :: i <= k < f ==> insert(k).Pass?
    ensures f < n ==> insert(f).Fail?
    decreases n - i
  {
    if i == n || insert(i).Fail? then i else FirstInsertFailure(n, insert, i + 1)
  }

  /** The store loop of `ProcessFile`: inserts the chunks in order and stops at the first
      failed insert; exactly the chunks before it are stored. */
  method StoreChunks(chunks: seq<TextChunk>, insert: nat -> Outcome<string>)
    returns (r: Outcome<string>, stored: seq<TextChunk>)
    ensures var f := FirstInsertFailure(|chunks|, insert, 0);
      stored == chunks[..f] &&
      (f == |chunks| ==> r == Pass) &&
      (f < |chunks| ==> r == Fail("failed to store chunk: " + insert(f).error))
  {
    stored := [];
    for i := 0 to |chunks|
      invariant forall k :: 0 <= k < i ==> insert(k).Pass?
      invariant stored == chunks[..i]
      invariant FirstInsertFailure(|chunks|, insert, 0) == FirstInsertFailure(|chunks|, insert, i)
    {
      var inserted := insert(i);
      if inserted.Fail? {
        return Fail("failed to store chunk: " + inserted.error), stored;
      }
      stored := stored + [chunks[i]];
    }
    return Pass, stored;
  }

  /** What the pipeline stores: nothing when a batch failed, otherwise the processed chunks
      up to the first failed insert. */
  function PipelineStored(chunks: seq<TextChunk>, embedReply: nat -> Result<seq<real>, string>,
                          summaryReply: nat -> Result<string, string>, insert: nat -> Outcome<string>)
    : (stored: seq<TextChunk>)
    ensures |stored| <= |chunks|
  {
    if AllEmbedded(|chunks|, embedReply) && AllSummarized(|chunks|, summaryReply) then
      Processed(chunks, embedReply, summaryReply)[..FirstInsertFailure(|chunks|, insert, 0)]
    else []
  }

  /** The similarity table the pipeline hands to the database: only once every chunk is
      stored, built from the chunks as read back. */
  function PipelineBatch(chunks: seq<TextChunk>, embedReply: nat -> Result<seq<real>, string>,
                         summaryReply: nat -> Result<string, string>, insert: nat -> Outcome<string>,
                         reread: Result<seq<TextChunk>, string>): (batch: Option<seq<ChunkSimilarity>>)
    ensures batch.Some? ==> |PipelineStored(chunks, embedReply, summaryReply, insert)| == |chunks|
  {
    if AllEmbedded(|chunks|, embedReply) && AllSummarized(|chunks|, summaryReply) &&
       FirstInsertFailure(|chunks|, insert, 0) == |chunks| && reread.Success?
    then
      Store.PairsInRange(reread.value, |reread.value|);
      Some(Store.RecordsOf(reread.value, Pairs.AllPairs(|reread.value|)))
    else None
  }

  /** A batch error for `n` jobs whose replies are `reply`: it comes from `stage`, lists a job
      exactly when that job's reply failed, and gives each listed job its reply's error. */
  predicate ReportsFailures<T>(e: Batch.BatchError, stage: Batch.Stage, n: nat,
                               reply: nat -> Result<T, string>)
  {
    e.stage == stage &&
    (forall i :: 0 <= i < n ==> ((exists c :: c in e.failures && c.index == i) <==> reply(i).Failure?)) &&
    (forall c :: c in e.failures ==> c.index < n && reply(c.index) == Failure(c.cause))
  }

  /** How the steps after chunking end, given the replies and outcomes of the outside world:
      a failed embedding batch, then a failed summary batch, then the first failed insert,
      then a failed read-back or batch insert of the similarity table ends the run with that
      step's error; when none fails the run passes. */
  predicate PipelineReport(chunks: seq<TextChunk>, embedReply: nat -> Result<seq<real>, string>,
                           summaryReply: nat -> Result<string, string>, insert: nat -> Outcome<string>,
                           reread: Result<seq<TextChunk>, string>, batchInserted: Outcome<string>,
                           r: Outcome<AppError>)
  {
    var enriched := AllEmbedded(|chunks|, embedReply) && AllSummarized(|chunks|, summaryReply);
    var f := FirstInsertFailure(|chunks|, insert, 0);
    (!AllEmbedded(|chunks|, embedReply) ==>
       r.Fail? && r.error.EmbeddingsFailed? &&
       ReportsFailures(r.error.batch, Batch.Embedding, |chunks|, embedReply)) &&
    (AllEmbedded(|chunks|, embedReply) && !AllSummarized(|chunks|, summaryReply) ==>
       r.Fail? && r.error.SummariesFailed? &&
       ReportsFailures(r.error.batch, Batch.Summarization, |chunks|, summaryReply)) &&
    (enriched && f < |chunks| ==> r == Fail(StoreFailed("failed to store chunk: " + insert(f).error))) &&
    (enriched && f == |chunks| && reread.Failure? ==>
       r == Fail(SimilaritiesFailed("failed to calculate similarities: " + ("failed to get chunks: " + reread.error)))) &&
    (enriched && f == |chunks| && reread.Success? && batchInserted.Fail? ==>
       r == Fail(SimilaritiesFailed("failed to calculate similarities: " + batchInserted.error))) &&
    (r.Pass? <==> enriched && f == |chunks| && reread.Success? && batchInserted.Pass?)
  }

  /** The two batches of `ProcessFile`: embeddings for every chunk, then summaries for every
      embedded chunk; a failed batch ends the run with its error. */
  method Enrich(chunks: seq<TextChunk>,
                embedReply: nat -> Result<seq<real>, string>, embedArrival: seq<nat>,
                summaryReply: nat -> Result<string, string>, summaryArrival: seq<nat>)
    returns (r: Result<seq<TextChunk>, AppError>)
    requires Batch.IsArrivalOrder(embedArrival, |chunks|)
    requires Batch.IsArrivalOrder(summaryArrival, |chunks|)
    ensures !AllEmbedded(|chunks|, embedReply) ==>
      r.Failure? && r.error.EmbeddingsFailed? &&
      ReportsFailures(r.error.batch, Batch.Embedding, |chunks|, embedReply)
    ensures AllEmbedded(|chunks|, embedReply) && !AllSummarized(|chunks|, summaryReply) ==>
      r.Failure? && r.error.SummariesFailed? &&
      ReportsFailures(r.error.batch, Batch.Summarization, |chunks|, summaryReply)
    ensures AllEmbedded(|chunks|, embedReply) && AllSummarized(|chunks|, summaryReply) ==>
      r == Success(Processed(chunks, embedReply, summaryReply))
  {
    var embedReplies := seq(|chunks|, i requires 0 <= i => embedReply(i));
    var embedded, _ := Batch.GetEmbeddingsConcurrent(chunks, embedReplies, embedArrival, true);
    if embedded.Failure? {
      assert forall i :: 0 <= i < |chunks| ==> embedReplies[i] == embedReply(i);
      return Failure(EmbeddingsFailed(embedded.error));
    }
    forall i | 0 <= i < |chunks|
      ensures embedReply(i).Success?
    {
      assert embedReplies[i] == embedReply(i);
    }
    var summaryReplies := seq(|chunks|, i requires 0 <= i => summaryReply(i));
    var summarized, _ := Batch.GetSummariesConcurrent(embedded.value, summaryReplies, summaryArrival, true);
    if summarized.Failure? {
      assert forall i :: 0 <= i < |chunks| ==> summaryReplies[i] == summaryReply(i);
      return Failure(SummariesFailed(summarized.error));
    }
    forall i | 0 <= i < |chunks|
      ensures summaryReply(i).Success?
    {
      assert summaryReplies[i] == summaryReply(i);
    }
    ghost var processed := Processed(chunks, embedReply, summaryReply);
    forall i | 0 <= i < |chunks|
      ensures summarized.value[i] == processed[i]
    {
      assert embedReplies[i] == embedReply(i) && summaryReplies[i] == summaryReply(i);
      assert embedded.value[i] == chunks[i].(embedding := embedReply(i).value);
    }
    assert summarized.value == processed;
    r := Success(summarized.value);
  }

  /** The steps of `ProcessFile` after chunking: embeddings, then summaries, then storing the
      chunks, then the similarity table; any error ends the run there. `reread` is what the
      similarity pass reads back and `batchInserted` the outcome of its batch insert. */
  method RunPipeline(chunks: seq<TextChunk>,
                     embedReply: nat -> Result<seq<real>, string>, embedArrival: seq<nat>,
                     summaryReply: nat -> Result<string, string>, summaryArrival: seq<nat>,
                     insert: nat -> Outcome<string>,
                     reread: Result<seq<TextChunk>, string>, batchInserted: Outcome<string>)
    returns (r: Outcome<AppError>, stored: seq<TextChunk>, batch: Option<seq<ChunkSimilarity>>)
    requires Batch.IsArrivalOrder(embedArrival, |chunks|)
    requires Batch.IsArrivalOrder(summaryArrival, |chunks|)
    ensures stored == PipelineStored(chunks, embedReply, summaryReply, insert)
    ensures batch == PipelineBatch(chunks, embedReply, summaryReply, insert, reread)
    ensures PipelineReport(chunks, embedReply, summaryReply, insert, reread, batchInserted, r)
  {
    stored, batch := [], None;
    var enriched := Enrich(chunks, embedReply, embedArrival, summaryReply, summaryArrival);
    if enriched.Failure? {
      return Fail(enriched.error), stored, batch;
    }
    var storeOutcome;
    storeOutcome, stored := StoreChunks(enriched.value, insert);
    if storeOutcome.Fail? {
      return Fail(StoreFailed(storeOutcome.error)), stored, batch;
    }
    var calculated;
    calculated, batch := Store.CalculateSimilarities(reread, batchInserted);
    if calculated.Fail? {
      return Fail(SimilaritiesFailed("failed to calculate similarities: " + calculated.error)), stored, batch;
    }
    r := Pass;
  }

  /** The first two steps of `ProcessFile`: create the output directory, then create the
      database in it; on success the new connection is open on the named file. */
  method CreateDatabase(filePath: string, outputDir: string,
                        mkdir: Outcome<string>, open: Outcome<string>, setup: Outcome<string>)
    returns (r: Outcome<AppError>, conn: Connection?)
    ensures mkdir.Fail? ==> r == Fail(CreateDirFailed("failed to create output directory: " + mkdir.error))
    ensures mkdir.Pass? && open.Fail? ==>
      r == Fail(CreateDbFailed("failed to create database: " + ("failed to open database: " + open.error)))
    ensures mkdir.Pass? && open.Pass? && setup.Fail? ==>
      r == Fail(CreateDbFailed("failed to create database: " + ("failed to setup database tables: " + setup.error)))
    ensures r.Pass? <==> mkdir.Pass? && open.Pass? && setup.Pass?
    ensures r.Pass? ==>
      conn != null && fresh(conn) && !conn.closed && conn.path == DatabasePath(filePath, outputDir)
  {
    conn := null;
    if mkdir.Fail? {
      return Fail(CreateDirFailed("failed to create output directory: " + mkdir.error)), conn;
    }
    var created := Store.NewDB(filePath, outputDir, Pass, open, setup);
    if created.Failure? {
      return Fail(CreateDbFailed("failed to create database: " + created.error)), conn;
    }
    conn := new Connection(created.value.path);
    r := Pass;
  }

  /** The part of `ProcessFile` that runs on the new database: chunk the file, then run the
      pipeline on its chunks; a chunking error ends the run before anything is stored. */
  method ChunkAndRun(read: Chunker.FileRead,
                     embedReply: nat -> Result<seq<real>, string>, embedArrival: nat -> seq<nat>,
                     summaryReply: nat -> Result<string, string>, summaryArrival: nat -> seq<nat>,
                     insert: nat -> Outcome<string>,
                     reread: Result<seq<TextChunk>, string>, batchInserted: Outcome<string>)
    returns (r: Outcome<AppError>, stored: seq<TextChunk>, batch: Option<seq<ChunkSimilarity>>)
    requires forall n: nat :: Batch.IsArrivalOrder(embedArrival(n), n)
    requires forall n: nat :: Batch.IsArrivalOrder(summaryArrival(n), n)
    ensures ChunksRead(read).Failure? ==>
      r == Fail(ChunkFailed("failed to chunk text: " + ChunksRead(read).error)) &&
      stored == [] && batch == None
    ensures ChunksRead(read).Success? ==>
      var chunks := ChunksRead(read).value;
      stored == PipelineStored(chunks, embedReply, summaryReply, insert) &&
      batch == PipelineBatch(chunks, embedReply, summaryReply, insert, reread) &&
      PipelineReport(chunks, embedReply, summaryReply, insert, reread, batchInserted, r)
  {
    var chunks := Chunker.ChunkTextByParagraphs(read);
    if chunks.Failure? {
      return Fail(ChunkFailed("failed to chunk text: " + chunks.error)), [], None;
    }
    var n := |chunks.value|;
    r, stored, batch := RunPipeline(chunks.value, embedReply, embedArrival(n), summaryReply,
                                    summaryArrival(n), insert, reread, batchInserted);
  }

  class App {
    /** The database the views read from, if any. */
    var db: Connection?

    /** `NewApp`: no database yet. */
    constructor ()
      ensures db == null
    {
      db := null;
    }

    /** `ProcessFile`: create the output directory, create the database and make it the
        current one, chunk the file, then run the pipeline. The deferred close means that
        afterwards the current database is the one this call created, already closed; a
        database that was current before is neither closed nor current any more. Nothing
        changes the current database when the directory or the database cannot be created. */
    method ProcessFile(filePath: string, outputDir: string,
                       mkdir: Outcome<string>, open: Outcome<string>, setup: Outcome<string>,
                       read: Chunker.FileRead,
                       embedReply: nat -> Result<seq<real>, string>, embedArrival: nat -> seq<nat>,
                       summaryReply: nat -> Result<string, string>, summaryArrival: nat -> seq<nat>,
                       insert: nat -> Outcome<string>,
                       reread: Result<seq<TextChunk>, string>, batchInserted: Outcome<string>)
      returns (r: Outcome<AppError>, stored: seq<TextChunk>, batch: Option<seq<ChunkSimilarity>>)
      requires forall n: nat :: Batch.IsArrivalOrder(embedArrival(n), n)
      requires forall n: nat :: Batch.IsArrivalOrder(summaryArrival(n), n)
      modifies this
      ensures mkdir.Fail? ==>
        r == Fail(CreateDirFailed("failed to create output directory: " + mkdir.error)) && db == old(db)
      ensures mkdir.Pass? && open.Fail? ==>
        r == Fail(CreateDbFailed("failed to create database: " + ("failed to open database: " + open.error))) &&
        db == old(db)
      ensures mkdir.Pass? && open.Pass? && setup.Fail? ==>
        r == Fail(CreateDbFailed("failed to create database: " + ("failed to setup database tables: " + setup.error))) &&
        db == old(db)
      ensures mkdir.Pass? && open.Pass? && setup.Pass? ==>
        db != null && fresh(db) && db.closed && db.path == DatabasePath(filePath, outputDir)
      ensures old(db) != null ==> unchanged(old(db))
      ensures !(mkdir.Pass? && open.Pass? && setup.Pass? && ChunksRead(read).Success?) ==>
        stored == [] && batch == None
      ensures mkdir.Pass? && open.Pass? && setup.Pass? && ChunksRead(read).Failure? ==>
        r == Fail(ChunkFailed("failed to chunk text: " + ChunksRead(read).error))
      ensures mkdir.Pass? && open.Pass? && setup.Pass? && ChunksRead(read).Success? ==>
        var chunks := ChunksRead(read).value;
        stored == PipelineStored(chunks, embedReply, summaryReply, insert) &&
        batch == PipelineBatch(chunks, embedReply, summaryReply, insert, reread) &&
        PipelineReport(chunks, embedReply, summaryReply, insert, reread, batchInserted, r)
    {
      stored, batch := [], None;
      var created, conn := CreateDatabase(filePath, outputDir, mkdir, open, setup);
      if created.Fail? {
        return created, stored, batch;
      }
      db := conn;
      r, stored, batch := ChunkAndRun(read, embedReply, embedArrival, summaryReply, summaryArrival,
                                      insert, reread, batchInserted);
      conn.Close();
    }

    /** `OpenDatabase`: when the file cannot be opened nothing changes; otherwise the previous
        database (if any) is closed and the new one becomes current. */
    method OpenDatabase(dbPath: string, open: Outcome<string>) returns (r: Outcome<string>)
      modifies this, db
      ensures open.Fail? ==>
        r == Fail("failed to open database: failed to open database: " + open.error) &&
        db == old(db) && (old(db) != null ==> db.closed == old(db.closed))
      ensures open.Pass? ==>
        r == Pass && db != null && fresh(db) && db.path == dbPath && !db.closed &&
        (old(db) != null ==> old(db).closed)
    {
      if open.Fail? {
        return Fail("failed to open database: failed to open database: " + open.error);
      }
      var conn := new Connection(dbPath);
      if db != null {
        db.Close();
      }
      db := conn;
      r := Pass;
    }

    /** `GetGraphData`: no database is an error; otherwise one node per chunk and one link
        per record returned for the threshold, in order. The chunk query on a closed database
        fails with the driver's error, wrapped by `GetAllChunks` and then here. `chunks` and
        `similarities` are what `GetChunks` and `GetSimilarities` return on an open database,
        their own error wrapping included; the threshold itself is applied by the similarity
        query. */
    method GetGraphData(chunks: Result<seq<TextChunk>, string>,
                        similarities: Result<seq<ChunkSimilarity>, string>)
      returns (r: Result<Graph, string>)
      ensures db == null ==> r == Failure("no database open")
      ensures db != null && db.closed ==>
        r == Failure("failed to get chunks: " + ("failed to query chunks: " + ErrDatabaseClosed))
      ensures db != null && !db.closed && chunks.Failure? ==>
        r == Failure("failed to get chunks: " + chunks.error)
      ensures db != null && !db.closed && chunks.Success? && similarities.Failure? ==>
        r == Failure("failed to get similarities: " + similarities.error)
      ensures db != null && !db.closed && chunks.Success? && similarities.Success? ==>
        r.Success? &&
        |r.value.nodes| == |chunks.value| &&
        (forall k :: 0 <= k < |chunks.value| ==> r.value.nodes[k] == NodeOf(chunks.value[k])) &&
        |r.value.links| == |similarities.value| &&
        (forall k :: 0 <= k < |similarities.value| ==> r.value.links[k] == LinkOf(similarities.value[k]))
    {
      if db == null {
        return Failure("no database open");
      }
      if db.closed {
        return Failure("failed to get chunks: " + ("failed to query chunks: " + ErrDatabaseClosed));
      }
      if chunks.Failure? {
        return Failure("failed to get chunks: " + chunks.error);
      }
      if similarities.Failure? {
        return Failure("failed to get similarities: " + similarities.error);
      }
      var cs, sims := chunks.value, similarities.value;
      var nodes := new AppNode[|cs|];
      for i := 0 to |cs|
        invariant forall k :: 0 <= k < i ==> nodes[k] == NodeOf(cs[k])
      {
        nodes[i] := NodeOf(cs[i]);
      }
      var links: seq<AppLink> := [];
      for i := 0 to |sims|
        invariant |links| == i
        invariant forall k :: 0 <= k < i ==> links[k] == LinkOf(sims[k])
      {
        links := links + [LinkOf(sims[i])];
      }
      r := Success(Graph(nodes[..], links));
    }
  }

  /** What `ProcessFile` stores for a file it could read is the file's paragraphs in order:
      chunk `k` has the `k`-th paragraph, index `k`, the `k`-th embedding and the cleaned, cut `k`-th summary. */
  lemma {:induction false} StoredChunksAreParagraphs(lines: seq<string>, embedReply: nat -> Result<seq<real>, string>,
                                  summaryReply: nat -> Result<string, string>, insert: nat -> Outcome<string>)
    ensures var paragraphs := Chunker.Paragraphs(lines);
      var stored := PipelineStored(Chunker.ChunksOf(paragraphs), embedReply, summaryReply, insert);
      |stored| <= |paragraphs| &&
      forall k :: 0 <= k < |stored| ==>
        stored[k].text == paragraphs[k] && stored[k].chunkIndex == k &&
        stored[k].embedding == embedReply(k).value &&
        stored[k].summary == Summary.SummaryOf(summaryReply(k).value)
  {
    StoredChunksAreTexts(Chunker.Paragraphs(lines), embedReply, summaryReply, insert);
  }

  /** The same for any list of chunk texts. */
  lemma {:induction false} StoredChunksAreTexts(texts: seq<string>, embedReply: nat -> Result<seq<real>, string>,
                                  summaryReply: nat -> Result<string, string>, insert: nat -> Outcome<string>)
    ensures var stored := PipelineStored(Chunker.ChunksOf(texts), embedReply, summaryReply, insert);
      |stored| <= |texts| &&
      forall k :: 0 <= k < |stored| ==>
        stored[k].text == texts[k] && stored[k].chunkIndex == k &&
        stored[k].embedding == embedReply(k).value &&
        stored[k].summary == Summary.SummaryOf(summaryReply(k).value)
  {
    var stored := PipelineStored(Chunker.ChunksOf(texts), embedReply, summaryReply, insert);
    forall k | 0 <= k < |stored|
      ensures embedReply(k).Success? && summaryReply(k).Success?
      ensures stored[k] == Chunker.ChunkOf(texts[k], k).(embedding := embedReply(k).value,
                                                         summary := Summary.SummaryOf(summaryReply(k).value))
    {
      StoredChunkAt(Chunker.ChunksOf(texts), embedReply, summaryReply, insert, k);
    }
  }

  /** Stored chunk `k` is chunk `k` with its embedding and summary. */
  lemma {:induction false} StoredChunkAt(chunks: seq<TextChunk>, embedReply: nat -> Result<seq<real>, string>,
                                         summaryReply: nat -> Result<string, string>,
                                         insert: nat -> Outcome<string>, k: nat)
    requires k < |PipelineStored(chunks, embedReply, summaryReply, insert)|
    ensures embedReply(k).Success? && summaryReply(k).Success?
    ensures PipelineStored(chunks, embedReply, summaryReply, insert)[k] ==
      chunks[k].(embedding := embedReply(k).value, summary := Summary.SummaryOf(summaryReply(k).value))
  {
    assert AllEmbedded(|chunks|, embedReply) && AllSummarized(|chunks|, summaryReply);
    var processed := Processed(chunks, embedReply, summaryReply);
    assert PipelineStored(chunks, embedReply, summaryReply, insert)[k] == processed[k];
  }

  /** The node a graph link can resolve against: keyed by the chunk's database id, as the
      records are. */
  function IntendedNodeOf(chunk: TextChunk): (node: AppNode)
    ensures node.id == chunk.id && node.index == chunk.chunkIndex
    ensures node.text == chunk.text && node.summary == chunk.summary
  {
    AppNode(chunk.id, chunk.chunkIndex, chunk.text, chunk.summary)
  }

  /** As written, links point past the nodes: when the ids are the ones a fresh table assigns
      (1, 2, ... in chunk order) the record of the first and last chunk is in the similarity
      table, yet its target is no node's id. */
  lemma {:induction false} GraphLinksMissNodes(chunks: seq<TextChunk>)
    requires |chunks| >= 2
    requires forall k :: 0 <= k < |chunks| ==> chunks[k].id == k + 1 && chunks[k].chunkIndex == k
    ensures var n := |chunks|;
      Store.InRange(chunks, Pairs.AllPairs(n)) &&
      Pairs.Position(n, 0, n - 1) < |Pairs.AllPairs(n)| &&
      var link := LinkOf(Store.RecordsOf(chunks, Pairs.AllPairs(n))[Pairs.Position(n, 0, n - 1)]);
      link.target == n &&
      forall k :: 0 <= k < n ==> NodeOf(chunks[k]).id != link.target
  {
    var n := |chunks|;
    Store.PairsInRange(chunks, n);
    Pairs.AllPairsAt(n, 0, n - 1);
    Store.RecordsOfAt(chunks, Pairs.AllPairs(n), Pairs.Position(n, 0, n - 1));
  }

  /** With nodes keyed by database id, every link of the similarity table ends at two
      nodes. */
  lemma {:induction false} IntendedLinksResolve(chunks: seq<TextChunk>, k: nat)
    requires k < |Pairs.AllPairs(|chunks|)|
    ensures Store.InRange(chunks, Pairs.AllPairs(|chunks|))
    ensures var link := LinkOf(Store.RecordsOf(chunks, Pairs.AllPairs(|chunks|))[k]);
      (exists i :: 0 <= i < |chunks| && IntendedNodeOf(chunks[i]).id == link.source) &&
      (exists j :: 0 <= j < |chunks| && IntendedNodeOf(chunks[j]).id == link.target)
  {
    Store.SimilaritiesShape(chunks, k);
    var p := Pairs.AllPairs(|chunks|)[k];
    assert IntendedNodeOf(chunks[p.0]).id == chunks[p.0].id;
    assert IntendedNodeOf(chunks[p.1]).id == chunks[p.1].id;
  }
}
