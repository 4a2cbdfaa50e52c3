/**
 * The command-line tool (main.go): default output directory, database naming, its copy of
 * the paragraph chunker, and `processFile`, which embeds and stores the chunks one by one
 * and stops at the first failure.
 *
 * The embedding service and the database are outside the model: `embed(i)` is the reply to
 * the request for the `i`-th chunk and `insert(i)` the outcome of storing it.
 */
module Cli {
  import opened Wrappers
  import opened Text
  import opened Paths
  import Chunker

  /** main.go's own chunk record: no summary field. */
  datatype CliChunk = CliChunk(id: int, text: string, chunkIndex: int, embedding: seq<real>)

  /** Why `processFile` stopped: each case is one of its wrapped errors, holding the
      underlying cause (and, for the per-chunk cases, the 0-based chunk position). */
  datatype ProcessError =
    | ChunkingFailed(cause: string)
    | CreateFailed(cause: string)
    | OpenFailed(cause: string)
    | SetupFailed(cause: string)
    | EmbeddingFailed(index: nat, cause: string)
    | InsertFailed(index: nat, cause: string)

  /** The output directory actually used: `"."` when none was given. */
  function OutputDir(given: string): (dir: string)
    ensures dir != []
    ensures given != [] ==> dir == given
  {
    if given == [] then "." else given
  }

  /** `createOutputDatabase`: create the output directory (`mkdir` is its outcome), then name
      the database file inside it. */
  function CreateOutputDatabase(inputFile: string, outputDir: string, mkdir: Outcome<string>)
    : (r: Result<string, string>)
    ensures mkdir.Fail? ==> r == Failure("failed to create output directory: " + mkdir.error)
    ensures mkdir.Pass? ==> r == Success(DatabasePath(inputFile, outputDir))
    ensures mkdir.Pass? ==> Base(r.value) == TrimLeadingSlashes(DatabaseName(inputFile))
  {
    DatabasePathBase(inputFile, outputDir);
    if mkdir.Fail? then Failure("failed to create output directory: " + mkdir.error)
    else Success(DatabasePath(inputFile, outputDir))
  }

  /** The CLI record of a paragraph: no id, no embedding yet. */
  function CliChunkOf(text: string, index: nat): CliChunk
  {
    CliChunk(0, text, index, [])
  }

  /** `chunkTextByParagraphs`: the same paragraphs as the package chunker, in main.go's record
      type. */
  method ChunkTextByParagraphs(read: Chunker.FileRead) returns (r: Result<seq<CliChunk>, string>)
    ensures read.OpenFailed? ==> r == Failure(read.error)
    ensures read.Scanned? && read.scanError.Some? ==> r == Failure(read.scanError.value)
    ensures read.Scanned? && read.scanError.None? ==>
      r.Success? && |r.value| == |Chunker.Paragraphs(read.lines)| &&
      forall k :: 0 <= k < |r.value| ==> r.value[k] == CliChunkOf(Chunker.Paragraphs(read.lines)[k], k)
  {
    var chunks := Chunker.ChunkTextByParagraphs(read);
    if chunks.Failure? {
      return Failure(chunks.error);
    }
    var cs := chunks.value;
    r := Success(seq(|cs|, k requires 0 <= k < |cs| => CliChunk(cs[k].id, cs[k].text, cs[k].chunkIndex, cs[k].embedding)));
  }

  /** Chunk `i` cannot be stored: its embedding request or its insert failed. */
  predicate Fails(embed: nat -> Result<seq<real>, string>, insert: nat -> Outcome<string>, i: nat)
  {
    embed(i).Failure? || insert(i).Fail?
  }

  /** The first chunk from `i` on (below `n`) that cannot be stored, or `n` when there is
      none. */
  function FirstFailure(n: nat, embed: nat -> Result<seq<real>, string>, insert: nat -> Outcome<string>,
                        i: nat): (f: nat)
    requires i <= n
    ensures i <= f <= n
    ensures forall k :: i <= k < f ==> embed(k).Success? && insert(k).Pass?
    ensures f < n ==> Fails(embed, insert, f)
    decreases n - i
  {
    if i == n || Fails(embed, insert, i) then i else FirstFailure(n, embed, insert, i + 1)
  }

  /** What the loop has stored after the first `count` chunks: each with its embedding. */
  function Stored(chunks: seq<CliChunk>, embed: nat -> Result<seq<real>, string>, count: nat)
    : (r: seq<CliChunk>)
    requires count <= |chunks|
    requires forall k :: 0 <= k < count ==> embed(k).Success?
    ensures |r| == count
    ensures forall k :: 0 <= k < count ==> r[k] == chunks[k].(embedding := embed(k).value)
  {
    seq(count, k requires 0 <= k < count && embed(k).Success? => chunks[k].(embedding := embed(k).value))
  }

  /** The loop of `processFile`: chunks in index order; each gets its embedding and is
      inserted. It stops at the first chunk whose embedding or insert fails, reporting that
      chunk's 0-based position; exactly the chunks before it have been stored. */
  method StoreChunks(chunks: seq<CliChunk>, embed: nat -> Result<seq<real>, string>,
                     insert: nat -> Outcome<string>)
    returns (r: Outcome<ProcessError>, stored: seq<CliChunk>)
    ensures var f := FirstFailure(|chunks|, embed, insert, 0);
      stored == Stored(chunks, embed, f) &&
      (r.Pass? <==> f == |chunks|) &&
      (f < |chunks| && embed(f).Failure? ==> r == Fail(EmbeddingFailed(f, embed(f).error))) &&
      (f < |chunks| && embed(f).Success? ==> r == Fail(InsertFailed(f, insert(f).error)))
  {
    stored := [];
    var i := 0;
    while i < |chunks|
      invariant 0 <= i <= |chunks|
      invariant forall k :: 0 <= k < i ==> embed(k).Success? && insert(k).Pass?
      invariant stored == Stored(chunks, embed, i)
      invariant FirstFailure(|chunks|, embed, insert, 0) == FirstFailure(|chunks|, embed, insert, i)
    {
      var chunk := chunks[i];
      var embedding := embed(i);
      if embedding.Failure? {
        return Fail(EmbeddingFailed(i, embedding.error)), stored;
      }
      chunk := chunk.(embedding := embedding.value);
      var inserted := insert(i);
      if inserted.Fail? {
        return Fail(InsertFailed(i, inserted.error)), stored;
      }
      stored := stored + [chunk];
      i := i + 1;
    }
    return Pass, stored;
  }

  /** `processFile`: chunk the file, create and open the database, set up its table, then
      store the chunks; each failure ends the run with its own error, and nothing is stored
      unless the database was set up. */
  method ProcessFile(inputFile: string, outputDir: string, read: Chunker.FileRead,
                     mkdir: Outcome<string>, open: Outcome<string>, setup: Outcome<string>,
                     embed: nat -> Result<seq<real>, string>, insert: nat -> Outcome<string>)
    returns (r: Outcome<ProcessError>, dbPath: Option<string>, stored: seq<CliChunk>)
    ensures read.OpenFailed? ==> r == Fail(ChunkingFailed(read.error)) && dbPath == None && stored == []
    ensures read.Scanned? && read.scanError.Some? ==>
      r == Fail(ChunkingFailed(read.scanError.value)) && dbPath == None && stored == []
    ensures dbPath.Some? ==> dbPath.value == DatabasePath(inputFile, outputDir)
    ensures read.Scanned? && read.scanError.None? && mkdir.Fail? ==>
      r == Fail(CreateFailed("failed to create output directory: " + mkdir.error)) && dbPath == None
    ensures read.Scanned? && read.scanError.None? && mkdir.Pass? && open.Fail? ==>
      r == Fail(OpenFailed(open.error))
    ensures read.Scanned? && read.scanError.None? && mkdir.Pass? && open.Pass? && setup.Fail? ==>
      r == Fail(SetupFailed(setup.error))
    ensures read.Scanned? && read.scanError.None? && mkdir.Pass? && open.Pass? && setup.Pass? ==>
      var n := |Chunker.Paragraphs(read.lines)|;
      var f := FirstFailure(n, embed, insert, 0);
      dbPath.Some? && |stored| == f && (r.Pass? <==> f == n) &&
      (f < n && embed(f).Failure? ==> r == Fail(EmbeddingFailed(f, embed(f).error))) &&
      (f < n && embed(f).Success? ==> r == Fail(InsertFailed(f, insert(f).error))) &&
      forall k :: 0 <= k < f ==>
        stored[k] == CliChunk(0, Chunker.Paragraphs(read.lines)[k], k, embed(k).value)
    ensures (mkdir.Fail? || open.Fail? || setup.Fail?) ==> r.Fail? && stored == []
  {
    stored := [];
    dbPath := None;
    var chunks := ChunkTextByParagraphs(read);
    if chunks.Failure? {
      return Fail(ChunkingFailed(chunks.error)), dbPath, stored;
    }
    var created := CreateOutputDatabase(inputFile, outputDir, mkdir);
    if created.Failure? {
      return Fail(CreateFailed(created.error)), dbPath, stored;
    }
    dbPath := Some(created.value);
    if open.Fail? {
      return Fail(OpenFailed(open.error)), dbPath, stored;
    }
    if setup.Fail? {
      return Fail(SetupFailed(setup.error)), dbPath, stored;
    }
    r, stored := StoreChunks(chunks.value, embed, insert);
  }
}
