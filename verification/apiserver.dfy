/**
 * The read-only HTTP API (cmd/api-server/main.go): the CORS wrapper's method dispatch, the
 * three GET handlers, the JSON envelopes, and the graph projection of `/api/graph`.
 *
 * The database is outside the model: `open` is the outcome of opening it and `chunks` /
 * `similarities` are what its two queries return. The `min_similarity` query parameter comes
 * with `parsed`, the result of parsing it as a float.
 */
module ApiServer {
  import opened Wrappers
  import opened Records

  const MethodGet := "GET"
  const MethodOptions := "OPTIONS"

  const StatusOK: nat := 200
  const StatusMethodNotAllowed: nat := 405
  const StatusInternalServerError: nat := 500

  datatype Node = Node(id: int, text: string, index: int, summary: string)

  datatype Link = Link(source: int, target: int, distance: real, similarity: real)

  datatype GraphData = GraphData(nodes: seq<Node>, links: seq<Link>)

  /** What a success envelope carries. */
  datatype Payload =
    | ChunksData(chunks: seq<TextChunk>)
    | SimilaritiesData(similarities: seq<ChunkSimilarity>)
    | GraphPayload(graph: GraphData)

  /** The JSON envelope; `None` data and empty error are the fields the encoder omits. */
  datatype APIResponse = APIResponse(success: bool, data: Option<Payload>, error: string)

  datatype Body = NoBody | PlainText(text: string) | Json(response: APIResponse)

  datatype Reply = Reply(status: nat, body: Body)

  datatype Endpoint = ChunksEndpoint | SimilaritiesEndpoint | GraphEndpoint

  /** An envelope is either a success with data and no error, or a failure with a message and
      no data; the status is 200 exactly for successes. */
  predicate WellFormed(reply: Reply)
  {
    reply.body.Json? ==>
      var resp := reply.body.response;
      (resp.success <==> reply.status == StatusOK) &&
      (resp.success ==> resp.data.Some? && resp.error == []) &&
      (!resp.success ==> resp.data.None? && resp.error != [])
  }

  /** `respondWithJSON`: a success envelope around `data`, with the default status 200. */
  function RespondWithJSON(data: Payload): (reply: Reply)
    ensures WellFormed(reply)
    ensures reply.status == StatusOK && reply.body.Json? && reply.body.response.data == Some(data)
  {
    Reply(StatusOK, Json(APIResponse(true, Some(data), [])))
  }

  /** `respondWithError`: a failure envelope with the message, sent with `status`. */
  function RespondWithError(message: string, status: nat): (reply: Reply)
    requires message != [] && status != StatusOK
    ensures WellFormed(reply)
    ensures reply.status == status && reply.body.Json? && !reply.body.response.success
    ensures reply.body.response.error == message
  {
    Reply(status, Json(APIResponse(false, None, message)))
  }

  /** `http.Error` for a method other than GET: plain text and 405. */
  function MethodNotAllowed(): (reply: Reply)
    ensures WellFormed(reply) && reply.status == StatusMethodNotAllowed && !reply.body.Json?
  {
    Reply(StatusMethodNotAllowed, PlainText("Method not allowed\n"))
  }

  /** The threshold `handleGraph` uses: 0 when the parameter is absent or does not parse,
      otherwise the parsed value. */
  function Threshold(param: string, parsed: Result<real, string>): (min: real)
    ensures param == [] || parsed.Failure? ==> min == 0.0
    ensures param != [] && parsed.Success? ==> min == parsed.value
  {
    if param != [] && parsed.Success? then parsed.value else 0.0
  }

  /** The node of a chunk: its id, text, index and summary. */
  function NodeOf(chunk: TextChunk): (node: Node)
    ensures node.id == chunk.id && node.text == chunk.text
    ensures node.index == chunk.chunkIndex && node.summary == chunk.summary
  {
    Node(chunk.id, chunk.text, chunk.chunkIndex, chunk.summary)
  }

  /** The link of a record: its two chunk ids, distance and similarity. */
  function LinkOf(sim: ChunkSimilarity): (link: Link)
    ensures link.source == sim.chunkId1 && link.target == sim.chunkId2
    ensures link.distance == sim.distance && link.similarity == sim.similarity
  {
    Link(sim.chunkId1, sim.chunkId2, sim.distance, sim.similarity)
  }

  /** The links of the records at or above `min`, in record order. */
  function LinksAbove(sims: seq<ChunkSimilarity>, min: real): (links: seq<Link>)
    ensures |links| <= |sims|
  {
    if sims == [] then []
    else
      var last := sims[|sims| - 1];
      LinksAbove(sims[..|sims| - 1], min) + (if last.similarity >= min then [LinkOf(last)] else [])
  }

  /** Filtering distributes over concatenation: records keep their relative order. */
  lemma {:induction false} LinksAboveAppend(a: seq<ChunkSimilarity>, b: seq<ChunkSimilarity>, min: real)
    ensures LinksAbove(a + b, min) == LinksAbove(a, min) + LinksAbove(b, min)
    decreases |b|
  {
    if b == [] {
      assert a + b == a;
    } else {
      var b' := b[..|b| - 1];
      assert (a + b)[..|a + b| - 1] == a + b';
      LinksAboveAppend(a, b', min);
    }
  }

  /** A link is produced exactly for the records at or above the threshold. */
  lemma {:induction false} LinksAboveIff(sims: seq<ChunkSimilarity>, min: real, link: Link)
    ensures link in LinksAbove(sims, min) <==>
      exists s :: s in sims && s.similarity >= min && link == LinkOf(s)
  {
    if sims != [] {
      var init, last := sims[..|sims| - 1], sims[|sims| - 1];
      assert sims == init + [last];
      LinksAboveIff(init, min, link);
      if link in LinksAbove(sims, min) && link !in LinksAbove(init, min) {
        assert last.similarity >= min && link == LinkOf(last);
      }
      if exists s :: s in sims && s.similarity >= min && link == LinkOf(s) {
        var s :| s in sims && s.similarity >= min && link == LinkOf(s);
        if s != last {
          assert s in init;
        }
      }
    }
  }

  /** A threshold no higher than every similarity keeps every record. */
  lemma {:induction false} LinksAboveAll(sims: seq<ChunkSimilarity>, min: real)
    requires forall k :: 0 <= k < |sims| ==> sims[k].similarity >= min
    ensures |LinksAbove(sims, min)| == |sims|
    ensures forall k :: 0 <= k < |sims| ==> LinksAbove(sims, min)[k] == LinkOf(sims[k])
  {
    if sims != [] {
      LinksAboveAll(sims[..|sims| - 1], min);
    }
  }

  /** Raising the threshold never adds links. */
  lemma {:induction false} LinksAboveMonotone(sims: seq<ChunkSimilarity>, low: real, high: real)
    requires low <= high
    ensures |LinksAbove(sims, high)| <= |LinksAbove(sims, low)|
  {
    if sims != [] {
      LinksAboveMonotone(sims[..|sims| - 1], low, high);
    }
  }

  /** Fills the pre-sized node array: one node per chunk, in chunk order. */
  method BuildNodes(chunks: seq<TextChunk>) returns (nodes: seq<Node>)
    ensures |nodes| == |chunks|
    ensures forall k :: 0 <= k < |chunks| ==> nodes[k] == NodeOf(chunks[k])
  {
    var a := new Node[|chunks|];
    for i := 0 to |chunks|
      invariant forall k :: 0 <= k < i ==> a[k] == NodeOf(chunks[k])
    {
      a[i] := NodeOf(chunks[i]);
    }
    nodes := a[..];
  }

  /** Appends the link of every record at or above `min`. */
  method BuildLinks(sims: seq<ChunkSimilarity>, min: real) returns (links: seq<Link>)
    ensures links == LinksAbove(sims, min)
  {
    links := [];
    for i := 0 to |sims|
      invariant links == LinksAbove(sims[..i], min)
    {
      assert sims[..i + 1][..i] == sims[..i];
      if sims[i].similarity >= min {
        links := links + [LinkOf(sims[i])];
      }
    }
    assert sims[..|sims|] == sims;
  }

  /** `handleChunks`: every chunk, or the error of opening the database or of the query. */
  method HandleChunks(httpMethod: string, open: Outcome<string>, chunks: Result<seq<TextChunk>, string>)
    returns (reply: Reply, dbOpened: bool)
    ensures WellFormed(reply)
    ensures httpMethod != MethodGet ==> reply == MethodNotAllowed() && !dbOpened
    ensures httpMethod == MethodGet ==> dbOpened
    ensures httpMethod == MethodGet && open.Fail? ==>
      reply == RespondWithError("Failed to open database: " + open.error, StatusInternalServerError)
    ensures httpMethod == MethodGet && open.Pass? && chunks.Failure? ==>
      reply == RespondWithError("Failed to get chunks: " + chunks.error, StatusInternalServerError)
    ensures httpMethod == MethodGet && open.Pass? && chunks.Success? ==>
      reply == RespondWithJSON(ChunksData(chunks.value))
  {
    if httpMethod != MethodGet {
      return MethodNotAllowed(), false;
    }
    dbOpened := true;
    if open.Fail? {
      return RespondWithError("Failed to open database: " + open.error, StatusInternalServerError), dbOpened;
    }
    if chunks.Failure? {
      return RespondWithError("Failed to get chunks: " + chunks.error, StatusInternalServerError), dbOpened;
    }
    reply := RespondWithJSON(ChunksData(chunks.value));
  }

  /** `handleSimilarities`: every record, or the error of opening the database or of the
      query. */
  method HandleSimilarities(httpMethod: string, open: Outcome<string>,
                            similarities: Result<seq<ChunkSimilarity>, string>)
    returns (reply: Reply, dbOpened: bool)
    ensures WellFormed(reply)
    ensures httpMethod != MethodGet ==> reply == MethodNotAllowed() && !dbOpened
    ensures httpMethod == MethodGet ==> dbOpened
    ensures httpMethod == MethodGet && open.Fail? ==>
      reply == RespondWithError("Failed to open database: " + open.error, StatusInternalServerError)
    ensures httpMethod == MethodGet && open.Pass? && similarities.Failure? ==>
      reply == RespondWithError("Failed to get similarities: " + similarities.error, StatusInternalServerError)
    ensures httpMethod == MethodGet && open.Pass? && similarities.Success? ==>
      reply == RespondWithJSON(SimilaritiesData(similarities.value))
  {
    if httpMethod != MethodGet {
      return MethodNotAllowed(), false;
    }
    dbOpened := true;
    if open.Fail? {
      return RespondWithError("Failed to open database: " + open.error, StatusInternalServerError), dbOpened;
    }
    if similarities.Failure? {
      return RespondWithError("Failed to get similarities: " + similarities.error, StatusInternalServerError), dbOpened;
    }
    reply := RespondWithJSON(SimilaritiesData(similarities.value));
  }

  /** `handleGraph`: one node per chunk and the links of the records at or above the
      `min_similarity` threshold; the chunks are queried before the records. */
  method HandleGraph(httpMethod: string, param: string, parsed: Result<real, string>,
                     open: Outcome<string>, chunks: Result<seq<TextChunk>, string>,
                     similarities: Result<seq<ChunkSimilarity>, string>)
    returns (reply: Reply, dbOpened: bool)
    ensures WellFormed(reply)
    ensures httpMethod != MethodGet ==> reply == MethodNotAllowed() && !dbOpened
    ensures httpMethod == MethodGet ==> dbOpened
    ensures httpMethod == MethodGet && open.Fail? ==>
      reply == RespondWithError("Failed to open database: " + open.error, StatusInternalServerError)
    ensures httpMethod == MethodGet && open.Pass? && chunks.Failure? ==>
      reply == RespondWithError("Failed to get chunks: " + chunks.error, StatusInternalServerError)
    ensures httpMethod == MethodGet && open.Pass? && chunks.Success? && similarities.Failure? ==>
      reply == RespondWithError("Failed to get similarities: " + similarities.error, StatusInternalServerError)
    ensures httpMethod == MethodGet && open.Pass? && chunks.Success? && similarities.Success? ==>
      reply.status == StatusOK && reply.body.Json? && reply.body.response.data.Some? &&
      reply.body.response.data.value.GraphPayload? &&
      var graph := reply.body.response.data.value.graph;
      |graph.nodes| == |chunks.value| &&
      (forall k :: 0 <= k < |chunks.value| ==> graph.nodes[k] == NodeOf(chunks.value[k])) &&
      graph.links == LinksAbove(similarities.value, Threshold(param, parsed))
  {
    if httpMethod != MethodGet {
      return MethodNotAllowed(), false;
    }
    var minSimilarity := 0.0;
    if param != [] {
      if parsed.Success? {
        minSimilarity := parsed.value;
      }
    }
    dbOpened := true;
    if open.Fail? {
      return RespondWithError("Failed to open database: " + open.error, StatusInternalServerError), dbOpened;
    }
    if chunks.Failure? {
      return RespondWithError("Failed to get chunks: " + chunks.error, StatusInternalServerError), dbOpened;
    }
    if similarities.Failure? {
      return RespondWithError("Failed to get similarities: " + similarities.error, StatusInternalServerError), dbOpened;
    }
    var nodes := BuildNodes(chunks.value);
    var links := BuildLinks(similarities.value, minSimilarity);
    reply := RespondWithJSON(GraphPayload(GraphData(nodes, links)));
  }

  /** `enableCORS` around a handler: a preflight OPTIONS request is answered with 200 and no
      body and never reaches the handler (nor the database); every other request goes to the
      endpoint's handler. */
  method Serve(endpoint: Endpoint, httpMethod: string, param: string, parsed: Result<real, string>,
               open: Outcome<string>, chunks: Result<seq<TextChunk>, string>,
               similarities: Result<seq<ChunkSimilarity>, string>)
    returns (reply: Reply, dbOpened: bool)
    ensures WellFormed(reply)
    ensures httpMethod == MethodOptions ==> reply == Reply(StatusOK, NoBody) && !dbOpened
    ensures httpMethod != MethodOptions && httpMethod != MethodGet ==>
      reply == MethodNotAllowed() && !dbOpened
    ensures dbOpened <==> httpMethod == MethodGet
    ensures reply.status == StatusOK <==> httpMethod == MethodOptions || (reply.body.Json? && reply.body.response.success)
    ensures httpMethod == MethodGet && open.Fail? ==>
      reply == RespondWithError("Failed to open database: " + open.error, StatusInternalServerError)
    ensures httpMethod == MethodGet && open.Pass? && endpoint == ChunksEndpoint ==>
      (chunks.Failure? ==>
         reply == RespondWithError("Failed to get chunks: " + chunks.error, StatusInternalServerError)) &&
      (chunks.Success? ==> reply == RespondWithJSON(ChunksData(chunks.value)))
    ensures httpMethod == MethodGet && open.Pass? && endpoint == SimilaritiesEndpoint ==>
      (similarities.Failure? ==>
         reply == RespondWithError("Failed to get similarities: " + similarities.error, StatusInternalServerError)) &&
      (similarities.Success? ==> reply == RespondWithJSON(SimilaritiesData(similarities.value)))
    ensures httpMethod == MethodGet && open.Pass? && endpoint == GraphEndpoint ==>
      (chunks.Failure? ==>
         reply == RespondWithError("Failed to get chunks: " + chunks.error, StatusInternalServerError)) &&
      (chunks.Success? && similarities.Failure? ==>
         reply == RespondWithError("Failed to get similarities: " + similarities.error, StatusInternalServerError)) &&
      (chunks.Success? && similarities.Success? ==>
         reply.body.Json? && reply.body.response.data.Some? &&
         reply.body.response.data.value.GraphPayload? &&
         |reply.body.response.data.value.graph.nodes| == |chunks.value| &&
         (forall k :: 0 <= k < |chunks.value| ==>
            reply.body.response.data.value.graph.nodes[k] == NodeOf(chunks.value[k])) &&
         reply.body.response.data.value.graph.links == LinksAbove(similarities.value, Threshold(param, parsed)))
  {
    if httpMethod == MethodOptions {
      return Reply(StatusOK, NoBody), false;
    }
    match endpoint
    case ChunksEndpoint =>
      reply, dbOpened := HandleChunks(httpMethod, open, chunks);
    case SimilaritiesEndpoint =>
      reply, dbOpened := HandleSimilarities(httpMethod, open, similarities);
    case GraphEndpoint =>
      reply, dbOpened := HandleGraph(httpMethod, param, parsed, open, chunks, similarities);
  }

  /** The ids of some chunks. */
  function IdsOf(chunks: seq<TextChunk>): set<int>
  {
    set c | c in chunks :: c.id
  }

  /** When every record names chunks that were read, every link of the graph ends at two of
      its nodes (nodes and links both use database ids). */
  lemma {:induction false} GraphLinksResolve(chunks: seq<TextChunk>, sims: seq<ChunkSimilarity>, min: real,
                          nodes: seq<Node>, link: Link)
    requires forall s :: s in sims ==> s.chunkId1 in IdsOf(chunks) && s.chunkId2 in IdsOf(chunks)
    requires |nodes| == |chunks| && forall k :: 0 <= k < |chunks| ==> nodes[k] == NodeOf(chunks[k])
    requires link in LinksAbove(sims, min)
    ensures exists k :: 0 <= k < |nodes| && nodes[k].id == link.source
    ensures exists k :: 0 <= k < |nodes| && nodes[k].id == link.target
  {
    LinksAboveIff(sims, min, link);
    var s :| s in sims && s.similarity >= min && link == LinkOf(s);
    var c1 :| c1 in chunks && c1.id == s.chunkId1;
    var c2 :| c2 in chunks && c2.id == s.chunkId2;
    var k1 :| 0 <= k1 < |chunks| && chunks[k1] == c1;
    var k2 :| 0 <= k2 < |chunks| && chunks[k2] == c2;
    assert nodes[k1].id == link.source;
    assert nodes[k2].id == link.target;
  }
}
