/** The records stored for a processed text (pkg/database/models.go); `float64` is `real`. */
module Records {

  /** One paragraph of the input, with its embedding and its short summary once computed. */
  datatype TextChunk = TextChunk(
    id: int,
    text: string,
    chunkIndex: int,
    embedding: seq<real>,
    summary: string)

  /** The comparison of two stored chunks, by their database ids. */
  datatype ChunkSimilarity = ChunkSimilarity(
    id: int,
    chunkId1: int,
    chunkId2: int,
    distance: real,
    similarity: real)

  /** Go's zero value of `TextChunk`, the content of a fresh slot of a `[]TextChunk`. */
  const ZeroChunk: TextChunk := TextChunk(0, "", 0, [], "")
}
