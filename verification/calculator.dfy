/**
 * The visualizer's similarity package (embed-visualizer/pkg/similarity/calculator.go):
 * cosine similarity and Euclidean distance of two embeddings, and the all-pairs table.
 *
 * `math.Sqrt` is the parameter `sqrt`; the properties that depend on it being a square root
 * require `IsSqrt(sqrt)`.
 */
module Calculator {
  import opened Wrappers
  import opened Records
  import opened Vectors
  import opened Pairs

  /** `sqrt` returns the non-negative square root of every non-negative number, and 0 for 0
      (the special case `math.Sqrt` documents). */
  ghost predicate IsSqrt(sqrt: real -> real)
  {
    sqrt(0.0) == 0.0 &&
    forall x :: 0.0 <= x ==> 0.0 <= sqrt(x) && sqrt(x) * sqrt(x) == x
  }

  /** The two vectors differ in length (the error both measures return). */
  datatype LengthMismatch = LengthMismatch(lengthA: nat, lengthB: nat)

  /** The cosine of two equal-length vectors, 0 when either norm is 0. */
  function Cosine(a: seq<real>, b: seq<real>, sqrt: real -> real): real
    requires |a| == |b|
  {
    var normA := sqrt(Dot(a, a));
    var normB := sqrt(Dot(b, b));
    if normA == 0.0 || normB == 0.0 then 0.0 else Dot(a, b) / (normA * normB)
  }

  /** `CosineSimilarity`: a length mismatch is an error; otherwise the accumulated dot product
      over the product of the two norms, or 0 (and no error) when either norm is 0. */
  method CosineSimilarity(a: seq<real>, b: seq<real>, sqrt: real -> real)
    returns (r: Result<real, LengthMismatch>)
    ensures |a| != |b| <==> r.Failure?
    ensures |a| != |b| ==> r == Failure(LengthMismatch(|a|, |b|))
    ensures |a| == |b| ==> r == Success(Cosine(a, b, sqrt))
    ensures |a| == |b| && (sqrt(Dot(a, a)) == 0.0 || sqrt(Dot(b, b)) == 0.0) ==> r == Success(0.0)
  {
    if |a| != |b| {
      return Failure(LengthMismatch(|a|, |b|));
    }
    var dotProduct, normA, normB := 0.0, 0.0, 0.0;
    var i := 0;
    while i < |a|
      invariant 0 <= i <= |a|
      invariant dotProduct == Dot(a[..i], b[..i])
      invariant normA == Dot(a[..i], a[..i])
      invariant normB == Dot(b[..i], b[..i])
    {
      assert a[..i + 1][..i] == a[..i] && b[..i + 1][..i] == b[..i];
      dotProduct := dotProduct + a[i] * b[i];
      normA := normA + a[i] * a[i];
      normB := normB + b[i] * b[i];
      i := i + 1;
    }
    assert a[..i] == a && b[..i] == b;
    normA := sqrt(normA);
    normB := sqrt(normB);
    assert normA == sqrt(Dot(a, a)) && normB == sqrt(Dot(b, b)) && dotProduct == Dot(a, b);
    if normA == 0.0 || normB == 0.0 {
      return Success(0.0);
    }
    var cosine := dotProduct / (normA * normB);
    assert cosine == Cosine(a, b, sqrt);
    return Success(cosine);
  }

  /** `EuclideanDistance`: a length mismatch is an error; otherwise the square root of the
      accumulated squared differences. */
  method EuclideanDistance(a: seq<real>, b: seq<real>, sqrt: real -> real)
    returns (r: Result<real, LengthMismatch>)
    ensures |a| != |b| <==> r.Failure?
    ensures |a| != |b| ==> r == Failure(LengthMismatch(|a|, |b|))
    ensures |a| == |b| ==> r == Success(sqrt(SquaredDistance(a, b)))
  {
    if |a| != |b| {
      return Failure(LengthMismatch(|a|, |b|));
    }
    var sum := 0.0;
    var i := 0;
    while i < |a|
      invariant 0 <= i <= |a|
      invariant sum == SquaredDistance(a[..i], b[..i])
    {
      assert a[..i + 1][..i] == a[..i] && b[..i + 1][..i] == b[..i];
      var diff := a[i] - b[i];
      sum := sum + diff * diff;
      i := i + 1;
    }
    assert a[..i] == a && b[..i] == b;
    return Success(sqrt(sum));
  }

  /** The cosine does not depend on the order of its arguments. */
  lemma {:induction false} CosineSymmetric(a: seq<real>, b: seq<real>, sqrt: real -> real)
    requires |a| == |b|
    ensures Cosine(a, b, sqrt) == Cosine(b, a, sqrt)
  {
    DotSymmetric(a, b);
  }

  /** A zero vector has cosine 0 with every vector of its length. */
  lemma {:induction false} CosineOfZeroVector(a: seq<real>, b: seq<real>, sqrt: real -> real)
    requires |a| == |b| && IsSqrt(sqrt)
    requires forall k :: 0 <= k < |a| ==> a[k] == 0.0
    ensures Cosine(a, b, sqrt) == 0.0 && Cosine(b, a, sqrt) == 0.0
  {
    SquaredNorm(a);
    CosineSymmetric(a, b, sqrt);
  }

  /** The Euclidean distance is non-negative, symmetric, and 0 from a vector to itself. */
  lemma {:induction false} DistanceProperties(a: seq<real>, b: seq<real>, sqrt: real -> real)
    requires |a| == |b| && IsSqrt(sqrt)
    ensures sqrt(SquaredDistance(a, b)) >= 0.0
    ensures sqrt(SquaredDistance(a, b)) == sqrt(SquaredDistance(b, a))
    ensures a == b ==> sqrt(SquaredDistance(a, b)) == 0.0
  {
    SquaredDistanceBounds(a, b);
    SquaredDistanceSymmetric(a, b);
  }

  /** Two positions hold embeddings of the same length. */
  predicate Comparable(chunks: seq<TextChunk>, i: nat, j: nat)
    requires i < |chunks| && j < |chunks|
  {
    EmbeddingLength(chunks, i) == EmbeddingLength(chunks, j)
  }

  /** The length of chunk `k`'s embedding. */
  function EmbeddingLength(chunks: seq<TextChunk>, k: nat): nat
    requires k < |chunks|
  {
    |chunks[k].embedding|
  }

  /** All pairs in `ps` point into `chunks` at comparable embeddings. */
  predicate ValidPairs(chunks: seq<TextChunk>, ps: seq<Pair>)
  {
    forall k :: 0 <= k < |ps| ==>
      ps[k].0 < |chunks| && ps[k].1 < |chunks| && Comparable(chunks, ps[k].0, ps[k].1)
  }

  /** The record of one pair: the two ids, the distance and the cosine (its own id unset). */
  function PairRecord(c1: TextChunk, c2: TextChunk, sqrt: real -> real): ChunkSimilarity
    requires |c1.embedding| == |c2.embedding|
  {
    ChunkSimilarity(0, c1.id, c2.id, sqrt(SquaredDistance(c1.embedding, c2.embedding)),
                    Cosine(c1.embedding, c2.embedding, sqrt))
  }

  /** The records of the pairs `ps`, in order. */
  function RecordsOf(chunks: seq<TextChunk>, ps: seq<Pair>, sqrt: real -> real): (r: seq<ChunkSimilarity>)
    requires ValidPairs(chunks, ps)
    ensures |r| == |ps|
  {
    if ps == [] then []
    else
      var p := ps[|ps| - 1];
      RecordsOf(chunks, ps[..|ps| - 1], sqrt) + [PairRecord(chunks[p.0], chunks[p.1], sqrt)]
  }

  /** Record `k` is the record of pair `k`. */
  lemma {:induction false} RecordsOfAt(chunks: seq<TextChunk>, ps: seq<Pair>, sqrt: real -> real, k: nat)
    requires ValidPairs(chunks, ps) && k < |ps|
    ensures RecordsOf(chunks, ps, sqrt)[k] == PairRecord(chunks[ps[k].0], chunks[ps[k].1], sqrt)
  {
    if k < |ps| - 1 {
      RecordsOfAt(chunks, ps[..|ps| - 1], sqrt, k);
    }
  }

  /** The records depend only on the chunks' ids and embeddings: text, index and summary are
      ignored. */
  lemma {:induction false} RecordsIgnoreText(c1: seq<TextChunk>, c2: seq<TextChunk>, ps: seq<Pair>,
                                             sqrt: real -> real)
    requires |c1| == |c2|
    requires forall k :: 0 <= k < |c1| ==> c1[k].id == c2[k].id && c1[k].embedding == c2[k].embedding
    requires ValidPairs(c1, ps)
    ensures ValidPairs(c2, ps)
    ensures RecordsOf(c1, ps, sqrt) == RecordsOf(c2, ps, sqrt)
  {
    if ps != [] {
      RecordsIgnoreText(c1, c2, ps[..|ps| - 1], sqrt);
    }
  }

  /** Why the table could not be built: the distance of the chunks with these ids failed. */
  datatype PairError = DistanceFailed(chunkId1: int, chunkId2: int, cause: LengthMismatch)

  /** All pairs before `(i, j)` in row-major order have comparable embeddings. */
  predicate ComparableBefore(chunks: seq<TextChunk>, i: nat, j: nat)
  {
    forall p, q :: 0 <= p < q < |chunks| && (p < i || (p == i && q < j)) ==>
      EmbeddingLength(chunks, p) == EmbeddingLength(chunks, q)
  }

  /** One more comparable pair keeps the pairs valid and adds its record at the end. */
  lemma {:induction false} ExtendRecords(chunks: seq<TextChunk>, ps: seq<Pair>, i: nat, j: nat, sqrt: real -> real)
    requires ValidPairs(chunks, ps) && i < |chunks| && j < |chunks| && Comparable(chunks, i, j)
    ensures ValidPairs(chunks, ps + [(i, j)])
    ensures RecordsOf(chunks, ps + [(i, j)], sqrt) ==
            RecordsOf(chunks, ps, sqrt) + [PairRecord(chunks[i], chunks[j], sqrt)]
  {
    assert (ps + [(i, j)])[..|ps|] == ps;
  }

  /** The pairs of row `i` handled before column `j`, after all earlier rows. */
  function Done(n: nat, i: nat, j: nat): seq<Pair>
    requires i < j <= n
  {
    PairsUpTo(n, i) + Row(n, i)[..j - i - 1]
  }

  /** Handling `(i, j)` extends `Done(n, i, j)` by that pair. */
  lemma {:induction false} DoneStep(n: nat, i: nat, j: nat)
    requires i < j < n
    ensures Done(n, i, j + 1) == Done(n, i, j) + [(i, j)]
  {
    assert Row(n, i)[..j - i] == Row(n, i)[..j - i - 1] + [(i, j)];
  }

  /** Row `i` starts after the earlier rows. */
  lemma {:induction false} DoneStart(n: nat, i: nat)
    requires i < n
    ensures Done(n, i, i + 1) == PairsUpTo(n, i)
  {
  }

  /** A finished row is the start of the next one. */
  lemma {:induction false} DoneRow(n: nat, i: nat)
    requires i < n
    ensures Done(n, i, n) == PairsUpTo(n, i + 1)
  {
    assert Row(n, i)[..n - i - 1] == Row(n, i);
  }

  /** Comparable pairs so far, plus one more comparable pair. */
  lemma {:induction false} ComparableStep(chunks: seq<TextChunk>, i: nat, j: nat)
    requires i < j < |chunks| && ComparableBefore(chunks, i, j) && Comparable(chunks, i, j)
    ensures ComparableBefore(chunks, i, j + 1)
  {
  }

  /** One comparable pair handled: the loop's facts hold for the next column, and the pair's
      record is added at the end. */
  lemma {:induction false} PairStep(chunks: seq<TextChunk>, i: nat, j: nat, sqrt: real -> real)
    requires i < j < |chunks| && Comparable(chunks, i, j)
    requires ComparableBefore(chunks, i, j) && ValidPairs(chunks, Done(|chunks|, i, j))
    ensures ComparableBefore(chunks, i, j + 1) && ValidPairs(chunks, Done(|chunks|, i, j + 1))
    ensures RecordsOf(chunks, Done(|chunks|, i, j + 1), sqrt) ==
            RecordsOf(chunks, Done(|chunks|, i, j), sqrt) + [PairRecord(chunks[i], chunks[j], sqrt)]
  {
    DoneStep(|chunks|, i, j);
    ExtendRecords(chunks, Done(|chunks|, i, j), i, j, sqrt);
    ComparableStep(chunks, i, j);
  }

  /** What the outer loop knows before row `i`: every pair of the earlier rows is
      comparable and `similarities` holds their records, in order. */
  predicate RowsDone(chunks: seq<TextChunk>, i: nat, similarities: seq<ChunkSimilarity>, sqrt: real -> real)
  {
    ComparableBefore(chunks, i, 0) && ValidPairs(chunks, PairsUpTo(|chunks|, i)) &&
    similarities == RecordsOf(chunks, PairsUpTo(|chunks|, i), sqrt)
  }

  /** What the inner loop knows before column `j` of row `i`: the same, up to `(i, j)`. */
  predicate RowDone(chunks: seq<TextChunk>, i: nat, j: nat, similarities: seq<ChunkSimilarity>,
                    sqrt: real -> real)
    requires i < j <= |chunks|
  {
    ComparableBefore(chunks, i, j) && ValidPairs(chunks, Done(|chunks|, i, j)) &&
    similarities == RecordsOf(chunks, Done(|chunks|, i, j), sqrt)
  }

  /** `(i, j)` is the first pair, in row-major order, whose embeddings differ in length, and
      `e` names its two chunk ids and lengths. */
  predicate FirstMismatch(chunks: seq<TextChunk>, i: nat, j: nat, e: PairError)
  {
    i < j < |chunks| && ComparableBefore(chunks, i, j) && !Comparable(chunks, i, j) &&
    e == DistanceFailed(chunks[i].id, chunks[j].id,
                        LengthMismatch(|chunks[i].embedding|, |chunks[j].embedding|))
  }

  /** Row `i` starts where the earlier rows ended. */
  lemma {:induction false} RowStart(chunks: seq<TextChunk>, i: nat, similarities: seq<ChunkSimilarity>,
                                    sqrt: real -> real)
    requires i < |chunks| && RowsDone(chunks, i, similarities, sqrt)
    ensures RowDone(chunks, i, i + 1, similarities, sqrt)
  {
    DoneStart(|chunks|, i);
  }

  /** A finished row `i` is the start of row `i + 1`. */
  lemma {:induction false} RowEnd(chunks: seq<TextChunk>, i: nat, similarities: seq<ChunkSimilarity>,
                                  sqrt: real -> real)
    requires i < |chunks| && RowDone(chunks, i, |chunks|, similarities, sqrt)
    ensures RowsDone(chunks, i + 1, similarities, sqrt)
  {
    DoneRow(|chunks|, i);
  }

  /** An incomparable pair `(i, j)` means not every pair is comparable. */
  lemma {:induction false} NotAllComparable(chunks: seq<TextChunk>, i: nat, j: nat)
    requires i < j < |chunks| && !Comparable(chunks, i, j)
    ensures !ComparableBefore(chunks, |chunks|, 0)
  {
  }

  /** The inner loop of `CalculateAllSimilarities` for row `i`: appends the records of
      `(i, i + 1), ..., (i, n - 1)` to those of the earlier rows, or stops with the error of
      the first pair of the row whose embeddings differ in length. */
  method RowSimilarities(chunks: seq<TextChunk>, i: nat, earlier: seq<ChunkSimilarity>, sqrt: real -> real)
    returns (r: Result<seq<ChunkSimilarity>, PairError>)
    requires i < |chunks| && RowsDone(chunks, i, earlier, sqrt)
    ensures r.Success? ==> RowsDone(chunks, i + 1, r.value, sqrt)
    ensures r.Failure? ==> exists j :: FirstMismatch(chunks, i, j, r.error)
  {
    var similarities := earlier;
    var j := i + 1;
    RowStart(chunks, i, similarities, sqrt);
    while j < |chunks|
      invariant i + 1 <= j <= |chunks|
      invariant RowDone(chunks, i, j, similarities, sqrt)
    {
      var step := ExtendRow(chunks, i, j, similarities, sqrt);
      if step.Failure? {
        return Failure(step.error);
      }
      similarities := step.value;
      j := j + 1;
    }
    RowEnd(chunks, i, similarities, sqrt);
    r := Success(similarities);
  }

  /** One pass of the inner loop: the record of `(i, j)` appended after those already
      built, or the length mismatch of that pair. */
  method ExtendRow(chunks: seq<TextChunk>, i: nat, j: nat, similarities: seq<ChunkSimilarity>,
                   sqrt: real -> real)
    returns (r: Result<seq<ChunkSimilarity>, PairError>)
    requires i < j < |chunks| && RowDone(chunks, i, j, similarities, sqrt)
    ensures r.Failure? ==> FirstMismatch(chunks, i, j, r.error)
    ensures r.Success? ==> RowDone(chunks, i, j + 1, r.value, sqrt)
  {
    var similarity := PairSimilarity(chunks[i], chunks[j], sqrt);
    if similarity.Failure? {
      return Failure(similarity.error);
    }
    PairStep(chunks, i, j, sqrt);
    r := Success(similarities + [similarity.value]);
  }

  /** The body of the inner loop for chunks `c1` and `c2`: their distance, then their
      cosine; a length mismatch is reported with both chunk ids. */
  method PairSimilarity(c1: TextChunk, c2: TextChunk, sqrt: real -> real)
    returns (r: Result<ChunkSimilarity, PairError>)
    ensures |c1.embedding| != |c2.embedding| ==>
      r == Failure(DistanceFailed(c1.id, c2.id, LengthMismatch(|c1.embedding|, |c2.embedding|)))
    ensures |c1.embedding| == |c2.embedding| ==> r == Success(PairRecord(c1, c2, sqrt))
  {
    var distance := EuclideanDistance(c1.embedding, c2.embedding, sqrt);
    if distance.Failure? {
      return Failure(DistanceFailed(c1.id, c2.id, distance.error));
    }
    var cosineSim := CosineSimilarity(c1.embedding, c2.embedding, sqrt);
    if cosineSim.Failure? {
      // the lengths were compared by the distance just above
      assert false;
    }
    r := Success(ChunkSimilarity(0, c1.id, c2.id, distance.value, cosineSim.value));
  }

  /** `CalculateAllSimilarities`: one record per pair `i < j`, row by row. It fails closed: at
      the first pair (row-major) whose embeddings differ in length it returns only an error,
      naming that pair's chunk ids. */
  method CalculateAllSimilarities(chunks: seq<TextChunk>, sqrt: real -> real)
    returns (r: Result<seq<ChunkSimilarity>, PairError>)
    ensures r.Success? <==> ComparableBefore(chunks, |chunks|, 0)
    ensures r.Success? ==> ValidPairs(chunks, AllPairs(|chunks|))
    ensures r.Success? ==> r.value == RecordsOf(chunks, AllPairs(|chunks|), sqrt)
    ensures r.Failure? ==> exists i, j :: FirstMismatch(chunks, i, j, r.error)
  {
    var n := |chunks|;
    var similarities: seq<ChunkSimilarity> := [];
    var i := 0;
    while i < n
      invariant 0 <= i <= n
      invariant RowsDone(chunks, i, similarities, sqrt)
    {
      var row := RowSimilarities(chunks, i, similarities, sqrt);
      if row.Failure? {
        return row;
      }
      similarities := row.value;
      i := i + 1;
    }
    r := Success(similarities);
  }

  /** Over `n` chunks whose embeddings all have one length the table has `n(n-1)/2` records,
      none when `n <= 1`; record `k` pairs the ids of the `k`-th pair `i < j` in row-major
      order. */
  lemma {:induction false} AllSimilaritiesShape(chunks: seq<TextChunk>, sqrt: real -> real, k: nat)
    requires ComparableBefore(chunks, |chunks|, 0)
    ensures ValidPairs(chunks, AllPairs(|chunks|))
    ensures 2 * |RecordsOf(chunks, AllPairs(|chunks|), sqrt)| == |chunks| * (|chunks| - 1)
    ensures k < |AllPairs(|chunks|)| ==>
      var p := AllPairs(|chunks|)[k];
      p.0 < p.1 < |chunks| &&
      RecordsOf(chunks, AllPairs(|chunks|), sqrt)[k].chunkId1 == chunks[p.0].id &&
      RecordsOf(chunks, AllPairs(|chunks|), sqrt)[k].chunkId2 == chunks[p.1].id
  {
    var n := |chunks|;
    AllPairsEnumeration(n);
    AllPairsCount(n);
    if k < |AllPairs(n)| {
      RecordsOfAt(chunks, AllPairs(n), sqrt, k);
    }
  }
}
