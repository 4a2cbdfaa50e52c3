/**
 * The visualizer's database package (embed-visualizer/pkg/database/sqlite.go): the file
 * naming of `NewDB`, its own square root and cosine, and the all-pairs table that
 * `CalculateSimilarities` hands to the batch insert.
 *
 * The SQL itself (opening, table setup, reading the chunks, the insert transaction) is
 * outside the model: each of those steps is an outcome given as a parameter.
 */
module Store {
  import opened Wrappers
  import opened Records
  import opened Vectors
  import opened Pairs
  import opened Paths

  /** The number of Newton steps `sqrt` takes. */
  function NewtonSteps(): nat
  {
    10
  }

  /** One Newton step towards the square root of `x`, as the loop body writes it. */
  function NewtonStep(x: real, z: real): real
    requires z != 0.0
  {
    z - (z * z - x) / (2.0 * z)
  }

  /** From a positive guess, a step is the mean of `z` and `x / z`, so it stays positive and
      its square is at least `x`; from a guess whose square is at least `x` it does not
      grow. */
  lemma {:induction false} StepProperties(x: real, z: real)
    requires x > 0.0 && z > 0.0
    ensures NewtonStep(x, z) == (z + x / z) / 2.0
    ensures NewtonStep(x, z) > 0.0
    ensures NewtonStep(x, z) * NewtonStep(x, z) >= x
    ensures z * z >= x ==> NewtonStep(x, z) <= z
  {
    var w := x / z;
    assert w * z == x;
    assert w > 0.0;
    assert (z * z - x) / (2.0 * z) == (z - w) / 2.0 by {
      assert ((z - w) / 2.0) * (2.0 * z) == z * z - x;
    }
    var y := (z + w) / 2.0;
    assert y * y - x == ((z - w) / 2.0) * ((z - w) / 2.0) by {
      assert y * y == (z * z + 2.0 * (z * w) + w * w) / 4.0;
      assert ((z - w) / 2.0) * ((z - w) / 2.0) == (z * z - 2.0 * (z * w) + w * w) / 4.0;
    }
    Square((z - w) / 2.0);
    if z * z >= x {
      assert z * w <= z * z;
      assert w <= z;
    }
  }

  /** `k` Newton steps from `z`. */
  function Newton(x: real, z: real, k: nat): (r: real)
    requires x > 0.0 && z > 0.0
    ensures r > 0.0
    decreases k
  {
    if k == 0 then z
    else
      StepProperties(x, z);
      Newton(x, NewtonStep(x, z), k - 1)
  }

  /** `r` is not below the square root of `x`. */
  predicate NotBelowRoot(x: real, r: real)
  {
    r * r >= x
  }

  /** After at least one step the guess is never below the root. */
  lemma {:induction false} NewtonAbove(x: real, z: real, k: nat)
    requires x > 0.0 && z > 0.0 && k > 0
    ensures NotBelowRoot(x, Newton(x, z, k))
    decreases k
  {
    StepProperties(x, z);
    if k > 1 {
      NewtonAbove(x, NewtonStep(x, z), k - 1);
    }
  }

  /** From a guess not below the root, the steps never grow. */
  lemma {:induction false} NewtonNotGrowing(x: real, z: real, k: nat)
    requires x > 0.0 && z > 0.0 && z * z >= x
    ensures Newton(x, z, k) <= z
    decreases k
  {
    if k > 0 {
      StepProperties(x, z);
      NewtonNotGrowing(x, NewtonStep(x, z), k - 1);
    }
  }

  /** The visualizer's `sqrt`: 0 for 0, otherwise ten Newton steps from `x` itself. */
  function Root(x: real): (r: real)
    requires x >= 0.0
    ensures x == 0.0 <==> r == 0.0
    ensures r >= 0.0
  {
    if x == 0.0 then 0.0 else Newton(x, x, NewtonSteps())
  }

  /** For a positive input the square of the result is at least the input: the approximation
      never undershoots. */
  lemma {:induction false} RootAbove(x: real)
    requires x > 0.0
    ensures NotBelowRoot(x, Root(x))
  {
    NewtonAbove(x, x, NewtonSteps());
  }

  /** From `x >= 1` on, the result lies between 1 and `x`. */
  lemma {:induction false} RootBounds(x: real)
    requires x >= 1.0
    ensures x >= Root(x) >= 1.0
  {
    assert x * x >= x * 1.0;
    NewtonNotGrowing(x, x, NewtonSteps());
    RootAbove(x);
  }

  /** `sqrt` (defined for the sums of squares it is given, which are never negative). */
  method Sqrt(x: real) returns (z: real)
    requires x >= 0.0
    ensures z == Root(x)
  {
    if x == 0.0 {
      return 0.0;
    }
    z := x;
    var i := 0;
    while i < NewtonSteps()
      invariant 0 <= i <= NewtonSteps()
      invariant z > 0.0
      invariant Newton(x, z, NewtonSteps() - i) == Root(x)
    {
      StepProperties(x, z);
      z := z - (z * z - x) / (2.0 * z);
      i := i + 1;
    }
  }

  /** The visualizer's cosine: 0 for vectors of different lengths or when either sum of
      squares is 0, otherwise the dot product over the product of the two roots. */
  function CosineOrZero(a: seq<real>, b: seq<real>): (r: real)
  {
    if |a| != |b| then 0.0
    else
      SquaredNorm(a);
      SquaredNorm(b);
      var normA, normB := Dot(a, a), Dot(b, b);
      if normA == 0.0 || normB == 0.0 then 0.0
      else
        var denominator := Root(normA) * Root(normB);
        assert denominator > 0.0;
        Dot(a, b) / denominator
  }

  /** The accumulating loop of `cosineSimilarity`: dot product and both sums of squares. */
  method Sums(a: seq<real>, b: seq<real>) returns (dotProduct: real, normA: real, normB: real)
    requires |a| == |b|
    ensures dotProduct == Dot(a, b) && normA == Dot(a, a) && normB == Dot(b, b)
  {
    dotProduct, normA, normB := 0.0, 0.0, 0.0;
    var i := 0;
    while i < |a|
      invariant 0 <= i <= |a|
      invariant dotProduct == Dot(a[..i], b[..i])
      invariant normA == Dot(a[..i], a[..i])
      invariant normB == Dot(b[..i], b[..i])
    {
      assert a[..i + 1][..i] == a[..i] && b[..i + 1][..i] == b[..i];
      dotProduct := dotProduct + a[i] * b[i];
      normA := normA + a[i] * a[i];
      normB := normB + b[i] * b[i];
      i := i + 1;
    }
    assert a[..i] == a && b[..i] == b;
  }

  /** `cosineSimilarity`: a length mismatch gives 0 rather than an error. */
  method CosineSimilarity(a: seq<real>, b: seq<real>) returns (r: real)
    ensures r == CosineOrZero(a, b)
  {
    if |a| != |b| {
      return 0.0;
    }
    var dotProduct, normA, normB := Sums(a, b);
    if normA == 0.0 || normB == 0.0 {
      return 0.0;
    }
    SquaredNorm(a);
    SquaredNorm(b);
    var rootA := Sqrt(normA);
    var rootB := Sqrt(normB);
    var denominator := rootA * rootB;
    assert denominator > 0.0;
    r := dotProduct / denominator;
  }

  /** The guards: different lengths, or an all-zero vector on either side, give 0. */
  lemma {:induction false} CosineOrZeroGuards(a: seq<real>, b: seq<real>)
    ensures |a| != |b| ==> CosineOrZero(a, b) == 0.0
    ensures (forall k :: 0 <= k < |a| ==> a[k] == 0.0) ==> CosineOrZero(a, b) == 0.0
    ensures (forall k :: 0 <= k < |b| ==> b[k] == 0.0) ==> CosineOrZero(a, b) == 0.0
  {
    SquaredNorm(a);
    SquaredNorm(b);
  }

  /** The cosine is symmetric. */
  lemma {:induction false} CosineOrZeroSymmetric(a: seq<real>, b: seq<real>)
    ensures CosineOrZero(a, b) == CosineOrZero(b, a)
  {
    if |a| == |b| {
      DotSymmetric(a, b);
      SquaredNorm(a);
      SquaredNorm(b);
      if Dot(a, a) != 0.0 && Dot(b, b) != 0.0 {
        assert Root(Dot(a, a)) * Root(Dot(b, b)) == Root(Dot(b, b)) * Root(Dot(a, a));
      }
    }
  }

  /** The cosine has the sign of the dot product (or is 0 by a guard). */
  lemma {:induction false} CosineOrZeroSign(a: seq<real>, b: seq<real>)
    requires |a| == |b| && Dot(a, a) != 0.0 && Dot(b, b) != 0.0
    ensures CosineOrZero(a, b) >= 0.0 <==> Dot(a, b) >= 0.0
  {
    SquaredNorm(a);
    SquaredNorm(b);
    var denominator := Root(Dot(a, a)) * Root(Dot(b, b));
    assert denominator > 0.0;
    assert CosineOrZero(a, b) == Dot(a, b) / denominator;
    QuotientSign(Dot(a, b), denominator);
  }

  /** Dividing by a positive number keeps the sign. */
  lemma {:induction false} QuotientSign(d: real, p: real)
    requires p > 0.0
    ensures d / p >= 0.0 <==> d >= 0.0
  {
    var q := d / p;
    assert q * p == d;
    if q < 0.0 {
      assert q * p < 0.0;
    } else {
      assert q * p >= 0.0;
    }
  }

  /** The record `CalculateSimilarities` builds for one pair: the two ids, distance
      `1 - similarity`, and the similarity (its own id unset). */
  function PairRecord(c1: TextChunk, c2: TextChunk): ChunkSimilarity
  {
    var similarity := CosineOrZero(c1.embedding, c2.embedding);
    ChunkSimilarity(0, c1.id, c2.id, 1.0 - similarity, similarity)
  }

  /** All pairs in `ps` point into `chunks`. */
  predicate InRange(chunks: seq<TextChunk>, ps: seq<Pair>)
  {
    forall k :: 0 <= k < |ps| ==> ps[k].0 < |chunks| && ps[k].1 < |chunks|
  }

  /** The records of the pairs `ps`, in order. */
  function RecordsOf(chunks: seq<TextChunk>, ps: seq<Pair>): (r: seq<ChunkSimilarity>)
    requires InRange(chunks, ps)
    ensures |r| == |ps|
  {
    if ps == [] then []
    else
      var p := ps[|ps| - 1];
      RecordsOf(chunks, ps[..|ps| - 1]) + [PairRecord(chunks[p.0], chunks[p.1])]
  }

  /** Record `k` is the record of pair `k`. */
  lemma {:induction false} RecordsOfAt(chunks: seq<TextChunk>, ps: seq<Pair>, k: nat)
    requires InRange(chunks, ps) && k < |ps|
    ensures RecordsOf(chunks, ps)[k] == PairRecord(chunks[ps[k].0], chunks[ps[k].1])
  {
    if k < |ps| - 1 {
      RecordsOfAt(chunks, ps[..|ps| - 1], k);
    }
  }

  /** One more pair adds its record at the end. */
  lemma {:induction false} ExtendRecords(chunks: seq<TextChunk>, ps: seq<Pair>, i: nat, j: nat)
    requires InRange(chunks, ps) && i < |chunks| && j < |chunks|
    ensures InRange(chunks, ps + [(i, j)])
    ensures RecordsOf(chunks, ps + [(i, j)]) == RecordsOf(chunks, ps) + [PairRecord(chunks[i], chunks[j])]
  {
    assert (ps + [(i, j)])[..|ps|] == ps;
  }

  /** The pairs of row `i` handled before column `j`, after all earlier rows. */
  function Done(n: nat, i: nat, j: nat): seq<Pair>
    requires i < j <= n
  {
    PairsUpTo(n, i) + Row(n, i)[..j - i - 1]
  }

  lemma {:induction false} DoneStart(n: nat, i: nat)
    requires i < n
    ensures Done(n, i, i + 1) == PairsUpTo(n, i)
  {
  }

  lemma {:induction false} DoneStep(n: nat, i: nat, j: nat)
    requires i < j < n
    ensures Done(n, i, j + 1) == Done(n, i, j) + [(i, j)]
  {
    assert Row(n, i)[..j - i] == Row(n, i)[..j - i - 1] + [(i, j)];
  }

  lemma {:induction false} DoneRow(n: nat, i: nat)
    requires i < n
    ensures Done(n, i, n) == PairsUpTo(n, i + 1)
  {
    assert Row(n, i)[..n - i - 1] == Row(n, i);
  }

  /** Every enumerated pair points into the chunks. */
  lemma {:induction false} PairsInRange(chunks: seq<TextChunk>, i: nat)
    ensures InRange(chunks, PairsUpTo(|chunks|, i))
  {
    PairsUpToInRange(|chunks|, i);
  }

  /** The loop of `CalculateSimilarities`: one record per pair `i < j` of the chunks in the
      order they were read, row by row. */
  method BuildSimilarities(chunks: seq<TextChunk>) returns (similarities: seq<ChunkSimilarity>)
    ensures InRange(chunks, AllPairs(|chunks|))
    ensures similarities == RecordsOf(chunks, AllPairs(|chunks|))
  {
    var n := |chunks|;
    similarities := [];
    var i := 0;
    PairsInRange(chunks, 0);
    while i < n
      invariant 0 <= i <= n
      invariant InRange(chunks, PairsUpTo(n, i))
      invariant similarities == RecordsOf(chunks, PairsUpTo(n, i))
    {
      similarities := BuildRow(chunks, i, similarities);
      i := i + 1;
    }
  }

  /** The inner loop of `CalculateSimilarities`: the records of row `i`, pairs `(i, j)` for
      `j` from `i + 1` up, appended after the earlier rows. */
  method BuildRow(chunks: seq<TextChunk>, i: nat, earlier: seq<ChunkSimilarity>)
    returns (similarities: seq<ChunkSimilarity>)
    requires i < |chunks| && InRange(chunks, PairsUpTo(|chunks|, i))
    requires earlier == RecordsOf(chunks, PairsUpTo(|chunks|, i))
    ensures InRange(chunks, PairsUpTo(|chunks|, i + 1))
    ensures similarities == RecordsOf(chunks, PairsUpTo(|chunks|, i + 1))
  {
    var n := |chunks|;
    similarities := earlier;
    var j := i + 1;
    DoneStart(n, i);
    while j < n
      invariant i + 1 <= j <= n
      invariant InRange(chunks, Done(n, i, j))
      invariant similarities == RecordsOf(chunks, Done(n, i, j))
    {
      var record := RecordOf(chunks[i], chunks[j]);
      DoneStep(n, i, j);
      ExtendRecords(chunks, Done(n, i, j), i, j);
      similarities := similarities + [record];
      j := j + 1;
    }
    DoneRow(n, i);
  }

  /** The body of the inner loop: the cosine of the two embeddings and the record holding it
      with distance `1 - similarity`. */
  method RecordOf(c1: TextChunk, c2: TextChunk) returns (record: ChunkSimilarity)
    ensures record == PairRecord(c1, c2)
    ensures record.chunkId1 == c1.id && record.chunkId2 == c2.id
    ensures record.distance == 1.0 - record.similarity
  {
    var similarity := CosineSimilarity(c1.embedding, c2.embedding);
    var distance := 1.0 - similarity;
    record := ChunkSimilarity(0, c1.id, c2.id, distance, similarity);
  }

  /** The table over `n` chunks has `n(n-1)/2` records, none when `n <= 1`; record `k` pairs
      the ids of the `k`-th pair `i < j` in row-major order, and its distance is
      `1 - similarity`. */
  lemma {:induction false} SimilaritiesShape(chunks: seq<TextChunk>, k: nat)
    ensures InRange(chunks, AllPairs(|chunks|))
    ensures 2 * |RecordsOf(chunks, AllPairs(|chunks|))| == |chunks| * (|chunks| - 1)
    ensures k < |AllPairs(|chunks|)| ==>
      var p, rec := AllPairs(|chunks|)[k], RecordsOf(chunks, AllPairs(|chunks|))[k];
      p.0 < p.1 < |chunks| &&
      rec.chunkId1 == chunks[p.0].id && rec.chunkId2 == chunks[p.1].id &&
      rec.distance == 1.0 - rec.similarity
  {
    var n := |chunks|;
    PairsInRange(chunks, n);
    AllPairsEnumeration(n);
    AllPairsCount(n);
    if k < |AllPairs(n)| {
      RecordsOfAt(chunks, AllPairs(n), k);
    }
  }

  /** The records depend only on the chunks' ids and embeddings. */
  lemma {:induction false} RecordsIgnoreText(c1: seq<TextChunk>, c2: seq<TextChunk>, ps: seq<Pair>)
    requires |c1| == |c2|
    requires forall k :: 0 <= k < |c1| ==> c1[k].id == c2[k].id && c1[k].embedding == c2[k].embedding
    requires InRange(c1, ps)
    ensures InRange(c2, ps)
    ensures RecordsOf(c1, ps) == RecordsOf(c2, ps)
  {
    if ps != [] {
      RecordsIgnoreText(c1, c2, ps[..|ps| - 1]);
    }
  }

  /** `CalculateSimilarities`: the chunks come from the database (`read`); if reading fails
      nothing is inserted and the error is wrapped; otherwise the whole table goes to the
      batch insert, whose outcome (`inserted`) is the result. `batch` is what was handed to
      the insert. */
  method CalculateSimilarities(read: Result<seq<TextChunk>, string>, inserted: Outcome<string>)
    returns (r: Outcome<string>, batch: Option<seq<ChunkSimilarity>>)
    ensures read.Failure? ==> batch == None && r == Fail("failed to get chunks: " + read.error)
    ensures read.Success? ==> r == inserted
    ensures read.Success? ==>
      InRange(read.value, AllPairs(|read.value|)) &&
      batch == Some(RecordsOf(read.value, AllPairs(|read.value|)))
  {
    if read.Failure? {
      return Fail("failed to get chunks: " + read.error), None;
    }
    var similarities := BuildSimilarities(read.value);
    return inserted, Some(similarities);
  }

  /** An open database and the file it lives in. */
  datatype DB = DB(path: string)

  /** `NewDB`: create the output directory, name the file, open it, set up the tables; each
      step's failure ends the call with its own wrapped error. */
  function NewDB(inputFile: string, outputDir: string,
                 mkdir: Outcome<string>, open: Outcome<string>, setup: Outcome<string>)
    : (r: Result<DB, string>)
    ensures r.Success? <==> mkdir.Pass? && open.Pass? && setup.Pass?
    ensures r.Success? ==> r.value.path == DatabasePath(inputFile, outputDir)
    ensures r.Success? ==> Base(r.value.path) == TrimLeadingSlashes(DatabaseName(inputFile))
    ensures mkdir.Fail? ==> r == Failure("failed to create output directory: " + mkdir.error)
    ensures mkdir.Pass? && open.Fail? ==> r == Failure("failed to open database: " + open.error)
    ensures mkdir.Pass? && open.Pass? && setup.Fail? ==>
      r == Failure("failed to setup database tables: " + setup.error)
  {
    DatabasePathBase(inputFile, outputDir);
    if mkdir.Fail? then Failure("failed to create output directory: " + mkdir.error)
    else if open.Fail? then Failure("failed to open database: " + open.error)
    else if setup.Fail? then Failure("failed to setup database tables: " + setup.error)
    else Success(DB(DatabasePath(inputFile, outputDir)))
  }
}
