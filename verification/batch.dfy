/**
 * The fan-in half of `GetEmbeddingsConcurrent` and `GetSummariesConcurrent`
 * (pkg/embedding/ollama.go), made sequential.
 *
 * Each job `i` is handled by a worker (`worker` / `summaryWorker`); the reply the service
 * gives for chunk `i` is an oracle value `replies[i]`. The workers' results reach the
 * collecting loop in some order that the scheduler chooses: `arrival` is that order, a
 * permutation of the job indices, and every property below holds for all of them.
 */
module Batch {
  import opened Wrappers
  import opened Records
  import Summary

  /** `arrival` lists every job index below `n` exactly once. */
  predicate IsArrivalOrder(arrival: seq<nat>, n: nat)
  {
    |arrival| == n &&
    (forall k :: 0 <= k < n ==> arrival[k] < n) &&
    (forall j, k :: 0 <= j < k < n ==> arrival[j] != arrival[k])
  }

  function Values(s: seq<nat>): set<nat>
  {
    set x | x in s
  }

  /** The set of values of a sequence without repeats has one element per position. */
  lemma {:induction false} DistinctValuesCard(s: seq<nat>)
    requires forall j, k :: 0 <= j < k < |s| ==> s[j] != s[k]
    ensures |Values(s)| == |s|
  {
    if s != [] {
      var init, last := s[..|s| - 1], s[|s| - 1];
      DistinctValuesCard(init);
      assert s == init + [last];
      assert last !in Values(init);
      assert Values(s) == Values(init) + {last};
    }
  }

  /** The job indices `0, ..., n - 1`. */
  function Indices(n: nat): (r: seq<nat>)
    ensures |r| == n
    ensures forall i :: 0 <= i < n ==> r[i] == i
  {
    seq(n, i requires 0 <= i < n => i)
  }

  /** However the results arrive, every job's result arrives. */
  lemma {:induction false} ArrivalCoversAll(arrival: seq<nat>, n: nat, i: nat)
    requires IsArrivalOrder(arrival, n) && i < n
    ensures i in arrival
  {
    var seen := Values(arrival);
    var all := Values(Indices(n));
    DistinctValuesCard(arrival);
    DistinctValuesCard(Indices(n));
    forall x | x in seen ensures x in all {
      var k :| 0 <= k < n && arrival[k] == x;
      assert Indices(n)[x] == x;
    }
    assert |all - seen| == 0;
    assert Indices(n)[i] == i;
    assert i in all;
  }

  /** A failed job, as listed in the combined error. */
  datatype ChunkError = ChunkError(index: nat, cause: string)

  datatype Stage = Embedding | Summarization

  /** The error the collector returns when any job failed: every failure, in arrival order. */
  datatype BatchError = BatchError(stage: Stage, failures: seq<ChunkError>)

  /** The progress calls for `count` results out of `total`: `(1, total)` to `(count, total)`. */
  function ProgressReports(count: nat, total: nat): (r: seq<(nat, nat)>)
    ensures |r| == count
    ensures forall k :: 0 <= k < count ==> r[k] == (k + 1, total)
  {
    if count == 0 then [] else ProgressReports(count - 1, total) + [(count, total)]
  }

  /** The failures among the results that arrived in `order`, in that order. */
  function FailuresIn(order: seq<nat>, outcomes: seq<Result<TextChunk, string>>): seq<ChunkError>
    requires forall k :: 0 <= k < |order| ==> order[k] < |outcomes|
  {
    if order == [] then []
    else
      var last := order[|order| - 1];
      FailuresIn(order[..|order| - 1], outcomes) +
        (if outcomes[last].Failure? then [ChunkError(last, outcomes[last].error)] else [])
  }

  /** The combined error lists job `i` exactly when `i` arrived and failed, with its cause. */
  lemma {:induction false} FailuresInIff(order: seq<nat>, outcomes: seq<Result<TextChunk, string>>,
                                         i: nat)
    requires forall k :: 0 <= k < |order| ==> order[k] < |outcomes|
    ensures (exists e :: e in FailuresIn(order, outcomes) && e.index == i) <==>
            i in order && i < |outcomes| && outcomes[i].Failure?
    ensures forall e :: e in FailuresIn(order, outcomes) ==>
            e.index < |outcomes| && outcomes[e.index] == Failure(e.cause)
  {
    if order != [] {
      var init := order[..|order| - 1];
      FailuresInIff(init, outcomes, i);
      assert order == init + [order[|order| - 1]];
    }
  }

  /** What output slot `i` holds once the results in `arrived` were collected: the chunk of a
      successful job that arrived, the zero chunk otherwise. */
  function Slot(outcomes: seq<Result<TextChunk, string>>, arrived: seq<nat>, i: nat): TextChunk
    requires i < |outcomes|
  {
    if i in arrived && outcomes[i].Success? then outcomes[i].value else ZeroChunk
  }

  /** One more arrival changes only its own slot. */
  lemma {:induction false} SlotStep(outcomes: seq<Result<TextChunk, string>>, arrived: seq<nat>,
                                    index: nat, i: nat)
    requires index < |outcomes| && i < |outcomes| && i != index
    ensures Slot(outcomes, arrived + [index], i) == Slot(outcomes, arrived, i)
  {
    assert i in arrived + [index] <==> i in arrived;
  }

  /** The slot of the job that just arrived. */
  lemma {:induction false} SlotArrived(outcomes: seq<Result<TextChunk, string>>, arrived: seq<nat>,
                                       index: nat)
    requires index < |outcomes| && outcomes[index].Success?
    ensures Slot(outcomes, arrived + [index], index) == outcomes[index].value
  {
    assert index in arrived + [index];
  }

  /** A non-empty error list means some job failed. */
  lemma {:induction false} SomeFailure(arrival: seq<nat>, outcomes: seq<Result<TextChunk, string>>)
    requires forall k :: 0 <= k < |arrival| ==> arrival[k] < |outcomes|
    requires FailuresIn(arrival, outcomes) != []
    ensures exists i :: 0 <= i < |outcomes| && outcomes[i].Failure?
  {
    var e := FailuresIn(arrival, outcomes)[0];
    FailuresInIff(arrival, outcomes, e.index);
    assert e in FailuresIn(arrival, outcomes);
  }

  /** With no failure among all arrivals, every slot holds its job's chunk. */
  lemma {:induction false} NoFailure(arrival: seq<nat>, outcomes: seq<Result<TextChunk, string>>, i: nat)
    requires IsArrivalOrder(arrival, |outcomes|) && i < |outcomes|
    requires FailuresIn(arrival, outcomes) == []
    ensures outcomes[i].Success? && Slot(outcomes, arrival, i) == outcomes[i].value
  {
    ArrivalCoversAll(arrival, |outcomes|, i);
    FailuresInIff(arrival, outcomes, i);
  }

  /** The collecting loop shared by both batch calls: one result per job, in `arrival`
      order; a success is stored at its job's index of the pre-sized output, a failure is
      added to the error list, and the progress callback sees each count. */
  method Gather(outcomes: seq<Result<TextChunk, string>>, arrival: seq<nat>, hasCallback: bool)
    returns (slots: seq<TextChunk>, errors: seq<ChunkError>, progress: seq<(nat, nat)>)
    requires IsArrivalOrder(arrival, |outcomes|)
    ensures progress == if hasCallback then ProgressReports(|outcomes|, |outcomes|) else []
    ensures errors == FailuresIn(arrival, outcomes)
    ensures |slots| == |outcomes|
    ensures forall i :: 0 <= i < |outcomes| ==> slots[i] == Slot(outcomes, arrival, i)
  {
    var total := |outcomes|;
    var processed := new TextChunk[total](_ => ZeroChunk);
    errors := [];
    var completed := 0;
    progress := [];
    while completed < total
      invariant 0 <= completed <= total
      invariant progress == if hasCallback then ProgressReports(completed, total) else []
      invariant errors == FailuresIn(arrival[..completed], outcomes)
      invariant forall i :: 0 <= i < total ==> processed[i] == Slot(outcomes, arrival[..completed], i)
    {
      var index := arrival[completed];
      var result := outcomes[index];
      ghost var before := arrival[..completed];
      assert arrival[..completed + 1] == before + [index];
      completed := completed + 1;
      if hasCallback {
        progress := progress + [(completed, total)];
      }
      if result.Failure? {
        errors := errors + [ChunkError(index, result.error)];
      } else {
        processed[index] := result.value;
        SlotArrived(outcomes, before, index);
      }
      forall i | 0 <= i < total && i != index
        ensures Slot(outcomes, before + [index], i) == Slot(outcomes, before, i)
      {
        SlotStep(outcomes, before, index, i);
      }
    }
    assert arrival[..completed] == arrival;
    slots := processed[..];
  }

  /** With every job arrived, the error lists exactly the failed jobs, each with its cause. */
  lemma {:induction false} FailedJobs(arrival: seq<nat>, outcomes: seq<Result<TextChunk, string>>)
    requires IsArrivalOrder(arrival, |outcomes|)
    ensures forall i :: 0 <= i < |outcomes| ==>
      ((exists e :: e in FailuresIn(arrival, outcomes) && e.index == i) <==> outcomes[i].Failure?)
    ensures forall e :: e in FailuresIn(arrival, outcomes) ==>
      e.index < |outcomes| && outcomes[e.index] == Failure(e.cause)
  {
    forall i | 0 <= i < |outcomes|
      ensures (exists e :: e in FailuresIn(arrival, outcomes) && e.index == i) <==> outcomes[i].Failure?
    {
      FailuresInIff(arrival, outcomes, i);
      ArrivalCoversAll(arrival, |outcomes|, i);
    }
    FailuresInIff(arrival, outcomes, 0);
  }

  /** The end of the collection: the output is discarded if anything failed, and the error
      lists every failure in arrival order. */
  method Collect(stage: Stage, outcomes: seq<Result<TextChunk, string>>, arrival: seq<nat>,
                 hasCallback: bool)
    returns (r: Result<seq<TextChunk>, BatchError>, progress: seq<(nat, nat)>)
    requires IsArrivalOrder(arrival, |outcomes|)
    ensures progress == if hasCallback then ProgressReports(|outcomes|, |outcomes|) else []
    ensures r.Success? <==> forall i :: 0 <= i < |outcomes| ==> outcomes[i].Success?
    ensures r.Success? ==>
      |r.value| == |outcomes| &&
      forall i :: 0 <= i < |outcomes| ==> Success(r.value[i]) == outcomes[i]
    ensures r.Failure? ==> r.error == BatchError(stage, FailuresIn(arrival, outcomes))
  {
    var processed, errors;
    processed, errors, progress := Gather(outcomes, arrival, hasCallback);
    if |errors| > 0 {
      SomeFailure(arrival, outcomes);
      return Failure(BatchError(stage, errors)), progress;
    }
    forall i | 0 <= i < |outcomes| ensures outcomes[i].Success? && processed[i] == outcomes[i].value {
      NoFailure(arrival, outcomes, i);
    }
    r := Success(processed);
  }

  /** `worker`: the chunk with the service's embedding, or the request's error. */
  function EmbedOutcome(chunk: TextChunk, reply: Result<seq<real>, string>): (r: Result<TextChunk, string>)
    ensures r.Success? <==> reply.Success?
    ensures r.Failure? ==> reply == Failure(r.error)
    ensures r.Success? ==>
      r.value.embedding == reply.value &&
      r.value.id == chunk.id && r.value.text == chunk.text &&
      r.value.chunkIndex == chunk.chunkIndex && r.value.summary == chunk.summary
  {
    match reply
    case Failure(e) => Failure(e)
    case Success(embedding) => Success(chunk.(embedding := embedding))
  }

  /** `summaryWorker` on the model's reply `reply` to the summary request: the chunk with the
      summary `GetSummary` makes of that reply, or the request's error. */
  function SummaryOutcome(chunk: TextChunk, reply: Result<string, string>): (r: Result<TextChunk, string>)
    ensures r.Success? <==> reply.Success?
    ensures r.Failure? ==> reply == Failure(r.error)
    ensures r.Success? ==>
      r.value.summary == Summary.SummaryOf(reply.value) &&
      r.value.id == chunk.id && r.value.text == chunk.text &&
      r.value.chunkIndex == chunk.chunkIndex && r.value.embedding == chunk.embedding
  {
    match reply
    case Failure(e) => Failure(e)
    case Success(raw) => Success(chunk.(summary := Summary.SummaryOf(raw)))
  }

  /** `GetEmbeddingsConcurrent`: for any arrival order, the progress callback sees 1..n; with
      no failure, slot `i` is chunk `i` with only its embedding replaced; with any failure
      there is no output, and the error names exactly the failed jobs with their causes. */
  method GetEmbeddingsConcurrent(chunks: seq<TextChunk>, replies: seq<Result<seq<real>, string>>,
                                 arrival: seq<nat>, hasCallback: bool)
    returns (r: Result<seq<TextChunk>, BatchError>, progress: seq<(nat, nat)>)
    requires |replies| == |chunks| && IsArrivalOrder(arrival, |chunks|)
    ensures progress == if hasCallback then ProgressReports(|chunks|, |chunks|) else []
    ensures r.Success? <==> forall i :: 0 <= i < |chunks| ==> replies[i].Success?
    ensures r.Success? ==>
      |r.value| == |chunks| &&
      forall i :: 0 <= i < |chunks| ==> r.value[i] == chunks[i].(embedding := replies[i].value)
    ensures r.Failure? ==> r.error.stage == Embedding
    ensures r.Failure? ==> forall i :: 0 <= i < |chunks| ==>
      ((exists e :: e in r.error.failures && e.index == i) <==> replies[i].Failure?)
    ensures r.Failure? ==> forall e :: e in r.error.failures ==>
      e.index < |chunks| && replies[e.index] == Failure(e.cause)
  {
    var outcomes := seq(|chunks|, i requires 0 <= i < |chunks| => EmbedOutcome(chunks[i], replies[i]));
    assert forall i :: 0 <= i < |chunks| ==> (outcomes[i].Success? <==> replies[i].Success?);
    r, progress := Collect(Embedding, outcomes, arrival, hasCallback);
    if r.Failure? {
      FailedJobs(arrival, outcomes);
    }
  }

  /** `summaryWorker` on one job: ask `GetSummary` about the chunk, whose model reply is
      `reply`, and yield the chunk with that summary or the request's error. */
  method SummaryWorker(chunk: TextChunk, reply: Result<string, string>)
    returns (outcome: Result<TextChunk, string>)
    ensures outcome == SummaryOutcome(chunk, reply)
  {
    var summary := Summary.GetSummary(reply);
    if summary.Failure? {
      return Failure(summary.error);
    }
    outcome := Success(chunk.(summary := summary.value));
  }

  /** `GetSummariesConcurrent`: as for embeddings, where chunk `i`'s summary is what
      `GetSummary` makes of the model's reply `replies[i]`: with no failure, slot `i` is chunk
      `i` with only its summary replaced by the cleaned, cut reply. */
  method GetSummariesConcurrent(chunks: seq<TextChunk>, replies: seq<Result<string, string>>,
                                arrival: seq<nat>, hasCallback: bool)
    returns (r: Result<seq<TextChunk>, BatchError>, progress: seq<(nat, nat)>)
    requires |replies| == |chunks| && IsArrivalOrder(arrival, |chunks|)
    ensures progress == if hasCallback then ProgressReports(|chunks|, |chunks|) else []
    ensures r.Success? <==> forall i :: 0 <= i < |chunks| ==> replies[i].Success?
    ensures r.Success? ==>
      |r.value| == |chunks| &&
      forall i :: 0 <= i < |chunks| ==>
        r.value[i] == chunks[i].(summary := Summary.SummaryOf(replies[i].value))
    ensures r.Failure? ==> r.error.stage == Summarization
    ensures r.Failure? ==> forall i :: 0 <= i < |chunks| ==>
      ((exists e :: e in r.error.failures && e.index == i) <==> replies[i].Failure?)
    ensures r.Failure? ==> forall e :: e in r.error.failures ==>
      e.index < |chunks| && replies[e.index] == Failure(e.cause)
  {
    var outcomes := seq(|chunks|, i requires 0 <= i < |chunks| => SummaryOutcome(chunks[i], replies[i]));
    assert forall i :: 0 <= i < |chunks| ==> (outcomes[i].Success? <==> replies[i].Success?);
    r, progress := Collect(Summarization, outcomes, arrival, hasCallback);
    if r.Failure? {
      FailedJobs(arrival, outcomes);
    } else {
      forall i | 0 <= i < |chunks|
        ensures r.value[i] == chunks[i].(summary := Summary.SummaryOf(replies[i].value))
      {
        assert Success(r.value[i]) == SummaryOutcome(chunks[i], replies[i]);
      }
    }
  }
}
