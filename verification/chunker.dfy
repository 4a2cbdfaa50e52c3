/**
 * The paragraph chunker (pkg/textproc/chunker.go; main.go keeps a copy): every maximal run
 * of non-blank lines becomes one chunk whose text is the run's trimmed lines joined by single
 * spaces, numbered from 0.
 *
 * Opening and scanning the file are outside the model: the input is what the scanner
 * delivered, the lines (without their line ends) or the error that stopped it.
 */
module Chunker {
  import opened Wrappers
  import opened Records
  import opened Text

  /** What reading the file gave: the open error, or the lines read and the scanner's error
      (if any) once it stopped. */
  datatype FileRead = OpenFailed(error: string) | Scanned(lines: seq<string>, scanError: Option<string>)

  /** The trimmed forms of `lines`: a line is blank when nothing is left of it. */
  function TrimmedLines(lines: seq<string>): (r: seq<string>)
    ensures |r| == |lines|
    ensures forall k :: 0 <= k < |lines| ==> r[k] == TrimSpace(lines[k])
  {
    seq(|lines|, k requires 0 <= k < |lines| => TrimSpace(lines[k]))
  }

  /** The maximal runs of consecutive non-empty lines, in order. */
  function Runs(ts: seq<string>): (r: seq<seq<string>>)
    ensures ts != [] && ts[|ts| - 1] != [] ==> r != []
  {
    if ts == [] then []
    else
      var init, line := ts[..|ts| - 1], ts[|ts| - 1];
      var prev := Runs(init);
      if line == [] then prev
      else if init != [] && init[|init| - 1] != [] then
        prev[..|prev| - 1] + [prev[|prev| - 1] + [line]]
      else prev + [[line]]
  }

  /** The text of each run: its lines joined by single spaces. */
  function Texts(runs: seq<seq<string>>): (r: seq<string>)
    ensures |r| == |runs|
    ensures forall k :: 0 <= k < |runs| ==> r[k] == Join(runs[k], " ")
  {
    seq(|runs|, k requires 0 <= k < |runs| => Join(runs[k], " "))
  }

  /** The paragraphs of `lines`: the maximal runs of non-blank trimmed lines, each joined by
      single spaces. */
  function Paragraphs(lines: seq<string>): seq<string>
  {
    Texts(Runs(TrimmedLines(lines)))
  }

  /** The chunk the scanner emits for the `index`-th paragraph: no id, no embedding, no
      summary yet. */
  function ChunkOf(text: string, index: nat): TextChunk
  {
    TextChunk(0, text, index, [], "")
  }

  /** The chunks for a list of texts, numbered from 0. */
  function ChunksOf(texts: seq<string>): (r: seq<TextChunk>)
    ensures |r| == |texts|
    ensures forall k :: 0 <= k < |texts| ==> r[k] == ChunkOf(texts[k], k)
  {
    seq(|texts|, k requires 0 <= k < |texts| => ChunkOf(texts[k], k))
  }

  /** One more paragraph adds its chunk, with the next index, at the end. */
  lemma {:induction false} AppendChunk(texts: seq<string>, text: string)
    ensures ChunksOf(texts + [text]) == ChunksOf(texts) + [ChunkOf(text, |texts|)]
  {
  }

  /** Every line of `ts` is trimmed. */
  predicate AllTrimmed(ts: seq<string>)
  {
    forall k :: 0 <= k < |ts| ==> IsTrimmed(ts[k])
  }

  /** A run: one or more non-empty trimmed lines. */
  predicate IsRun(run: seq<string>)
  {
    run != [] && forall m :: 0 <= m < |run| ==> run[m] != [] && IsTrimmed(run[m])
  }

  /** Over trimmed lines, every run is one or more non-empty trimmed lines. */
  lemma {:induction false} RunsAreRuns(ts: seq<string>)
    requires AllTrimmed(ts)
    ensures forall k :: 0 <= k < |Runs(ts)| ==> IsRun(Runs(ts)[k])
  {
    if ts != [] {
      var init, line := ts[..|ts| - 1], ts[|ts| - 1];
      RunsAreRuns(init);
      var prev := Runs(init);
      if line != [] {
        if init != [] && init[|init| - 1] != [] {
          var last := prev[|prev| - 1] + [line];
          assert IsRun(prev[|prev| - 1]);
          assert IsRun(last);
          assert Runs(ts) == prev[..|prev| - 1] + [last];
        } else {
          assert Runs(ts) == prev + [[line]];
        }
      }
    }
  }

  /** A run joined by single spaces is non-empty, trimmed text. */
  lemma {:induction false} JoinOfRun(run: seq<string>)
    requires IsRun(run)
    ensures Join(run, " ") != [] && IsTrimmed(Join(run, " "))
  {
    if |run| > 1 {
      assert IsRun(run[1..]);
      JoinOfRun(run[1..]);
      var rest := Join(run[1..], " ");
      var whole := run[0] + " " + rest;
      assert Join(run, " ") == whole;
      assert whole[0] == run[0][0];
      assert whole[|whole| - 1] == rest[|rest| - 1];
    }
  }

  /** Every paragraph is non-empty and has no white space at either end. */
  lemma {:induction false} ParagraphsAreTrimmed(lines: seq<string>)
    ensures forall k :: 0 <= k < |Paragraphs(lines)| ==>
      Paragraphs(lines)[k] != [] && IsTrimmed(Paragraphs(lines)[k])
  {
    var runs := Runs(TrimmedLines(lines));
    RunsAreRuns(TrimmedLines(lines));
    forall k | 0 <= k < |runs|
      ensures Join(runs[k], " ") != [] && IsTrimmed(Join(runs[k], " "))
    {
      JoinOfRun(runs[k]);
    }
  }

  /** One more line: a blank one changes nothing, a non-blank one extends the last run when
      the line before it was non-blank, and starts a new run otherwise. */
  lemma {:induction false} RunsSnoc(x: seq<string>, line: string)
    ensures line == [] ==> Runs(x + [line]) == Runs(x)
    ensures line != [] && x != [] && x[|x| - 1] != [] ==>
      Runs(x) != [] &&
      Runs(x + [line]) == Runs(x)[..|Runs(x)| - 1] + [Runs(x)[|Runs(x)| - 1] + [line]]
    ensures line != [] && (x == [] || x[|x| - 1] == []) ==> Runs(x + [line]) == Runs(x) + [[line]]
  {
    assert (x + [line])[..|x|] == x;
  }

  /** A blank line separates the input into two independent halves: no run spans it. */
  lemma {:induction false} RunsSplit(a: seq<string>, b: seq<string>)
    ensures Runs(a + [[]] + b) == Runs(a) + Runs(b)
    decreases |b|
  {
    if b == [] {
      RunsSnoc(a, []);
      assert a + [[]] + b == a + [[]];
    } else {
      var init, line := b[..|b| - 1], b[|b| - 1];
      assert init + [line] == b;
      RunsSplit(a, init);
      RunsSplitStep(a, init, line);
    }
  }

  /** The step of `RunsSplit`: one more line after the blank keeps the halves independent. */
  lemma {:induction false} RunsSplitStep(a: seq<string>, init: seq<string>, line: string)
    requires Runs(a + [[]] + init) == Runs(a) + Runs(init)
    ensures Runs(a + [[]] + (init + [line])) == Runs(a) + Runs(init + [line])
  {
    var before := a + [[]] + init;
    assert a + [[]] + (init + [line]) == before + [line];
    if line == [] {
      RunsSnoc(before, line);
      RunsSnoc(init, line);
    } else if init != [] && init[|init| - 1] != [] {
      RunsSplitExtend(a, init, line);
    } else {
      RunsSplitStart(a, init, line);
    }
  }

  /** A non-blank line after a non-blank one extends the last run on both sides. */
  lemma {:induction false} RunsSplitExtend(a: seq<string>, init: seq<string>, line: string)
    requires Runs(a + [[]] + init) == Runs(a) + Runs(init)
    requires line != [] && init != [] && init[|init| - 1] != []
    ensures Runs(a + [[]] + init + [line]) == Runs(a) + Runs(init + [line])
  {
    var before := a + [[]] + init;
    assert before[|before| - 1] == init[|init| - 1];
    RunsSnoc(before, line);
    RunsSnoc(init, line);
    ExtendLastRun(Runs(a), Runs(init), line);
  }

  /** A non-blank line after a blank one (or after the separator) starts a run on both
      sides. */
  lemma {:induction false} RunsSplitStart(a: seq<string>, init: seq<string>, line: string)
    requires Runs(a + [[]] + init) == Runs(a) + Runs(init)
    requires line != [] && (init == [] || init[|init| - 1] == [])
    ensures Runs(a + [[]] + init + [line]) == Runs(a) + Runs(init + [line])
  {
    var before := a + [[]] + init;
    assert before[|before| - 1] == [];
    RunsSnoc(before, line);
    RunsSnoc(init, line);
    assert Runs(before) + [[line]] == Runs(a) + (Runs(init) + [[line]]);
  }

  /** Extending the last run of `x + y` extends the last run of `y`. */
  lemma {:induction false} ExtendLastRun(x: seq<seq<string>>, y: seq<seq<string>>, line: string)
    requires y != []
    ensures var xy := x + y;
      xy[..|xy| - 1] + [xy[|xy| - 1] + [line]] == x + (y[..|y| - 1] + [y[|y| - 1] + [line]])
  {
    var xy := x + y;
    assert xy[..|xy| - 1] == x + y[..|y| - 1];
  }

  /** Trimming works line by line. */
  lemma {:induction false} TrimmedLinesConcat(a: seq<string>, b: seq<string>)
    ensures TrimmedLines(a + b) == TrimmedLines(a) + TrimmedLines(b)
  {
    var whole, ta, tb := a + b, TrimmedLines(a), TrimmedLines(b);
    forall k | 0 <= k < |whole|
      ensures TrimmedLines(whole)[k] == (ta + tb)[k]
    {
      if k < |a| {
        assert whole[k] == a[k] && (ta + tb)[k] == ta[k];
      } else {
        assert whole[k] == b[k - |a|] && (ta + tb)[k] == tb[k - |a|];
      }
    }
  }

  /** Paragraphs split the same way around a blank line. */
  lemma {:induction false} ParagraphsSplit(a: seq<string>, blank: string, b: seq<string>)
    requires TrimSpace(blank) == []
    ensures Paragraphs(a + [blank] + b) == Paragraphs(a) + Paragraphs(b)
  {
    var ta, tb := TrimmedLines(a), TrimmedLines(b);
    TrimmedAroundBlank(a, blank, b);
    RunsSplit(ta, tb);
    TextsConcat(Runs(ta), Runs(tb));
  }

  /** A blank line trims to the empty line between the trimmed lines around it. */
  lemma {:induction false} TrimmedAroundBlank(a: seq<string>, blank: string, b: seq<string>)
    requires TrimSpace(blank) == []
    ensures TrimmedLines(a + [blank] + b) == TrimmedLines(a) + [[]] + TrimmedLines(b)
  {
    var single := TrimmedLines([blank]);
    assert single == [[]] by {
      assert single[0] == TrimSpace(blank);
    }
    TrimmedLinesConcat(a, [blank]);
    TrimmedLinesConcat(a + [blank], b);
  }

  /** Joining works run by run. */
  lemma {:induction false} TextsConcat(x: seq<seq<string>>, y: seq<seq<string>>)
    ensures Texts(x + y) == Texts(x) + Texts(y)
  {
    var whole := x + y;
    forall k | 0 <= k < |whole|
      ensures Texts(whole)[k] == (Texts(x) + Texts(y))[k]
    {
      if k < |x| {
        assert whole[k] == x[k];
      } else {
        assert whole[k] == y[k - |x|];
      }
    }
  }

  /** Blank lines alone make no run. */
  lemma {:induction false} EmptyLinesOnly(ts: seq<string>)
    requires forall k :: 0 <= k < |ts| ==> ts[k] == []
    ensures Runs(ts) == []
  {
    if ts != [] {
      EmptyLinesOnly(ts[..|ts| - 1]);
    }
  }

  /** Blank lines alone make no paragraph. */
  lemma {:induction false} BlankLinesOnly(lines: seq<string>)
    requires forall k :: 0 <= k < |lines| ==> TrimSpace(lines[k]) == []
    ensures Paragraphs(lines) == []
  {
    EmptyLinesOnly(TrimmedLines(lines));
  }

  /** Non-empty lines with no empty one among them form one run. */
  lemma {:induction false} OneRun(ts: seq<string>)
    requires ts != [] && forall k :: 0 <= k < |ts| ==> ts[k] != []
    ensures Runs(ts) == [ts]
  {
    var init, line := ts[..|ts| - 1], ts[|ts| - 1];
    assert init + [line] == ts;
    if init != [] {
      OneRun(init);
      assert Runs(init)[..0] == [];
      assert Runs(ts) == [] + [init + [line]];
    } else {
      assert Runs(ts) == [] + [[line]];
    }
  }

  /** Non-blank lines up to the end of the input are one paragraph, their trimmed forms joined
      by single spaces: the last paragraph needs no blank line after it. */
  lemma {:induction false} OneParagraph(lines: seq<string>)
    requires lines != [] && forall k :: 0 <= k < |lines| ==> TrimSpace(lines[k]) != []
    ensures Paragraphs(lines) == [Join(TrimmedLines(lines), " ")]
  {
    OneRun(TrimmedLines(lines));
  }

  /** After `ts[..i]` the scanner is inside a paragraph: the last line read was not blank. */
  predicate Open(ts: seq<string>, i: nat)
    requires i <= |ts|
  {
    i > 0 && ts[i - 1] != []
  }

  /** The text of the paragraph still being built after `ts[..i]` (empty when none). */
  function Pending(ts: seq<string>, i: nat): string
    requires i <= |ts|
  {
    var runs := Runs(ts[..i]);
    if Open(ts, i) then Join(runs[|runs| - 1], " ") else []
  }

  /** The texts of the paragraphs already closed by a blank line after `ts[..i]`. */
  function Finished(ts: seq<string>, i: nat): seq<string>
    requires i <= |ts|
  {
    var runs := Runs(ts[..i]);
    Texts(if Open(ts, i) then runs[..|runs| - 1] else runs)
  }

  /** The pending text is non-empty exactly inside a paragraph, and then it is trimmed; the
      closed texts plus any pending one are the paragraphs so far. */
  lemma {:induction false} PendingText(ts: seq<string>, i: nat)
    requires i <= |ts| && AllTrimmed(ts)
    ensures Pending(ts, i) != [] <==> Open(ts, i)
    ensures IsTrimmed(Pending(ts, i))
    ensures Texts(Runs(ts[..i])) == Finished(ts, i) + (if Open(ts, i) then [Pending(ts, i)] else [])
  {
    if Open(ts, i) {
      var runs := Runs(ts[..i]);
      assert ts[..i][i - 1] == ts[i - 1];
      assert AllTrimmed(ts[..i]);
      RunsAreRuns(ts[..i]);
      JoinOfRun(runs[|runs| - 1]);
      assert runs == runs[..|runs| - 1] + [runs[|runs| - 1]];
    }
  }

  /** A blank line closes the pending paragraph, if any. */
  lemma {:induction false} BlankStep(ts: seq<string>, i: nat)
    requires i < |ts| && ts[i] == [] && AllTrimmed(ts)
    ensures Pending(ts, i + 1) == []
    ensures Finished(ts, i + 1) == Finished(ts, i) + (if Open(ts, i) then [Pending(ts, i)] else [])
  {
    assert ts[..i + 1][..i] == ts[..i];
    PendingText(ts, i);
  }

  /** A non-blank line extends the pending paragraph, or starts one. */
  lemma {:induction false} LineStep(ts: seq<string>, i: nat)
    requires i < |ts| && ts[i] != []
    ensures Finished(ts, i + 1) == Finished(ts, i)
    ensures Pending(ts, i + 1) == if Open(ts, i) then Pending(ts, i) + " " + ts[i] else ts[i]
  {
    var prefix := ts[..i + 1];
    assert prefix[..i] == ts[..i];
    var runs := Runs(ts[..i]);
    var line := ts[i];
    if Open(ts, i) {
      var last := runs[|runs| - 1];
      assert Runs(prefix) == runs[..|runs| - 1] + [last + [line]];
      assert (runs[..|runs| - 1] + [last + [line]])[..|runs| - 1] == runs[..|runs| - 1];
      JoinSnoc(last, line, " ");
    } else {
      assert Runs(prefix) == runs + [[line]];
      assert (runs + [[line]])[..|runs|] == runs;
    }
  }

  /** One line of the scan: a blank line closes the pending paragraph (if any), a non-blank
      line extends it or starts one; the pending text is always trimmed. */
  lemma {:induction false} ScanStep(ts: seq<string>, i: nat)
    requires i < |ts| && AllTrimmed(ts)
    ensures IsTrimmed(Pending(ts, i))
    ensures ts[i] == [] ==> Pending(ts, i + 1) == []
    ensures ts[i] == [] ==>
      Finished(ts, i + 1) == Finished(ts, i) + (if Pending(ts, i) != [] then [Pending(ts, i)] else [])
    ensures ts[i] != [] ==> Finished(ts, i + 1) == Finished(ts, i)
    ensures ts[i] != [] ==>
      Pending(ts, i + 1) == if Pending(ts, i) != [] then Pending(ts, i) + " " + ts[i] else ts[i]
  {
    PendingText(ts, i);
    if ts[i] == [] {
      BlankStep(ts, i);
    } else {
      LineStep(ts, i);
    }
  }

  /** The body of the scanning loop for the `i`-th line, already trimmed: a blank line emits
      the pending paragraph (if any) as the next chunk; any other line joins the pending
      paragraph with a single space. */
  method ScanLine(ghost ts: seq<string>, i: nat, line: string,
                  chunks: seq<TextChunk>, currentChunk: string, chunkIndex: nat)
    returns (chunks': seq<TextChunk>, currentChunk': string, chunkIndex': nat)
    requires i < |ts| && AllTrimmed(ts) && line == ts[i]
    requires chunkIndex == |chunks|
    requires currentChunk == Pending(ts, i) && chunks == ChunksOf(Finished(ts, i))
    ensures chunkIndex' == |chunks'|
    ensures currentChunk' == Pending(ts, i + 1) && chunks' == ChunksOf(Finished(ts, i + 1))
  {
    chunks', currentChunk', chunkIndex' := chunks, currentChunk, chunkIndex;
    ghost var finished := Finished(ts, i);
    ScanStep(ts, i);
    if line == [] {
      if |currentChunk'| > 0 {
        TrimSpaceOfTrimmed(currentChunk');
        AppendChunk(finished, currentChunk');
        chunks' := chunks' + [ChunkOf(TrimSpace(currentChunk'), chunkIndex')];
        currentChunk' := [];
        chunkIndex' := chunkIndex' + 1;
      }
    } else {
      if |currentChunk'| > 0 {
        currentChunk' := currentChunk' + " ";
      }
      currentChunk' := currentChunk' + line;
    }
  }

  /** After the last line: the pending paragraph, if any, becomes the last chunk, and then the
      chunks are those of every paragraph. */
  method FlushLast(ghost ts: seq<string>, chunks: seq<TextChunk>, currentChunk: string, chunkIndex: nat)
    returns (chunks': seq<TextChunk>)
    requires AllTrimmed(ts) && chunkIndex == |chunks|
    requires currentChunk == Pending(ts, |ts|) && chunks == ChunksOf(Finished(ts, |ts|))
    ensures chunks' == ChunksOf(Texts(Runs(ts)))
  {
    chunks' := chunks;
    PendingText(ts, |ts|);
    assert ts[..|ts|] == ts;
    if |currentChunk| > 0 {
      TrimSpaceOfTrimmed(currentChunk);
      AppendChunk(Finished(ts, |ts|), currentChunk);
      chunks' := chunks' + [ChunkOf(TrimSpace(currentChunk), chunkIndex)];
    }
  }

  /** `ChunkTextByParagraphs`: the chunks of every paragraph in order, numbered from 0, or only
      the error when opening or scanning the file failed. */
  method ChunkTextByParagraphs(read: FileRead) returns (r: Result<seq<TextChunk>, string>)
    ensures read.OpenFailed? ==> r == Failure(read.error)
    ensures read.Scanned? && read.scanError.Some? ==> r == Failure(read.scanError.value)
    ensures read.Scanned? && read.scanError.None? ==> r == Success(ChunksOf(Paragraphs(read.lines)))
  {
    if read.OpenFailed? {
      return Failure(read.error);
    }
    var lines := read.lines;
    ghost var ts := TrimmedLines(lines);
    var chunks: seq<TextChunk> := [];
    var currentChunk: string := "";
    var chunkIndex := 0;
    var i := 0;
    while i < |lines|
      invariant 0 <= i <= |lines|
      invariant chunkIndex == |chunks|
      invariant currentChunk == Pending(ts, i)
      invariant chunks == ChunksOf(Finished(ts, i))
    {
      var line := TrimSpace(lines[i]);
      chunks, currentChunk, chunkIndex := ScanLine(ts, i, line, chunks, currentChunk, chunkIndex);
      i := i + 1;
    }
    chunks := FlushLast(ts, chunks, currentChunk, chunkIndex);
    if read.scanError.Some? {
      return Failure(read.scanError.value);
    }
    return Success(chunks);
  }
}
