/**
 * Post-processing of the summarisation model's reply (`cleanSummaryResponse` and the
 * ten-word cut at the end of `GetSummary` in pkg/embedding/ollama.go).
 *
 * The two regular-expression passes are written out as scans with the engine's
 * leftmost-first semantics: `(?s)<think>.*?</think>` removes, from the leftmost `<think>`,
 * everything up to the first `</think>` after it; `<[^>]*>` removes, from the leftmost `<`,
 * everything up to the first `>` after it. Replacement resumes after each removed match.
 */
module Summary {
  import opened Wrappers
  import opened Text

  const ThinkOpen: string := "<think>"
  const ThinkClose: string := "</think>"

  /** The boilerplate lead-ins, in the order they are tried. */
  const Prefixes: seq<string> := [
    "Summary:", "Topic:", "Key words:", "Keywords:",
    "The text is about", "This text discusses", "The topic is",
    "Main topic:", "Subject:", "Theme:"
  ]

  /** The trailing marks, each removed at most once, in this order. */
  const Punctuation: seq<string> := [".", "!", "?", ":", ";", ","]

  /** The most words a stored summary keeps. */
  const MaxSummaryWords: nat := 10

  predicate OccursAt(s: string, pat: string, i: nat)
  {
    i + |pat| <= |s| && s[i..i + |pat|] == pat
  }

  /** The first position at or after `from` where `pat` occurs. */
  function IndexFrom(s: string, pat: string, from: nat): (r: Option<nat>)
    requires pat != []
    ensures r.Some? ==> from <= r.value && OccursAt(s, pat, r.value)
    ensures r.Some? ==> forall j :: from <= j < r.value ==> !OccursAt(s, pat, j)
    ensures r.None? ==> forall j :: from <= j ==> !OccursAt(s, pat, j)
    decreases |s| - from
  {
    if from + |pat| > |s| then None
    else if OccursAt(s, pat, from) then Some(from)
    else IndexFrom(s, pat, from + 1)
  }

  /** The first position at or after `from` holding the character `c`. */
  function CharFrom(s: string, c: char, from: nat): (r: Option<nat>)
    ensures r.Some? ==> from <= r.value < |s| && s[r.value] == c
    ensures r.Some? ==> forall j :: from <= j < r.value ==> s[j] != c
    ensures r.None? ==> forall j :: from <= j < |s| ==> s[j] != c
    decreases |s| - from
  {
    if from >= |s| then None
    else if s[from] == c then Some(from)
    else CharFrom(s, c, from + 1)
  }

  /** First regular-expression pass: drop every `<think> ... </think>` region. */
  function RemoveThinkBlocks(s: string): (r: string)
    ensures |r| <= |s|
    decreases |s|
  {
    match IndexFrom(s, ThinkOpen, 0)
    case None => s
    case Some(p) =>
      match IndexFrom(s, ThinkClose, p + |ThinkOpen|)
      case None => s
      case Some(q) => s[..p] + RemoveThinkBlocks(s[q + |ThinkClose|..])
  }

  /** No `<` is followed, anywhere later, by a `>`: no complete tag is left. */
  predicate NoCompleteTag(s: string)
  {
    forall i, j :: 0 <= i < j < |s| && s[i] == '<' ==> s[j] != '>'
  }

  /** Second regular-expression pass: drop every `<...>` tag. */
  function RemoveTags(s: string): (r: string)
    ensures |r| <= |s|
    decreases |s|
  {
    match CharFrom(s, '<', 0)
    case None => s
    case Some(p) =>
      match CharFrom(s, '>', p + 1)
      case None => s
      case Some(q) => s[..p] + RemoveTags(s[q + 1..])
  }

  /** The tag pass leaves no `<` with a `>` after it. */
  lemma {:induction false} RemoveTagsLeavesNoCompleteTag(s: string)
    ensures NoCompleteTag(RemoveTags(s))
    decreases |s|
  {
    match CharFrom(s, '<', 0)
    case None =>
    case Some(p) =>
      match CharFrom(s, '>', p + 1)
      case None =>
      case Some(q) =>
        RemoveTagsLeavesNoCompleteTag(s[q + 1..]);
        NoCompleteTagAfterPlain(s[..p], RemoveTags(s[q + 1..]));
  }

  /** Text without `<` in front of text without complete tags has no complete tag. */
  lemma {:induction false} NoCompleteTagAfterPlain(a: string, b: string)
    requires forall i :: 0 <= i < |a| ==> a[i] != '<'
    requires NoCompleteTag(b)
    ensures NoCompleteTag(a + b)
  {
    var t := a + b;
    assert forall i :: 0 <= i < |a| ==> t[i] == a[i];
    forall i, j | |a| <= i < j < |t| && t[i] == '<' ensures t[j] != '>' {
      assert t[i] == b[i - |a|] && t[j] == b[j - |a|];
    }
  }

  /** Every slice of a string without complete tags is without complete tags. */
  lemma {:induction false} NoCompleteTagSlice(s: string, lo: nat, hi: nat)
    requires NoCompleteTag(s) && lo <= hi <= |s|
    ensures NoCompleteTag(s[lo..hi])
  {
    var t := s[lo..hi];
    forall i, j | 0 <= i < j < |t| && t[i] == '<' ensures t[j] != '>' {
      assert t[i] == s[lo + i] && t[j] == s[lo + j];
    }
  }

  /** Whether the trimmed text starts with boilerplate `prefix`, ignoring ASCII case. */
  predicate StartsWithBoilerplate(s: string, prefix: string)
  {
    HasPrefix(Lower(s), Lower(prefix))
  }

  /** The first boilerplate lead-in, at or after position `k` of the list, that `s` starts with. */
  function FirstBoilerplate(s: string, k: nat): (r: Option<nat>)
    requires k <= |Prefixes|
    ensures r.Some? ==> k <= r.value < |Prefixes| && StartsWithBoilerplate(s, Prefixes[r.value])
    ensures r.Some? ==> forall m :: k <= m < r.value ==> !StartsWithBoilerplate(s, Prefixes[m])
    ensures r.None? ==> forall m :: k <= m < |Prefixes| ==> !StartsWithBoilerplate(s, Prefixes[m])
    decreases |Prefixes| - k
  {
    if k == |Prefixes| then None
    else if StartsWithBoilerplate(s, Prefixes[k]) then Some(k)
    else FirstBoilerplate(s, k + 1)
  }

  /** Removes the first matching lead-in, if any, and trims what follows it. */
  function StripBoilerplate(s: string): (r: string)
    ensures FirstBoilerplate(s, 0).None? ==> r == s
    ensures FirstBoilerplate(s, 0).Some? ==>
      var p := Prefixes[FirstBoilerplate(s, 0).value];
      |p| <= |s| && r == TrimSpace(s[|p|..])
  {
    match FirstBoilerplate(s, 0)
    case None => s
    case Some(k) => TrimSpace(s[|Prefixes[k]|..])
  }

  /** Removes each of `marks` from the end once, one after the other. */
  function StripMarks(s: string, marks: seq<string>): (r: string)
    ensures |r| <= |s| && r == s[..|r|]
    decreases |marks|
  {
    if marks == [] then s else StripMarks(TrimSuffix(s, marks[0]), marks[1..])
  }

  /** With single-character marks, at most one character per mark is removed. */
  lemma {:induction false} StripMarksRemovesAtMostOneEach(s: string, marks: seq<string>)
    requires forall k :: 0 <= k < |marks| ==> |marks[k]| == 1
    ensures |s| - |StripMarks(s, marks)| <= |marks|
  {
    if marks != [] {
      StripMarksRemovesAtMostOneEach(TrimSuffix(s, marks[0]), marks[1..]);
    }
  }

  /** What `cleanSummaryResponse` returns for `response`. */
  function Cleaned(response: string): (r: string)
    ensures IsTrimmed(r)
  {
    var tagless := RemoveTags(RemoveThinkBlocks(response));
    var stripped := StripBoilerplate(TrimSpace(tagless));
    TrimSpace(StripMarks(stripped, Punctuation))
  }

  lemma {:induction false} NoCompleteTagTrimSpace(s: string)
    requires NoCompleteTag(s)
    ensures NoCompleteTag(TrimSpace(s))
  {
    TrimSpaceIsSlice(s);
    NoCompleteTagSlice(s, TrimStart(s), TrimStart(s) + |TrimSpace(s)|);
  }

  lemma {:induction false} NoCompleteTagStripBoilerplate(s: string)
    requires NoCompleteTag(s)
    ensures NoCompleteTag(StripBoilerplate(s))
  {
    if FirstBoilerplate(s, 0).Some? {
      var rest := s[|Prefixes[FirstBoilerplate(s, 0).value]|..];
      NoCompleteTagSlice(s, |s| - |rest|, |s|);
      NoCompleteTagTrimSpace(rest);
    }
  }

  /** After cleaning, no complete tag survives: every later step only takes slices of the
      tag-free text. */
  lemma {:induction false} CleanedHasNoCompleteTag(response: string)
    ensures NoCompleteTag(Cleaned(response))
  {
    var tagless := RemoveTags(RemoveThinkBlocks(response));
    RemoveTagsLeavesNoCompleteTag(RemoveThinkBlocks(response));
    NoCompleteTagTrimSpace(tagless);
    var stripped := StripBoilerplate(TrimSpace(tagless));
    NoCompleteTagStripBoilerplate(TrimSpace(tagless));
    var unpunctuated := StripMarks(stripped, Punctuation);
    NoCompleteTagSlice(stripped, 0, |unpunctuated|);
    NoCompleteTagTrimSpace(unpunctuated);
  }

  /** The prefix loop of `cleanSummaryResponse`: tries the lead-ins in order and strips the
      first that matches, then stops. */
  method RemoveBoilerplatePrefix(trimmed: string) returns (cleaned: string)
    ensures cleaned == StripBoilerplate(trimmed)
  {
    cleaned := trimmed;
    var i := 0;
    while i < |Prefixes|
      invariant 0 <= i <= |Prefixes|
      invariant cleaned == trimmed
      invariant FirstBoilerplate(trimmed, 0) == FirstBoilerplate(trimmed, i)
    {
      if HasPrefix(Lower(cleaned), Lower(Prefixes[i])) {
        cleaned := TrimSpace(cleaned[|Prefixes[i]|..]);
        break;
      }
      i := i + 1;
    }
  }

  /** The punctuation loop of `cleanSummaryResponse`: removes each mark once, in list order. */
  method RemoveTrailingPunctuation(stripped: string) returns (cleaned: string)
    ensures cleaned == StripMarks(stripped, Punctuation)
  {
    cleaned := stripped;
    var j := 0;
    while j < |Punctuation|
      invariant 0 <= j <= |Punctuation|
      invariant StripMarks(cleaned, Punctuation[j..]) == StripMarks(stripped, Punctuation)
    {
      cleaned := TrimSuffix(cleaned, Punctuation[j]);
      j := j + 1;
    }
  }

  /** `cleanSummaryResponse`: the two scans, a trim, the prefix loop, the punctuation loop and
      a final trim. */
  method CleanSummaryResponse(response: string) returns (cleaned: string)
    ensures cleaned == Cleaned(response)
    ensures IsTrimmed(cleaned) && NoCompleteTag(cleaned)
  {
    cleaned := RemoveThinkBlocks(response);
    cleaned := RemoveTags(cleaned);
    cleaned := TrimSpace(cleaned);
    cleaned := RemoveBoilerplatePrefix(cleaned);
    cleaned := RemoveTrailingPunctuation(cleaned);
    cleaned := TrimSpace(cleaned);
    CleanedHasNoCompleteTag(response);
  }

  /** Every lead-in is at least six characters long. */
  lemma {:induction false} PrefixesAreLong(k: nat)
    requires k < |Prefixes|
    ensures |Prefixes[k]| >= 6
  {
  }

  /** Text shorter than every lead-in starts with none of them. */
  lemma {:induction false} ShortTextHasNoBoilerplate(s: string, k: nat)
    requires |s| < 6 && k <= |Prefixes|
    ensures FirstBoilerplate(s, k) == None
    decreases |Prefixes| - k
  {
    if k < |Prefixes| {
      PrefixesAreLong(k);
      ShortTextHasNoBoilerplate(s, k + 1);
    }
  }

  lemma {:induction false} ShortTextKeepsLeadIn(s: string)
    requires |s| < 6
    ensures StripBoilerplate(s) == s
  {
    ShortTextHasNoBoilerplate(s, 0);
  }

  lemma {:induction false} ShortTextHasNoThinkBlock(s: string)
    requires |s| < 6
    ensures RemoveThinkBlocks(s) == s
  {
    assert IndexFrom(s, ThinkOpen, 0) == None;
  }

  lemma {:induction false} TextWithoutTagsKeepsTags(s: string)
    requires '<' !in s
    ensures RemoveTags(s) == s
  {
    assert CharFrom(s, '<', 0) == None;
  }

  /** Text shorter than every lead-in, with no `<` and no white space at its ends, is only
      stripped of trailing punctuation. */
  lemma {:induction false} CleanedShortText(s: string)
    requires |s| < 6 && '<' !in s && IsTrimmed(s)
    ensures Cleaned(s) == TrimSpace(StripMarks(s, Punctuation))
  {
    ShortTextHasNoThinkBlock(s);
    TextWithoutTagsKeepsTags(s);
    TrimSpaceOfTrimmed(s);
    ShortTextKeepsLeadIn(s);
  }

  /** Marks that `s` does not end with leave it alone. */
  lemma {:induction false} StripMarksWithoutSuffix(s: string, marks: seq<string>)
    requires forall k :: 0 <= k < |marks| ==> !HasSuffix(s, marks[k])
    ensures StripMarks(s, marks) == s
    decreases |marks|
  {
    if marks != [] {
      StripMarksWithoutSuffix(s, marks[1..]);
    }
  }

  lemma {:induction false} StripMarksCommaExample(c: char)
    requires 'a' <= c <= 'z'
    ensures StripMarks([c, '.', ','], Punctuation) == [c, '.']
  {
    var s := [c, '.', ','];
    StripMarksWithoutSuffix(s, Punctuation[..5]);
    assert s[..2] == [c, '.'];
    StripMarksWithoutSuffix([c, '.'], []);
    StripMarksSplit(s, Punctuation, 5);
  }

  lemma {:induction false} StripMarksFullStopExample(c: char)
    requires 'a' <= c <= 'z'
    ensures StripMarks([c, '.'], Punctuation) == [c]
  {
    assert [c, '.'][..1] == [c];
    StripMarksWithoutSuffix([c], Punctuation[1..]);
  }

  /** Stripping a list of marks is stripping its first `k` marks, then the rest. */
  lemma {:induction false} StripMarksSplit(s: string, marks: seq<string>, k: nat)
    requires k <= |marks|
    ensures StripMarks(s, marks) == StripMarks(StripMarks(s, marks[..k]), marks[k..])
    decreases k
  {
    if k > 0 {
      assert marks[..k][1..] == marks[1..][..k - 1];
      assert marks[k..] == marks[1..][k - 1..];
      StripMarksSplit(TrimSuffix(s, marks[0]), marks[1..], k - 1);
    }
  }

  lemma {:induction false} CleanedDropsOneComma(c: char)
    requires 'a' <= c <= 'z'
    ensures Cleaned([c, '.', ',']) == [c, '.']
  {
    var s, t := [c, '.', ','], [c, '.'];
    assert IsTrimmed(s) && IsTrimmed(t);
    CleanedShortText(s);
    StripMarksCommaExample(c);
    TrimSpaceOfTrimmed(t);
  }

  lemma {:induction false} CleanedDropsOneFullStop(c: char)
    requires 'a' <= c <= 'z'
    ensures Cleaned([c, '.']) == [c]
  {
    CleanedShortText([c, '.']);
    StripMarksFullStopExample(c);
    TrimSpaceOfTrimmed([c]);
  }

  /** Cleaning is not idempotent: each mark is removed once per pass, so a second pass can
      remove a mark that the first pass uncovered (`"a.,"` cleans to `"a."`, which cleans to
      `"a"`). */
  lemma {:induction false} CleanedNotIdempotent(c: char)
    requires 'a' <= c <= 'z'
    ensures Cleaned([c, '.', ',']) == [c, '.']
    ensures Cleaned(Cleaned([c, '.', ','])) == [c]
  {
    CleanedDropsOneComma(c);
    CleanedDropsOneFullStop(c);
  }

  /** A `<think>` block at the very start, whose body holds no `<`, is removed and the scan
      goes on after its `</think>`. */
  lemma {:induction false} LeadingThinkBlock(x: string, t: string)
    requires '<' !in x
    ensures RemoveThinkBlocks(ThinkOpen + x + ThinkClose + t) == RemoveThinkBlocks(t)
  {
    var s := ThinkOpen + x + ThinkClose + t;
    var q := |ThinkOpen| + |x|;
    assert OccursAt(s, ThinkOpen, 0) by { assert s[..|ThinkOpen|] == ThinkOpen; }
    assert IndexFrom(s, ThinkOpen, 0) == Some(0);
    assert OccursAt(s, ThinkClose, q) by { assert s[q..q + |ThinkClose|] == ThinkClose; }
    forall j | |ThinkOpen| <= j < q
      ensures !OccursAt(s, ThinkClose, j)
    {
      assert s[j] == x[j - |ThinkOpen|];
    }
    assert IndexFrom(s, ThinkClose, |ThinkOpen|) == Some(q);
    assert s[q + |ThinkClose|..] == t;
  }

  /** Text without `<` holds no `<think>` block. */
  lemma {:induction false} TextWithoutTagsKeepsThinkBlocks(t: string)
    requires '<' !in t
    ensures RemoveThinkBlocks(t) == t
  {
    forall j: nat
      ensures !OccursAt(t, ThinkOpen, j)
    {
      if j + |ThinkOpen| <= |t| {
        assert t[j..j + |ThinkOpen|][0] == t[j];
      }
    }
  }

  /** A reply that starts with the lead-in `Summary:` and a space loses both. */
  lemma {:induction false} SummaryLeadIn(u: string)
    requires IsTrimmed(u)
    ensures StripBoilerplate("Summary: " + u) == u
  {
    var s := "Summary: " + u;
    var p := Prefixes[0];
    forall k | 0 <= k < |p|
      ensures Lower(s)[k] == Lower(p)[k]
    {
      assert s[k] == p[k];
    }
    assert Lower(s)[..|p|] == Lower(p);
    assert FirstBoilerplate(s, 0) == Some(0);
    assert s[|p|..] == [' '] + u;
    TrimSpaceOfLeadingSpace(u);
  }

  /** One leading space in front of trimmed text is trimmed away. */
  lemma {:induction false} TrimSpaceOfLeadingSpace(u: string)
    requires IsTrimmed(u)
    ensures TrimSpace([' '] + u) == u
  {
    assert ([' '] + u)[1..] == u;
    assert TrimLeft([' '] + u) == TrimLeft(u);
    TrimSpaceOfTrimmed(u);
  }

  /** A full stop after trimmed, non-empty text keeps it trimmed. */
  lemma {:induction false} FullStopKeepsTrimmed(v: string)
    requires v != [] && IsTrimmed(v)
    ensures IsTrimmed(v + ".")
  {
    var u := v + ".";
    assert u[0] == v[0] && u[|u| - 1] == '.';
  }

  /** Text ending in a letter and then a full stop loses only the full stop. */
  lemma {:induction false} StripMarksFullStop(v: string)
    requires v != [] && 'a' <= v[|v| - 1] <= 'z'
    ensures StripMarks(v + ".", Punctuation) == v
  {
    assert HasSuffix(v + ".", ".");
    assert TrimSuffix(v + ".", Punctuation[0]) == v;
    forall k | 0 <= k < |Punctuation[1..]|
      ensures !HasSuffix(v, Punctuation[1..][k])
    {
      assert v[|v| - 1..] == [v[|v| - 1]];
    }
    StripMarksWithoutSuffix(v, Punctuation[1..]);
  }

  /** A reply made of a `<think>` block, the lead-in `Summary: ` and a sentence ending in a
      letter and a full stop cleans to the bare sentence. */
  lemma {:induction false} CleanedThinkBlockLeadInFullStop(x: string, v: string)
    requires '<' !in x && '<' !in v
    requires v != [] && IsTrimmed(v) && 'a' <= v[|v| - 1] <= 'z'
    ensures Cleaned(ThinkOpen + x + ThinkClose + ("Summary: " + v + ".")) == v
  {
    var u := v + ".";
    var t := "Summary: " + u;
    assert "Summary: " + v + "." == t;
    assert '<' !in t;
    LeadingThinkBlock(x, t);
    TextWithoutTagsKeepsThinkBlocks(t);
    TextWithoutTagsKeepsTags(t);
    TrimSpaceOfTrimmed(t);
    FullStopKeepsTrimmed(v);
    SummaryLeadIn(u);
    StripMarksFullStop(v);
    TrimSpaceOfTrimmed(v);
  }

  /** The example reply, cut into its reasoning block, lead-in, sentence and full stop. */
  lemma {:induction false} ExampleReplyParts()
    ensures "<think>x</think>Summary: the old man and the sea." ==
            ThinkOpen + "x" + ThinkClose + ("Summary: " + "the old man and the sea" + ".")
  {
    var block, text := "<think>x</think>", "Summary: the old man and the sea.";
    assert "<think>x</think>Summary: the old man and the sea." == block + text;
    ExampleBlock(block);
    ExampleText(text);
  }

  lemma {:induction false} ExampleBlock(block: string)
    requires block == "<think>x</think>"
    ensures block == ThinkOpen + "x" + ThinkClose
  {
  }

  lemma {:induction false} ExampleText(text: string)
    requires text == "Summary: the old man and the sea."
    ensures text == "Summary: " + "the old man and the sea" + "."
  {
  }

  /** The example reply with a reasoning block, a lead-in and a closing full stop cleans to
      the bare summary. */
  lemma {:induction false} ThinkBlockExample()
    ensures Cleaned("<think>x</think>Summary: the old man and the sea.") == "the old man and the sea"
  {
    var v := "the old man and the sea";
    assert '<' !in v && IsTrimmed(v) && v[|v| - 1] == 'a';
    CleanedThinkBlockLeadInFullStop("x", v);
    ExampleReplyParts();
  }

  /** `GetSummary`'s cut: the leading (at most ten) words of `s`, joined by single spaces. */
  function TruncateWords(s: string): string
  {
    var words := Fields(s);
    Join(if |words| > MaxSummaryWords then words[..MaxSummaryWords] else words, " ")
  }

  /** The cut keeps exactly the leading (at most ten) words: splitting it again gives them
      back. */
  lemma {:induction false} TruncateWordsKeepsLeadingWords(s: string)
    ensures var words := Fields(s);
      Fields(TruncateWords(s)) == if |words| > MaxSummaryWords then words[..MaxSummaryWords] else words
    ensures |Fields(TruncateWords(s))| <= MaxSummaryWords
  {
    var words := Fields(s);
    FieldsAreWords(s);
    FieldsOfJoin(if |words| > MaxSummaryWords then words[..MaxSummaryWords] else words);
  }

  /** The summary stored for a model reply `raw`. */
  function SummaryOf(raw: string): (r: string)
    ensures |Fields(r)| <= MaxSummaryWords
  {
    TruncateWordsKeepsLeadingWords(Cleaned(raw));
    TruncateWords(Cleaned(raw))
  }

  /** `GetSummary` after the service has answered: a request failure is passed on, a reply is
      cleaned and cut to at most ten words. */
  method GetSummary(reply: Result<string, string>) returns (r: Result<string, string>)
    ensures reply.Failure? ==> r == Failure(reply.error)
    ensures reply.Success? ==> r == Success(SummaryOf(reply.value))
    ensures r.Success? ==> |Fields(r.value)| <= MaxSummaryWords
  {
    if reply.Failure? {
      return Failure(reply.error);
    }
    var summary := CleanSummaryResponse(reply.value);
    var words := Fields(summary);
    if |words| > MaxSummaryWords {
      words := words[..MaxSummaryWords];
    }
    TruncateWordsKeepsLeadingWords(summary);
    return Success(Join(words, " "));
  }
}
