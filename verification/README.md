# bluffy: a verified model of the text-embedding pipeline

bluffy turns a text document into a graph of related paragraphs. The document is split into
paragraph chunks. A local Ollama service gives each chunk an embedding vector and a short
summary. Every pair of chunks gets a similarity record. Chunks and records are stored in a
SQLite file. A small HTTP API and a desktop app (Wails) serve the result as a node/link graph.

This Dafny project models that core and proves properties of it:

- **Chunking** (`Chunker`, `Cli.ChunkTextByParagraphs`). A scan over the file's lines collects paragraphs.
  - The scan is proved equal to a declarative definition: maximal runs of non-blank trimmed lines, each joined by single spaces.
  - The lemmas cover that definition: blank lines separate, blank-only input gives nothing, and every paragraph is trimmed and non-empty.
- **Summary cleaning** (`Summary`). `cleanSummaryResponse` is modelled with its two regular-expression passes written out as leftmost-first scans, then the boilerplate lead-in loop, the punctuation loop and the ten-word cut of `GetSummary`.
  - Proved: no complete tag survives, and the result is trimmed.
  - Proved: at most one lead-in is removed, the first matching one in list order.
  - Proved: each mark is removed at most once, so cleaning is not idempotent.
- **Model check** (`ModelCheck`). The lookup table of installed models, with the `:latest` alias, and the list of missing models.
  - Proved: a model is reported missing exactly when it is required and not installed.
  - Proved: the install hint splits back into one `ollama pull` line per model.
- **Concurrent batches** (`Batch`). The workers and the result-collection loop of `GetEmbeddingsConcurrent` and `GetSummariesConcurrent`, for any order in which the workers' results arrive; a summary worker runs `GetSummary` on the model's reply.
  - Proved: slot `i` receives chunk `i` with only its embedding (or summary) replaced.
  - Proved: the progress callback sees `1..n`.
  - Proved: any failure discards the output, and the error names exactly the failed jobs with their causes.
- **Similarity** (`Calculator`, `Store`, `Pairs`, `Vectors`). Both cosine implementations and the Euclidean distance, plus the hand-written 10-step Newton square root. Both pair loops produce one record per pair `i < j` in row-major order.
  - Proved: the enumeration has `n(n-1)/2` pairs, is strictly ordered and complete.
  - Proved: the Newton iterate stays positive, and from the first step on it is never below the root.
  - Proved: cosine is symmetric and 0 for a zero vector.
- **Database naming** (`Paths`, `Store.NewDB`, `Cli.CreateOutputDatabase`). The database file is `Base(input)` minus its last extension, plus `_embeddings.db`, joined to the output directory by `filepath.Join`, whose cleaning (`filepath.Clean`) is modelled in full.
  - Proved: directories in the input are dropped and only the last extension is removed.
  - Proved: a name without a dot keeps its whole base.
  - Proved: for every output directory, the file's base name is that name.
  - Proved: in a clean directory such as `../out` the file sits directly inside it, and `out/` gives the same path as `out`.
- **Orchestration**. `processFile` of the CLI (`Cli`), `ProcessFile`/`OpenDatabase`/`GetGraphData` of the desktop `App` class (`App`), and the handlers and CORS dispatch of the HTTP API (`ApiServer`).
  - Proved: which step's failure ends a run, and which chunks are stored before it.
  - Proved: which database is current afterwards, and how nodes and links are built.

Everything outside the process is a parameter of the model: HTTP replies, SQL outcomes, directory creation, file contents, `strconv.ParseFloat`, `math.Sqrt`. Go's `float64` is modelled as `real`.

The stored similarity table of the pipeline (`CalculateSimilarities` in embed-visualizer/pkg/database/sqlite.go) records `1 - similarity` as the distance, not the Euclidean distance.

## Model

| member | source | states |
|---|---|---|
| Text.TrimSpace | pkg/textproc/chunker.go:24 | `strings.TrimSpace`: the result is a slice of the input with no white space at either end |
| Text.TrimSpaceIsSlice | pkg/textproc/chunker.go:24 | the trimmed string is the input with its leading and trailing white space cut off, and nothing else |
| Text.TrimSpaceOfTrimmed | pkg/embedding/ollama.go:256 | trimming an already trimmed string changes nothing, so the final trim is idempotent |
| Text.TrimSpaceEmptyIff | pkg/textproc/chunker.go:24-26 | a line is blank exactly when all its characters are white space |
| Text.TrimSuffix | pkg/embedding/ollama.go:252-254 | `strings.TrimSuffix` removes one copy of the suffix when present, and otherwise returns the input |
| Text.HasPrefix | pkg/embedding/ollama.go:244 | `strings.HasPrefix`: the string begins with the prefix |
| Text.Lower | pkg/embedding/ollama.go:244 | `strings.ToLower` keeps the length and lowers each character |
| Text.Join | pkg/embedding/ollama.go:221 | `strings.Join`: the parts with the separator between neighbours; its properties are `JoinSnoc` and `FieldsOfJoin` |
| Text.JoinSnoc | pkg/textproc/chunker.go:36-39 | one more part adds the separator and the part at the end of the join |
| Text.WordLength | pkg/embedding/ollama.go:215 | a leading word is a maximal run of non-space characters |
| Text.Fields | pkg/embedding/ollama.go:215 | `strings.Fields`: the maximal runs of non-space characters, in order; its properties are the lemmas below |
| Text.FieldsAreWords | pkg/embedding/ollama.go:215 | every field of `strings.Fields` is non-empty and free of white space |
| Text.FieldsOfJoin | pkg/embedding/ollama.go:215-221 | splitting words joined by single spaces gives the words back |
| Text.SplitLines | pkg/embedding/ollama.go:149 | `strings.Split` on newlines always gives at least one piece |
| Text.SplitLinesOfJoin | pkg/embedding/ollama.go:144-150 | newline-free lines joined by newlines split back into exactly those lines |
| Summary.IndexFrom | pkg/embedding/ollama.go:226-227 | the first occurrence of a pattern at or after a position, or none |
| Summary.CharFrom | pkg/embedding/ollama.go:230-231 | the first occurrence of a character at or after a position, or none |
| Summary.RemoveThinkBlocks | pkg/embedding/ollama.go:226-227 | the `<think>` pass (leftmost `<think>` up to the first `</think>` after it, repeatedly) never lengthens the text |
| Summary.RemoveTags | pkg/embedding/ollama.go:229-231 | the tag pass (leftmost `<` up to the first `>` after it, repeatedly) never lengthens the text |
| Summary.RemoveTagsLeavesNoCompleteTag | pkg/embedding/ollama.go:229-231 | after the tag pass, no `<` has a `>` anywhere after it |
| Summary.NoCompleteTagSlice | pkg/embedding/ollama.go:234-256 | slices keep the no-complete-tag property, so the later steps keep it |
| Summary.NoCompleteTagAfterPlain | pkg/embedding/ollama.go:229-231 | text without `<` in front of text with no complete tag leaves none |
| Summary.FirstBoilerplate | pkg/embedding/ollama.go:237-249 | the first lead-in in list order that the text starts with, ignoring case; none before it matches |
| Summary.StripBoilerplate | pkg/embedding/ollama.go:243-249 | with no matching lead-in the text is kept; otherwise the first match is cut off and the rest re-trimmed |
| Summary.StripMarks | pkg/embedding/ollama.go:251-254 | removing trailing marks leaves a prefix of the input |
| Summary.StripMarksRemovesAtMostOneEach | pkg/embedding/ollama.go:251-254 | each single-character mark removes at most one character |
| Summary.Cleaned | pkg/embedding/ollama.go:224-257 | the cleaned reply has no white space at either end |
| Summary.NoCompleteTagTrimSpace | pkg/embedding/ollama.go:234 | trimming keeps the no-complete-tag property |
| Summary.NoCompleteTagStripBoilerplate | pkg/embedding/ollama.go:243-249 | removing a lead-in keeps the no-complete-tag property |
| Summary.CleanedHasNoCompleteTag | pkg/embedding/ollama.go:224-257 | no complete tag survives the whole cleaning |
| Summary.RemoveBoilerplatePrefix | pkg/embedding/ollama.go:243-249 | the prefix loop with its `break` computes `StripBoilerplate` |
| Summary.RemoveTrailingPunctuation | pkg/embedding/ollama.go:251-254 | the punctuation loop removes each mark once, in list order |
| Summary.CleanSummaryResponse | pkg/embedding/ollama.go:224-257 | `cleanSummaryResponse` computes `Cleaned`; its result is trimmed and holds no complete tag |
| Summary.PrefixesAreLong | pkg/embedding/ollama.go:237-241 | every lead-in is at least six characters long |
| Summary.ShortTextHasNoBoilerplate | pkg/embedding/ollama.go:243-249 | text shorter than six characters matches no lead-in |
| Summary.ShortTextKeepsLeadIn | pkg/embedding/ollama.go:243-249 | the lead-in step keeps such short text unchanged |
| Summary.ShortTextHasNoThinkBlock | pkg/embedding/ollama.go:226-227 | text too short for a `<think>` block is kept by the first pass |
| Summary.TextWithoutTagsKeepsTags | pkg/embedding/ollama.go:229-231 | text without `<` is kept by the tag pass |
| Summary.CleanedShortText | pkg/embedding/ollama.go:224-257 | short trimmed text without `<` is only stripped of its marks and re-trimmed |
| Summary.StripMarksWithoutSuffix | pkg/embedding/ollama.go:251-254 | marks the text does not end with leave it unchanged |
| Summary.StripMarksCommaExample | pkg/embedding/ollama.go:251-254 | a word ending in `.,` loses only the comma, since `.` is tried before `,` |
| Summary.StripMarksFullStopExample | pkg/embedding/ollama.go:251-254 | a word ending in `.` loses the full stop |
| Summary.StripMarksSplit | pkg/embedding/ollama.go:251-254 | stripping a list of marks is stripping a prefix of the list, then the rest |
| Summary.CleanedDropsOneComma | pkg/embedding/ollama.go:224-257 | cleaning `x.,` gives `x.` |
| Summary.CleanedDropsOneFullStop | pkg/embedding/ollama.go:224-257 | cleaning `x.` gives `x` |
| Summary.CleanedNotIdempotent | pkg/embedding/ollama.go:224-257 | cleaning twice can differ from cleaning once (`x.,` gives `x.`, then `x`) |
| Summary.LeadingThinkBlock | pkg/embedding/ollama.go:226-227 | a `<think>` block at the start, with no `<` inside, is removed and the pass continues after `</think>` |
| Summary.TextWithoutTagsKeepsThinkBlocks | pkg/embedding/ollama.go:226-227 | text without `<` is kept by the `<think>` pass |
| Summary.SummaryLeadIn | pkg/embedding/ollama.go:237-249 | `Summary: ` in front of trimmed text is removed with its space |
| Summary.StripMarksFullStop | pkg/embedding/ollama.go:251-254 | text ending in a letter and a full stop loses exactly the full stop |
| Summary.CleanedThinkBlockLeadInFullStop | pkg/embedding/ollama.go:224-257 | a `<think>` block, then `Summary: `, then a trimmed sentence ending in a letter and `.`, cleans to the bare sentence |
| Summary.ThinkBlockExample | pkg/embedding/ollama.go:224-257 | `<think>x</think>Summary: the old man and the sea.` cleans to `the old man and the sea` |
| Summary.TruncateWordsKeepsLeadingWords | pkg/embedding/ollama.go:215-221 | the cut keeps the first (at most ten) words of the reply, in order, joined by single spaces |
| Summary.TruncateWords | pkg/embedding/ollama.go:215-221 | the cut: the first (at most ten) fields of the text joined by single spaces; what it keeps is stated by `TruncateWordsKeepsLeadingWords` |
| Summary.SummaryOf | pkg/embedding/ollama.go:214-221 | the stored summary of a reply, cleaned and then cut, has at most ten words |
| Summary.GetSummary | pkg/embedding/ollama.go:183-222 | a failed request is passed on; a reply becomes its cleaned, cut summary of at most ten words |
| ModelCheck.NewOllamaClient | pkg/embedding/ollama.go:72-85 | an empty address or model falls back to the default; a given one is kept |
| ModelCheck.Missing | pkg/embedding/ollama.go:128-133 | the missing list is no longer than the required list |
| ModelCheck.MissingIff | pkg/embedding/ollama.go:116-133 | a name is missing exactly when it is required and neither listed nor listed with `:latest` |
| ModelCheck.NothingMissingIff | pkg/embedding/ollama.go:128-141 | nothing is missing exactly when every required name is installed |
| ModelCheck.TagRemovalIff | pkg/embedding/ollama.go:120-123 | stripping `:latest` from a tagged name gives a key exactly when the name is the key plus the tag |
| ModelCheck.BuildModelMap | pkg/embedding/ollama.go:116-126 | the lookup table holds exactly the listed names and their untagged forms, all true |
| ModelCheck.PullCommands | pkg/embedding/ollama.go:144-148 | one `ollama pull <model>` command per model, in order |
| ModelCheck.GenerateInstallCommands | pkg/embedding/ollama.go:144-150 | the install hint is the pull commands joined by newlines |
| ModelCheck.InstallCommandsLines | pkg/embedding/ollama.go:144-150 | the hint splits back into exactly one line per model |
| ModelCheck.CheckModelsAvailable | pkg/embedding/ollama.go:103-142 | a failed or unreadable listing is an error; otherwise it fails exactly with the missing models and their install hint |
| ModelCheck.CheckPassesIff | pkg/embedding/ollama.go:103-142 | the check passes exactly when both the configured model and the summary model are installed |
| Batch.ArrivalCoversAll | pkg/embedding/ollama.go:292-303 | in any arrival order, every job's result arrives |
| Batch.ProgressReports | pkg/embedding/ollama.go:289-296 | the callback sees `(1, n)` through `(n, n)` |
| Batch.FailuresInIff | pkg/embedding/ollama.go:298-299 | the combined error lists a job exactly when it failed, with its cause |
| Batch.FailedJobs | pkg/embedding/ollama.go:298-299 | a job appears in the combined error exactly when it failed, and each entry carries its job's own cause |
| Batch.Gather | pkg/embedding/ollama.go:292-303 | the receiving loop reports progress `1..n`, records every failure in arrival order, and fills slot `i` from job `i` |
| Batch.Collect | pkg/embedding/ollama.go:286-309 | the collecting loop: progress `1..n`, success exactly when no job failed, slot `i` holds job `i`'s chunk, otherwise every failure in arrival order |
| Batch.EmbedOutcome | pkg/embedding/ollama.go:365-378 | the embedding worker succeeds exactly when the request does; only the embedding changes; a failure carries the request's error |
| Batch.SummaryOutcome | pkg/embedding/ollama.go:380-393 | the summary worker succeeds exactly when the request does; only the summary changes, to `SummaryOf` the reply; a failure carries the request's error |
| Batch.SummaryWorker | pkg/embedding/ollama.go:380-393 | the worker, calling `GetSummary` on the reply, yields `SummaryOutcome` |
| Batch.GetEmbeddingsConcurrent | pkg/embedding/ollama.go:259-310 | with no failure slot `i` is chunk `i` with only its embedding replaced; with any failure there is no output and the error names exactly the failed jobs |
| Batch.GetSummariesConcurrent | pkg/embedding/ollama.go:312-363 | the same for summaries: with no failed request, slot `i` is chunk `i` with its summary replaced by `SummaryOf` the model's reply to it, the cleaned reply cut to ten words |
| Vectors.Dot | embed-visualizer/pkg/similarity/calculator.go:17-21 | the dot product, summed from the first component on; its properties are the lemmas below |
| Vectors.SquaredDistance | embed-visualizer/pkg/similarity/calculator.go:38-42 | the sum of the squared componentwise differences; its properties are the lemmas below |
| Vectors.DotSymmetric | embed-visualizer/pkg/similarity/calculator.go:18 | the dot product does not depend on argument order |
| Vectors.SquaredNorm | embed-visualizer/pkg/similarity/calculator.go:19-20 | a squared norm is non-negative and 0 for a zero vector |
| Vectors.SquaredDistanceSymmetric | embed-visualizer/pkg/similarity/calculator.go:38-42 | the squared distance does not depend on argument order |
| Vectors.SquaredDistanceBounds | embed-visualizer/pkg/similarity/calculator.go:38-42 | the squared distance is non-negative and 0 from a vector to itself |
| Calculator.CosineSimilarity | embed-visualizer/pkg/similarity/calculator.go:10-31 | fails exactly on a length mismatch; otherwise the accumulated cosine, 0 when a norm is 0 |
| Calculator.EuclideanDistance | embed-visualizer/pkg/similarity/calculator.go:33-45 | fails exactly on a length mismatch; otherwise the root of the summed squared differences |
| Calculator.Cosine | embed-visualizer/pkg/similarity/calculator.go:10-31 | the cosine: the dot product over the product of the two norms, 0 when a norm is 0; its properties are `CosineSymmetric` and `CosineOfZeroVector` |
| Calculator.PairRecord | embed-visualizer/pkg/similarity/calculator.go:52-70 | the record of one pair: both ids, the Euclidean distance and the cosine |
| Calculator.CosineSymmetric | embed-visualizer/pkg/similarity/calculator.go:10-31 | the cosine is symmetric |
| Calculator.CosineOfZeroVector | embed-visualizer/pkg/similarity/calculator.go:26-28 | a zero vector has cosine 0 with every vector |
| Calculator.DistanceProperties | embed-visualizer/pkg/similarity/calculator.go:33-45 | the distance is non-negative, symmetric, and 0 from a vector to itself |
| Calculator.RecordsOf | embed-visualizer/pkg/similarity/calculator.go:65-72 | one record per pair |
| Calculator.RecordsOfAt | embed-visualizer/pkg/similarity/calculator.go:65-72 | record `k` holds the ids, distance and cosine of pair `k` |
| Calculator.RecordsIgnoreText | embed-visualizer/pkg/similarity/calculator.go:47-77 | the records depend only on the chunks' ids and embeddings |
| Calculator.CalculateAllSimilarities | embed-visualizer/pkg/similarity/calculator.go:47-77 | succeeds exactly when all embeddings have one length; the records then come row by row; otherwise it fails at the first mismatched pair with both ids |
| Calculator.RowSimilarities | embed-visualizer/pkg/similarity/calculator.go:51-73 | row `i` appends the records of pairs `(i, i+1)..(i, n-1)` after the earlier rows, or fails at the first mismatched pair of the row with both ids |
| Calculator.ExtendRow | embed-visualizer/pkg/similarity/calculator.go:52-72 | one pair: a mismatch fails with both ids and lengths; otherwise its record is appended |
| Calculator.PairSimilarity | embed-visualizer/pkg/similarity/calculator.go:52-70 | the distance error of a mismatched pair is wrapped with both chunk ids; equal lengths give the pair's distance and cosine record |
| Calculator.AllSimilaritiesShape | embed-visualizer/pkg/similarity/calculator.go:47-77 | `n(n-1)/2` records; record `k` pairs the ids of chunks `i < j` |
| Pairs.Row | embed-visualizer/pkg/similarity/calculator.go:51 | row `i` is `(i, i+1)` through `(i, n-1)` |
| Pairs.PairsUpToCount | embed-visualizer/pkg/similarity/calculator.go:50-51 | the first `i` rows hold `i(2n-i-1)/2` pairs |
| Pairs.AllPairsCount | embed-visualizer/pkg/similarity/calculator.go:50-51 | all rows hold `n(n-1)/2` pairs, none when `n <= 1` |
| Pairs.AllPairsAt | embed-visualizer/pkg/similarity/calculator.go:50-51 | for `i < j < n`, `Position(n, i, j)` is a valid index into the listing and pair `(i, j)` sits there |
| Pairs.AllPairsComplete | embed-visualizer/pkg/similarity/calculator.go:50-51 | every pair `i < j` is enumerated |
| Pairs.PairsUpToSorted | embed-visualizer/pkg/similarity/calculator.go:50-51 | the enumeration is strictly increasing in row-major order |
| Pairs.AllPairsEnumeration | embed-visualizer/pkg/similarity/calculator.go:50-51 | every pair has `i < j < n`; the order is strict, so no pair repeats; every pair appears |
| Store.StepProperties | embed-visualizer/pkg/database/sqlite.go:248 | one Newton step is the mean of `z` and `x/z`; it is positive, not below the root, and not above `z` when `z` is not below the root |
| Store.NewtonStep | embed-visualizer/pkg/database/sqlite.go:248 | one step `z - (z*z - x)/(2z)`; its properties are `StepProperties` |
| Store.Newton | embed-visualizer/pkg/database/sqlite.go:246-249 | the iterate stays positive |
| Store.NewtonAbove | embed-visualizer/pkg/database/sqlite.go:246-249 | after at least one step the iterate is not below the root |
| Store.NewtonNotGrowing | embed-visualizer/pkg/database/sqlite.go:246-249 | from a start not below the root the iterates never grow |
| Store.Root | embed-visualizer/pkg/database/sqlite.go:240-251 | `sqrt` is 0 exactly for 0, and non-negative |
| Store.RootAbove | embed-visualizer/pkg/database/sqlite.go:240-251 | for positive input the result's square is at least the input |
| Store.RootBounds | embed-visualizer/pkg/database/sqlite.go:240-251 | for input at least 1 the result lies between 1 and the input |
| Store.Sqrt | embed-visualizer/pkg/database/sqlite.go:240-251 | the ten-step loop computes `Root` |
| Store.Sums | embed-visualizer/pkg/database/sqlite.go:226-231 | the loop accumulates the dot product and both squared norms |
| Store.CosineSimilarity | embed-visualizer/pkg/database/sqlite.go:221-238 | `cosineSimilarity` computes `CosineOrZero` |
| Store.CosineOrZero | embed-visualizer/pkg/database/sqlite.go:221-238 | `cosineSimilarity`'s value: 0 on a length mismatch or a zero vector, otherwise the dot product over the two roots; its properties are the lemmas below |
| Store.CosineOrZeroGuards | embed-visualizer/pkg/database/sqlite.go:222-235 | a length mismatch or a zero vector gives 0 |
| Store.CosineOrZeroSymmetric | embed-visualizer/pkg/database/sqlite.go:221-238 | the result does not depend on argument order |
| Store.CosineOrZeroSign | embed-visualizer/pkg/database/sqlite.go:237 | for non-zero vectors the cosine is non-negative exactly when the dot product is |
| Store.RecordsOf | embed-visualizer/pkg/database/sqlite.go:180-187 | one record per pair |
| Store.RecordsOfAt | embed-visualizer/pkg/database/sqlite.go:180-187 | record `k` holds the ids of pair `k`, its cosine, and distance `1 - cosine` |
| Store.PairsInRange | embed-visualizer/pkg/database/sqlite.go:175-176 | every enumerated pair indexes the chunks |
| Store.BuildSimilarities | embed-visualizer/pkg/database/sqlite.go:174-189 | the nested loops build the records of all pairs, row by row |
| Store.BuildRow | embed-visualizer/pkg/database/sqlite.go:177-188 | the inner loop appends the records of row `i` after those of the earlier rows |
| Store.RecordOf | embed-visualizer/pkg/database/sqlite.go:178-186 | a record holds the two chunk ids, the cosine, and distance `1 - cosine` |
| Store.PairRecord | embed-visualizer/pkg/database/sqlite.go:178-186 | the record of one pair: both ids, the cosine, and distance `1 - cosine` |
| Store.SimilaritiesShape | embed-visualizer/pkg/database/sqlite.go:174-189 | `n(n-1)/2` records; record `k` pairs the ids of chunks `i < j` and has distance `1 - similarity` |
| Store.RecordsIgnoreText | embed-visualizer/pkg/database/sqlite.go:174-189 | the records depend only on the chunks' ids and embeddings |
| Store.CalculateSimilarities | embed-visualizer/pkg/database/sqlite.go:169-191 | a failed read is wrapped and nothing is inserted; otherwise the batch is the table of all pairs and the result is the insert's outcome |
| Store.NewDB | embed-visualizer/pkg/database/sqlite.go:19-43 | succeeds exactly when directory, open and setup all succeed; the file is `filepath.Join` of the output directory and the database name, and its base name is that name; each step's error is wrapped with its own message |
| Paths.TrimTrailingSlashes | pkg/database/sqlite.go:24 | the input without its trailing separators |
| Paths.AfterLastSlash | pkg/database/sqlite.go:24 | the part after the last separator, which holds none |
| Paths.Base | pkg/database/sqlite.go:24 | `filepath.Base` is never empty, and holds a separator only when it is the root |
| Paths.ExtFrom | pkg/database/sqlite.go:24 | the extension scan returns a dot-led suffix of the path with no further dot or separator |
| Paths.Ext | pkg/database/sqlite.go:24 | `filepath.Ext` is empty or a dot-led suffix of the path, with no further dot or separator |
| Paths.ElementExtEmptyIff | pkg/database/sqlite.go:24 | the extension of a single path element is empty exactly when the element holds no dot |
| Paths.DotGivesExt | pkg/database/sqlite.go:24 | a dot in the part of an element already scanned, with no dot after it, always yields a non-empty extension |
| Paths.ExtEmptyIff | pkg/database/sqlite.go:24 | `filepath.Ext` is empty exactly when the final element (after the last separator) holds no dot |
| Paths.TrimLeadingSlashes | pkg/database/sqlite.go:25 | the element without its leading separators |
| Paths.JoinPath | pkg/database/sqlite.go:25 | `filepath.Join`: an empty directory is skipped; otherwise directory, separator and element, cleaned; its properties are the lemmas below |
| Paths.Clean | pkg/database/sqlite.go:25 | `filepath.Clean`: the non-empty, non-`.` elements, each inner `..` cancelled with the element before it, `..` dropped at the root and kept at the start of a relative path, joined by single separators |
| Paths.ResolveSnoc | pkg/database/sqlite.go:25 | an element other than `..` is kept after what the elements before it leave |
| Paths.ElementsOfJoin | pkg/database/sqlite.go:25 | joining a directory and a name adds exactly the name, without leading separators, as the last element |
| Paths.CleanBase | pkg/database/sqlite.go:24-25 | a path whose last element is a plain element cleans to a path with that base name |
| Paths.JoinPathBase | pkg/database/sqlite.go:24-25 | for every directory, the joined path's base name is the element |
| Paths.JoinCleanDir | pkg/database/sqlite.go:25 | for a clean directory other than `.` and `/`, the join is the directory, one separator and the element |
| Paths.JoinDirSeparator | pkg/database/sqlite.go:25 | a trailing separator on the directory does not change the join |
| Paths.ParentDirIsClean | pkg/database/sqlite.go:25 | `../e` is already clean: a leading `..` of a relative path is kept |
| Paths.DatabaseNameIsElement | pkg/database/sqlite.go:24-25 | the database name, without leading separators, is one path element |
| Paths.LastElement | pkg/database/sqlite.go:24 | base and extension depend only on the last element |
| Paths.DatabaseNameDropsDirectories | pkg/database/sqlite.go:24 | directories in the input are dropped from the name |
| Paths.DatabaseNameRemovesLastExtension | pkg/database/sqlite.go:24 | only the last extension is removed (`book.tar.gz` gives `book.tar_embeddings.db`) |
| Paths.DatabaseNameWithoutDot | pkg/database/sqlite.go:24 | a name without a dot keeps its whole base |
| Paths.DatabaseNameTrailingSeparator | pkg/database/sqlite.go:24 | a trailing separator is ignored |
| Paths.DatabasePathBase | pkg/database/sqlite.go:24-25 | for every output directory, the database file's base name is the database name |
| Paths.DatabaseName | pkg/database/sqlite.go:24-25 | the file name: base name of the input minus its extension, then `_embeddings.db`; its properties are the lemmas above |
| Paths.DatabasePath | pkg/database/sqlite.go:24-25 | the output directory joined with the database name; its properties are the lemmas around it |
| Paths.DatabasePathInCleanDir | pkg/database/sqlite.go:24-25 | in a clean output directory other than `.` and `/`, the database file sits directly inside it |
| Paths.DatabasePathDirSeparator | pkg/database/sqlite.go:24-25 | `out/` and `out` give the same database path |
| Paths.DatabasePathParentDir | pkg/database/sqlite.go:24-25 | with output directory `../e` the database path is `../e/` and the database name |
| Chunker.Paragraphs | pkg/textproc/chunker.go:23-48 | the paragraphs: the maximal runs of non-blank trimmed lines, each joined by single spaces; its properties are the lemmas below |
| Chunker.TrimmedLines | pkg/textproc/chunker.go:24 | each line is trimmed |
| Chunker.Runs | pkg/textproc/chunker.go:23-48 | ending on a non-blank line leaves an open paragraph |
| Chunker.Texts | pkg/textproc/chunker.go:36-39 | each paragraph is its lines joined by single spaces |
| Chunker.ChunksOf | pkg/textproc/chunker.go:28-33 | chunk `k` holds paragraph `k` and index `k` |
| Chunker.ScanLine | pkg/textproc/chunker.go:23-40 | one scanned line keeps the loop state: the open paragraph and the finished chunks are those of the lines so far |
| Chunker.FlushLast | pkg/textproc/chunker.go:43-48 | after the last line the open paragraph, if any, becomes the final chunk, so the chunks are those of every paragraph |
| Chunker.AppendChunk | pkg/textproc/chunker.go:28-33 | one more paragraph adds its chunk with the next index |
| Chunker.RunsAreRuns | pkg/textproc/chunker.go:23-48 | every paragraph is a non-empty run of non-blank trimmed lines |
| Chunker.JoinOfRun | pkg/textproc/chunker.go:29 | a joined run is non-empty and trimmed |
| Chunker.ParagraphsAreTrimmed | pkg/textproc/chunker.go:29 | every paragraph is non-empty and trimmed |
| Chunker.RunsSplit | pkg/textproc/chunker.go:26-34 | a blank line separates: what comes before and after chunk independently |
| Chunker.TrimmedLinesConcat | pkg/textproc/chunker.go:24 | trimming distributes over concatenation |
| Chunker.ParagraphsSplit | pkg/textproc/chunker.go:26-34 | paragraphs of lines split at a blank line are the paragraphs of each side |
| Chunker.BlankLinesOnly | pkg/textproc/chunker.go:43-48 | a file of blank lines has no chunks |
| Chunker.OneParagraph | pkg/textproc/chunker.go:35-48 | lines without a blank one form one paragraph of all trimmed lines |
| Chunker.ChunkTextByParagraphs | pkg/textproc/chunker.go:11-55 | an open or scan error is returned alone; otherwise the chunks of every paragraph in order, numbered from 0 |
| Cli.OutputDir | main.go:51-53 | the output directory defaults to `.` and is kept when given |
| Cli.CreateOutputDatabase | main.go:190-198 | a directory error is wrapped; otherwise the path is `filepath.Join` of the output directory and the database name, and its base name is that name |
| Cli.ChunkTextByParagraphs | main.go:114-158 | main.go's copy of the chunker gives the same paragraphs, in its own record type |
| Cli.FirstFailure | main.go:93-106 | the first chunk whose embedding or insert fails; all before it succeed |
| Cli.Stored | main.go:101-103 | stored chunk `k` is chunk `k` with its embedding |
| Cli.StoreChunks | main.go:93-106 | stops at the first failing chunk, reporting its 0-based position and cause; exactly the chunks before it are stored |
| Cli.ProcessFile | main.go:70-112 | a chunking, directory, open or setup failure ends the run with that step's own error, before anything is stored; otherwise the stored chunks are the paragraphs with their embeddings up to the first failing chunk, whose embedding or insert error is reported with its 0-based position |
| ApiServer.RespondWithJSON | cmd/api-server/main.go:200-207 | a success envelope with the data, no error, status 200 |
| ApiServer.RespondWithError | cmd/api-server/main.go:209-217 | a failure envelope with the message, no data, the given status |
| ApiServer.WellFormed | cmd/api-server/main.go:200-217 | an envelope succeeds exactly with status 200; a success carries data and no error, a failure an error and no data |
| ApiServer.MethodNotAllowed | cmd/api-server/main.go:122-125 | a non-GET request gets plain-text 405 |
| ApiServer.Threshold | cmd/api-server/main.go:128-133 | `min_similarity` is 0 when absent or unparseable, otherwise the parsed value |
| ApiServer.NodeOf | cmd/api-server/main.go:157-162 | a node copies id, text and summary, with index = chunk index |
| ApiServer.LinkOf | cmd/api-server/main.go:168-173 | a link copies the two chunk ids, distance and similarity |
| ApiServer.LinksAbove | cmd/api-server/main.go:165-175 | filtering never adds links |
| ApiServer.LinksAboveAppend | cmd/api-server/main.go:165-175 | filtering keeps the records' relative order |
| ApiServer.LinksAboveIff | cmd/api-server/main.go:165-175 | a link is produced exactly for a record at or above the threshold |
| ApiServer.LinksAboveAll | cmd/api-server/main.go:165-175 | a threshold no higher than every similarity keeps every record, in order |
| ApiServer.LinksAboveMonotone | cmd/api-server/main.go:165-175 | raising the threshold never adds links |
| ApiServer.BuildNodes | cmd/api-server/main.go:155-163 | the node array holds one node per chunk, in order |
| ApiServer.BuildLinks | cmd/api-server/main.go:165-175 | the loop appends exactly the links of the records at or above the threshold |
| ApiServer.HandleChunks | cmd/api-server/main.go:77-97 | non-GET gives 405 before the database is opened; open and query errors become 500 envelopes; otherwise every chunk |
| ApiServer.HandleSimilarities | cmd/api-server/main.go:99-119 | the same for the similarity records |
| ApiServer.HandleGraph | cmd/api-server/main.go:121-183 | the same error order; on success one node per chunk and the links at or above the threshold |
| ApiServer.Serve | cmd/api-server/main.go:185-198 | OPTIONS gets 200 without reaching a handler; the database is opened exactly for GET; a GET gets its endpoint handler's reply (open error, query errors, or the data; for the graph, node `k` is built from chunk `k` and the links are those at or above the threshold); every reply is a well-formed envelope |
| ApiServer.GraphLinksResolve | cmd/api-server/main.go:155-175 | when the records name chunks that were read, every link ends at two nodes |
| App.Connection.Close | embed-visualizer/pkg/database/sqlite.go:45-47 | closing marks the handle closed |
| App.NodeOf | embed-visualizer/app.go:149-154 | a node's id and index are both the chunk index |
| App.LinkOf | embed-visualizer/app.go:160-164 | a link copies the two database chunk ids and the similarity |
| App.ChunksRead | embed-visualizer/app.go:48-51 | the chunker's result for a file read |
| App.FirstInsertFailure | embed-visualizer/app.go:90-94 | the first failing insert; all before it succeed |
| App.Processed | embed-visualizer/app.go:68-87 | chunk `i` after both batches: embedding `i` and `SummaryOf` summary reply `i`, nothing else changed |
| App.StoreChunks | embed-visualizer/app.go:90-94 | stops at the first failed insert with its wrapped error; exactly the chunks before it are stored |
| App.PipelineStored | embed-visualizer/app.go:68-94 | nothing is stored unless both batches succeed |
| App.PipelineBatch | embed-visualizer/app.go:89-105 | similarities are computed only once every chunk is stored |
| App.Enrich | embed-visualizer/app.go:68-87 | embeddings come before summaries; a failed embedding (or summary) batch ends the run with a batch error of that stage that lists a job exactly when its reply failed, with that reply's error; otherwise every chunk gets its embedding and summary |
| App.RunPipeline | embed-visualizer/app.go:68-105 | stored and computed exactly as above; `PipelineReport`: a failed embedding batch, then summary batch, then the first failed insert, then a failed read-back or batch insert ends the run with that step's own error, a failed batch's error naming exactly the jobs whose replies failed; it passes exactly when none fails |
| App.CreateDatabase | embed-visualizer/app.go:34-43 | a directory error is wrapped; a failed open or setup gives `NewDB`'s own error, wrapped as a database error; otherwise a fresh open connection at the database path |
| App.ChunkAndRun | embed-visualizer/app.go:47-105 | a chunking error ends the run with nothing stored; otherwise the pipeline runs on the file's chunks, stored, computed and reported as `RunPipeline` |
| App.App.constructor | embed-visualizer/app.go:21-23 | a new app has no database open |
| App.App.ProcessFile | embed-visualizer/app.go:32-113 | a directory, open or setup failure ends the run with its own error and leaves `db` unchanged; afterwards `db` is the new database, already closed, and an earlier database is left untouched; a chunking error is wrapped; otherwise stored, computed and reported as `RunPipeline` |
| App.App.OpenDatabase | embed-visualizer/app.go:116-128 | on failure nothing changes; on success the old database is closed and the new one is current |
| App.App.GetGraphData | embed-visualizer/app.go:131-171 | no database gives "no database open"; a closed one fails its chunk query with both wrappers; otherwise the query errors are wrapped, or one node per chunk and one link per record, in order |
| App.StoredChunksAreParagraphs | embed-visualizer/app.go:48-94 | stored chunk `k` holds paragraph `k`, index `k`, the `k`-th embedding and the `k`-th cleaned summary |
| App.StoredChunksAreTexts | embed-visualizer/app.go:68-94 | of numbered texts, stored chunk `k` holds text `k`, index `k`, the `k`-th embedding and the `k`-th cleaned summary |
| App.StoredChunkAt | embed-visualizer/app.go:68-94 | a stored chunk had both its embedding and its summary request succeed, and holds their results |
| App.GraphLinksMissNodes | embed-visualizer/app.go:147-165 | with fresh-table ids, the record of the first and last chunk has a target that is no node's id |
| App.IntendedNodeOf | embed-visualizer/app.go:149-154 | a node keyed by the chunk's database id |
| App.IntendedLinksResolve | embed-visualizer/app.go:147-165 | with nodes keyed by database id, every link of the similarity table ends at two nodes |

## Left out

- Network I/O is left out.
  - The Ollama HTTP requests (`GetEmbedding`, `GetSummary` up to the reply, `CheckConnection`) become their replies, given as parameters.
  - The HTTP server, its routing, and the CORS headers themselves are left out.
  - The Wails events, progress messages and file dialogs are left out.
  - The cobra command line, `log.Fatal` and all printing are left out.
- SQL is left out. Every statement is an outcome or a query result given as a parameter.
  - The ids assigned by `AUTOINCREMENT`/`RETURNING id` are not modelled.
  - The query order (`ORDER BY chunk_index`, `ORDER BY similarity DESC`) is not modelled.
  - The `similarity >= ?` filter of `GetSimilarities` is not modelled.
  - Transactions and rollback are not modelled.
- Concurrency is modelled only through arrival order. The worker pool is modelled as one arbitrary arrival order of the results, a permutation of the job indices; the worker count and `runtime.NumCPU()` do not affect the result. Each job is assumed to get its own copy of the loop variable (Go 1.22 loop semantics).
- `float64` is modelled as `real`. Rounding, NaN and infinities are not modelled, and `math.Sqrt` is a parameter. `strconv.ParseFloat` is a parameter, as is the JSON encoding of the envelopes (for example, an empty `links` slice encodes as `null`).
- Unicode case mapping is modelled only for ASCII. `strings.ToLower` lowers ASCII letters only.
- Regular expressions are replaced by equivalent scans. The two patterns are written out as leftmost-first scans, not as a general regular-expression engine.
- `bufio.Scanner` line splitting is not modelled. The file arrives as its lines, or as an open or scan error.
- Error strings that format numbers are modelled as values. `%d`/`%v` messages are modelled as error values (`Cli.ProcessError`, `App.AppError`, `Batch.BatchError`, `Calculator.PairError`) holding the index and the cause. `ModelCheck.CheckError` keeps the missing models of pkg/embedding/ollama.go:136, which `%v` formats as a bracketed list, as a list next to the install commands.
- embed-visualizer/pkg/embedding and embed-visualizer/pkg/textproc are not part of this model; their pkg/ counterparts stand in. embed-visualizer/pkg/database's `OpenExistingDB`, called at embed-visualizer/app.go:117, is likewise taken to be pkg/database/reader.go:10-22. The two identical copies of `NewDB` are modelled once, as `Store.NewDB`.
- Store.Sqrt: requires a non-negative argument. It is only called on sums of squares.
- Calculator.CalculateAllSimilarities: the cosine error branch is unreachable once the distance succeeded, and is written as a dead branch.
- App.App.ProcessFile: `NewDB`'s own `MkdirAll` of the directory just created is taken to succeed.
- App.App.ProcessFile: the chunks the similarity pass reads back are a parameter, not derived from the stored chunks, because their ids come from the database.
- App.App.GetGraphData: the `minSimilarity` filter is applied by the database query, so the filtered records are its parameter.
- ModelCheck.CheckModelsAvailable: the listing request and its JSON decoding are parameters.

## Findings

| source | as written | input that shows it | evidently intended | confidence | as-written member | corrected member |
|---|---|---|---|---|---|---|
| embed-visualizer/app.go:149-164 | graph nodes use the chunk index as `id`, links use the chunks' database ids | a fresh database with chunks 0..n-1 stored under ids 1..n: the link of the first and last chunk targets id `n`, which no node has | nodes keyed by database id, as the HTTP API does (cmd/api-server/main.go:158) | medium, not executed | App.GraphLinksMissNodes | App.IntendedLinksResolve |
