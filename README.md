# Call transcription and analysis — a Dafny model

This project models the core of a web application that transcribes
recorded phone calls, tidies the transcripts, and has a language model
analyse them. The analysis lists the problems and solutions discussed,
gives a "temperature" of the conversation from 1 to 10, and writes a
summary. The model covers:

- the text pipeline: the sentence chunker, the de-duplicating cleanup,
  the lexical normaliser, the parser of the model's answer, and the merge
  of the analyses of several chunks;
- the retry and progress logic of a transcription, the retry loops that
  write to the database, and the cached sign-in;
- the guard around the sync of external calls, and the server function
  that copies them in batches;
- the bookkeeping in the views: merging a page of files by id, counting
  and partitioning them, the per-file upload loop, the statistics page,
  the file list with its selection and pager, and the spreadsheet export.

The network, the database, timers and the clock are inputs to the model.
A call that can fail becomes an "oracle": a parameter that says what the
call answers, often as a function of how many such calls came before.
What the code would have done to the outside world is returned as a
trace of effects, or as a count of calls.

Files and modules:

| file | module | models |
|---|---|---|
| types.dfy | Types | file records, analyses, configurations, thrown values |
| text.dfy | Text | JavaScript string helpers: `\s`, `\w`, `trim`, `split`, `join`, case mapping, number printing |
| chunker.dfy | Chunker | `splitTextForAnalysis` |
| merge.dfy | Merge | `mergeAnalysisResults` |
| cleanup.dfy | Cleanup | `cleanupTranscription` with `similarity` and `cleanSentence` |
| normalize.dfy | Normalize | `normalizeTranscription` with `preserveCase` |
| transcribe.dfy | Transcribe | `transcribeAudio` |
| analysis.dfy | AnalysisParse, Analyzer | `parseAnalysisResponse`, `analyzeTranscription`, `analyzeSelectedFiles` |
| supabase.dfy | Supabase | `ensureAuth`, `logTranscriptionEvent`, `updateFileStatus` |
| external_database.dfy | ExternalDatabase | `syncExternalCalls`, `getExternalCalls` |
| sync_calls.dfy | SyncCalls | the `sync-external-calls` server function |
| app.dfy | App | `syncData`, `calculateStats`, `processAudioFiles`, the tabs |
| stats_dashboard.dfy | StatsDashboard | the statistics page |
| file_list.dfy | FileList | the file list |
| excel.dfy | Excel | `exportToExcel` |

Contrary to what one might expect from the function names, the code behaves as follows, and the model follows it:

- A text made only of whitespace produces one empty chunk, not none.
- `similarity` is not symmetric.
- The repeated-word collapse is ASCII-only and case-sensitive.

## Model

| member | source | states |
|---|---|---|
| Chunker.SplitSentences | project/src/lib/transcription.ts:7 | the text splits into at least one piece; every piece but the last ends with `.`, `!` or `?`; the pieces and one separator between each fit in the text; a text with no terminator is one piece |
| Chunker.SplitRoundTrip | project/src/lib/transcription.ts:7 | the pieces, rejoined with the whitespace runs they were split at, give back the text; no piece contains a terminator followed by whitespace; every piece after the first is empty or starts with a non-space |
| Chunker.Separators | project/src/lib/transcription.ts:7 | every separator is a non-empty run of whitespace |
| Chunker.Pack | project/src/lib/transcription.ts:8-26 | the chunks are what the greedy loop, written as a function, returns; they are the trimmed texts of groups that cover the sentences in order (only empty sentences may be left over), each group non-empty and packed while sentences fitted, and each closed only because its text plus the next sentence exceeds 16000 characters |
| Chunker.PackSentence | project/src/lib/transcription.ts:13-20 | one pass of the loop keeps that packing invariant, the chunk being built equal to the glued text of the open group, and performs one step of the greedy function |
| Chunker.PackLoop | project/src/lib/transcription.ts:13-20 | after the loop every sentence is in the closed groups or the open one, in order, and what is left to do is the greedy function's last step |
| Chunker.ExtendStep | project/src/lib/transcription.ts:17-18 | a sentence that fits, or meets an empty chunk, joins the open group with one space, and the invariant holds one sentence further |
| Chunker.CloseStep | project/src/lib/transcription.ts:14-16 | a sentence that does not fit closes the open group, which adds its trimmed text as the next chunk, and starts a new group with that sentence |
| Chunker.FinishPacking | project/src/lib/transcription.ts:22-24 | after the loop the open group becomes the last chunk exactly when its text is not empty |
| Chunker.SplitTextForAnalysis | project/src/lib/transcription.ts:6-27 | the chunks are the greedy function of the split sentences, and they come from a greedy packing of the split sentences; every chunk has at most 16001 characters or is a single over-long sentence; "" gives no chunk; a text of at most 16000 characters gives at most one chunk; a whitespace-only text gives one empty chunk |
| Chunker.ShortTextOneGroup | project/src/lib/transcription.ts:14 | sentences that fit in 16000 characters with their separators are never split into two chunks |
| Chunker.ChunkSizes | project/src/lib/transcription.ts:14-18 | a chunk is longer than 16001 characters only if it is one sentence, because the size test leaves out the joining space |
| Chunker.GroupSize | project/src/lib/transcription.ts:14-18 | a packed group glues to at most 16001 characters unless its text is its last sentence alone |
| Chunker.GlueLength | project/src/lib/transcription.ts:18 | the glued text is no longer than its sentences plus one space between each |
| Chunker.EmptyTextNoGroups | project/src/lib/transcription.ts:22 | the single empty sentence of "" yields no group |
| Chunker.SpaceTextOneGroup | project/src/lib/transcription.ts:18-23 | a single non-empty sentence yields exactly one group holding it |
| Chunker.FindBreak | project/src/lib/transcription.ts:7 | the next split point is the first place where whitespace follows `.`, `!` or `?`, or the end |
| Chunker.ChunkTexts | project/src/lib/transcription.ts:15-23 | one chunk per group, each the group's sentences glued with spaces and trimmed |
| Merge.Dedup | project/src/lib/transcription.ts:42-43 | `Array.from(new Set(xs))`: the same elements as `xs`, no repeats, no longer than `xs` |
| Merge.DedupFirstSeen | project/src/lib/transcription.ts:42-43 | the de-duplicated list keeps first-seen order: an element before another in the result occurs in the input before any occurrence of the other |
| Merge.RoundedMean | project/src/lib/transcription.ts:45-47 | `Math.round(sum / n)` rounds half up: `2n·r ≤ 2·sum + n < 2n·(r + 1)` |
| Merge.MeanWithinBounds | project/src/lib/transcription.ts:45-47 | when every temperature lies in `[lo, hi]`, so does the merged one |
| Merge.RoundedMeanBetween | project/src/lib/transcription.ts:45-47 | a rounded mean of a sum between `n·lo` and `n·hi` is between `lo` and `hi` |
| Merge.SumBounds | project/src/lib/transcription.ts:46 | the sum of `n` temperatures in `[lo, hi]` lies in `[n·lo, n·hi]` |
| Merge.RoundedMeanExamples | project/src/lib/transcription.ts:45-47 | temperatures 4 and 8 merge to 6, 4 and 5 to 5, and a sum of -5 over 2 rounds to -2 (half up, not away from zero) |
| Merge.Summaries | project/src/lib/transcription.ts:49-51 | the summaries kept by `.filter(Boolean)` are all non-empty |
| Merge.SummariesEmpty | project/src/lib/transcription.ts:49-51 | no summary is kept exactly when every input's summary is empty |
| Merge.MergedSummaryEmpty | project/src/lib/transcription.ts:49-52 | the merged summary is "" exactly when every input's summary is "" |
| Merge.JoinNonEmpty | project/src/lib/transcription.ts:52 | joining non-empty parts gives "" only for no parts |
| Merge.MergeAnalysisResults | project/src/lib/transcription.ts:29-55 | problems and solutions are the de-duplicated concatenations in input order, the temperature is the rounded mean, the summary the kept summaries joined by a blank line; a non-empty list is required because the source divides by its length; the loop computes the merged analysis that the chunk loop's contract refers to |
| Cleanup.MatchSentences | project/src/lib/transcription.ts:59 | `/[^.!?]+[.!?]+/g`: every match is a run of non-terminators followed by a run of terminators; the matches, concatenated, are exactly the text from its first non-terminator to the end of its last terminator run, so text after the last terminator is dropped; a text with no terminator has no match |
| Cleanup.SentencesEnd | project/src/lib/transcription.ts:59 | the matched text ends where no terminator follows and a terminator precedes (or at 0 when there is none) |
| Cleanup.CountIn | project/src/lib/transcription.ts:68 | the intersection count is at most the first list's length, all of it when every word occurs in the second list, none when none does |
| Cleanup.Similarity | project/src/lib/transcription.ts:62-70 | the similarity lies in `[0, 1]` |
| Cleanup.SimilaritySelf | project/src/lib/transcription.ts:62-70 | `similarity(a, a) = 1` |
| Cleanup.SimilarityLower | project/src/lib/transcription.ts:63-64 | lower-casing either argument first does not change the similarity |
| Cleanup.SimilarityRepeatsCount | project/src/lib/transcription.ts:68-69 | repeats in the first argument count: `similarity("x x", "x y") = 1` |
| Cleanup.SimilarityNotSymmetric | project/src/lib/transcription.ts:68-69 | the other way round `similarity("x y", "x x") = 0.5`, so the measure is not symmetric |
| Cleanup.AnySimilar | project/src/lib/transcription.ts:92-97 | the scan of the used phrases finds one exactly when some used phrase is more than 0.8 similar, and agrees with the recursive `Repeats` |
| Cleanup.SimilarMeans | project/src/lib/transcription.ts:62-70 | the integer test `5 * shared > 4 * max(lengths)` on non-empty word lists holds exactly when `similarity(a, b) > 0.8` |
| Cleanup.ShareAbove | project/src/lib/transcription.ts:69 | a ratio `c / n` is above 0.8 exactly when `5c > 4n` |
| Cleanup.SimilarLower | project/src/lib/transcription.ts:63-64 | lower-casing either phrase first does not change whether the two are similar |
| Cleanup.RepeatsExists | project/src/lib/transcription.ts:92-97 | the recursive search holds exactly when some used phrase is similar to the phrase |
| Cleanup.Candidates | project/src/lib/transcription.ts:88-89 | the candidates at word `i` are its phrases of 1 to 5 words (fewer near the end), the `k`-th being words `i..i+k` joined by a space and lower-cased |
| Cleanup.CheckFromRule | project/src/lib/transcription.ts:88-104 | from any length on, the phrase loop rejects the word exactly when some candidate is similar to a phrase registered before it (the given set plus the shorter candidates already added); on acceptance every candidate is registered, on rejection exactly those before the first similar one |
| Cleanup.CheckPhrases | project/src/lib/transcription.ts:85-104 | the phrase loop of one word: the word is rejected exactly when some length 1..5 has a candidate similar to a registered phrase, counting the shorter candidates added before it; the new registered list is given exactly: all candidates added on acceptance, those before the first similar one on rejection |
| Cleanup.CleanSentence | project/src/lib/transcription.ts:73-112 | the result is `CleanedSentence`: a sentence without words unchanged, otherwise the words whose keep flag is set (the first always, each later one by `WordRule`), joined by single spaces |
| Cleanup.CleanedSentence | project/src/lib/transcription.ts:73-112 | a sentence without words is returned unchanged; otherwise the result starts with the first word |
| Cleanup.WordRule | project/src/lib/transcription.ts:84-108 | a word after the first is dropped exactly when the phrase loop, run on its candidates from the phrases the earlier words registered, finds a candidate similar to a registered phrase |
| Cleanup.KeptWords | project/src/lib/transcription.ts:78-109 | the word loop keeps exactly the words whose keep flag is set, in order |
| Cleanup.WordStep | project/src/lib/transcription.ts:84-109 | one pass of the word loop extends the kept words by word `i` exactly when its flag is set, and the registered phrases to those after word `i` |
| Cleanup.CleanedNonEmpty | project/src/lib/transcription.ts:119 | a matched sentence, trimmed and cleaned, is never empty |
| Cleanup.CleanAllNonEmpty | project/src/lib/transcription.ts:118-119 | no matched sentence cleans to the empty text |
| Cleanup.RepeatsUsed | project/src/lib/transcription.ts:122-128 | a cleaned sentence is a duplicate exactly when it is more than 0.8 similar, lower-cased, to some registered sentence |
| Cleanup.RepeatsKept | project/src/lib/transcription.ts:123-133 | being similar to a registered sentence is the same as being similar to a kept sentence |
| Cleanup.KeepSentence | project/src/lib/transcription.ts:118-134 | one pass of the sentence loop: the sentence cleans to its entry of `CleanAll`, never empty; it is kept exactly when it is not similar to an earlier kept sentence; cleaned texts, keep flags, kept list and registered set (the lower-cased kept sentences) all extend by one |
| Cleanup.CleaningStep | project/src/lib/transcription.ts:119-133 | the loop state after one more sentence, kept or not by the keep rule, is again a valid loop state |
| Cleanup.CleaningDone | project/src/lib/transcription.ts:118-134 | once every sentence has been seen, the cleaned texts are exactly the cleaned matched sentences |
| Cleanup.CleanupTranscription | project/src/lib/transcription.ts:57-137 | the cleaned sentences are the matched sentences (text after the last terminator never is one), each trimmed and cleaned by `CleanedSentence`, none empty; a cleaned sentence is kept exactly when it is at most 0.8 similar to every earlier kept one; the result is the kept ones joined by spaces and trimmed; text with no terminator cleans to "" |
| Cleanup.Share | project/src/lib/transcription.ts:69 | the shared-word ratio lies between 0 and 1 and is 1 exactly when every word is shared |
| Cleanup.Add | project/src/lib/transcription.ts:82-100 | adding to the used phrases keeps every phrase and adds the new one, and nothing else |
| Normalize.PreserveCase | project/src/lib/transcription.ts:163-170 | the replacement's length is kept, and an all-lower-case match gives the replacement unchanged |
| Normalize.PreserveCaseLetters | project/src/lib/transcription.ts:163-170 | whatever the match, the result lower-cases back to the replacement |
| Normalize.PreserveCaseUpper | project/src/lib/transcription.ts:165 | an all-upper-case match gives the upper-cased replacement |
| Normalize.PreserveCaseCapital | project/src/lib/transcription.ts:166-168 | a capitalised match gives the replacement with its first letter upper-cased and the rest unchanged |
| Normalize.ReplaceWordNoAscii | project/src/lib/transcription.ts:176-177 | without `u` flag `\b` sees only ASCII word characters, so a text with none of them is left unchanged by a replacement |
| Normalize.ReplaceWordBetweenAscii | project/src/lib/transcription.ts:176-177 | a Cyrillic word is replaced only between ASCII word characters: `"aдаb"` becomes `"aтакb"` |
| Normalize.ReplaceAllNoAscii | project/src/lib/transcription.ts:175-178 | the whole table leaves a text without ASCII word characters unchanged |
| Normalize.ApplyReplacements | project/src/lib/transcription.ts:175-178 | the loop applies the table entry by entry, and changes nothing in a text without ASCII word characters |
| Normalize.CollapseWs | project/src/lib/transcription.ts:183 | the result has only plain spaces and no two in a row, and starts with a space exactly when the input does |
| Normalize.DropSpaceBeforePunct | project/src/lib/transcription.ts:185 | no whitespace is left before `.`, `,`, `!` or `?`, and single plain spaces stay so |
| Normalize.CollapseQuotesTidy | project/src/lib/transcription.ts:187 | collapsing quote runs keeps a tidy text tidy |
| Normalize.SpaceAfterPunctTidy | project/src/lib/transcription.ts:189 | adding a space after punctuation followed by a letter keeps a tidy text tidy |
| Normalize.CollapsePunctRunsTidy | project/src/lib/transcription.ts:191 | collapsing repeated punctuation keeps a tidy text tidy |
| Normalize.CollapseRepeatedWordsTidy | project/src/lib/transcription.ts:193 | collapsing repeated words keeps a tidy text tidy |
| Normalize.RepeatedWordsExamples | project/src/lib/transcription.ts:193 | `"go go"` collapses to `"go"` but `"Go go"` stays: the back-reference is case-sensitive |
| Normalize.TidyChainTidy | project/src/lib/transcription.ts:181-193 | whatever the input, the chain of replacements leaves single plain spaces and none before punctuation |
| Normalize.TrimTidy | project/src/lib/transcription.ts:194 | trimming keeps a tidy text tidy |
| Normalize.NormalizeTranscription | project/src/lib/transcription.ts:139-197 | the result is the table, then the chain, then trim; it is trimmed, has only plain single spaces, and no whitespace before punctuation |
| Normalize.CollapseQuotes | project/src/lib/transcription.ts:187 | the quote rewrite keeps the first character and empties only an empty text |
| Normalize.CollapseQuotesNoPair | project/src/lib/transcription.ts:187 | the result never contains two quotes in a row |
| Normalize.CollapseQuotesKeeps | project/src/lib/transcription.ts:187 | with quotes removed, result and input are the same text: only quotes are dropped |
| Normalize.CollapseQuotesKeepsSingle | project/src/lib/transcription.ts:187 | a text that never contains two quotes in a row is left unchanged |
| Normalize.CollapseQuotesIdempotent | project/src/lib/transcription.ts:187 | applying the rewrite twice gives the same as once |
| Normalize.SpaceAfterPunct | project/src/lib/transcription.ts:189 | the space insertion keeps the first character and empties only an empty text |
| Normalize.SpaceAfterPunctNoPair | project/src/lib/transcription.ts:189 | the result never contains `.`, `,`, `!` or `?` directly followed by a letter |
| Normalize.SpaceAfterPunctKeeps | project/src/lib/transcription.ts:189 | with plain spaces removed, result and input are the same text: only spaces are added |
| Normalize.SpaceAfterPunctKeepsSpaced | project/src/lib/transcription.ts:189 | a text that never contains `.`, `,`, `!` or `?` directly followed by a letter is left unchanged |
| Normalize.SpaceAfterPunctIdempotent | project/src/lib/transcription.ts:189 | applying the rewrite twice gives the same as once |
| Normalize.CollapsePunctRuns | project/src/lib/transcription.ts:191 | the punctuation-run rewrite keeps the first character and empties only an empty text |
| Normalize.CollapsePunctRunsNoPair | project/src/lib/transcription.ts:191 | the result never contains a punctuation mark followed by the same mark |
| Normalize.CollapsePunctRunsKeeps | project/src/lib/transcription.ts:191 | with punctuation marks removed, result and input are the same text: only punctuation marks are dropped |
| Normalize.CollapsePunctRunsKeepsSingle | project/src/lib/transcription.ts:191 | a text that never contains a punctuation mark followed by the same mark is left unchanged |
| Normalize.CollapsePunctRunsIdempotent | project/src/lib/transcription.ts:191 | applying the rewrite twice gives the same as once |
| Normalize.CollapseRepeatedWords | project/src/lib/transcription.ts:193 | the repeated-word rewrite keeps the first character and empties only an empty text |
| Normalize.RepeatedWordCollapses | project/src/lib/transcription.ts:193 | at a word start, a word followed by whitespace and the same word ending at a word boundary keeps one copy, and the rewrite resumes after the repeats |
| Normalize.RepeatedWordPair | project/src/lib/transcription.ts:193 | for every word `w` and whitespace run `sp`, `w sp w` collapses to `w` |
| Transcribe.BackoffSchedule | project/src/lib/transcription.ts:238-247 | with three attempts the pauses before attempts two and three are 2000 and 4000 ms; the 10000 ms cap is never reached |
| Transcribe.Begin | project/src/lib/transcription.ts:204-233 | a failed sign-in throws its error and a failed validation (no file data, a type not starting with `audio/`, neither API key nor local server) throws its message, both before any write; otherwise the trace is a non-empty prefix of the four setup writes (processing at 0, the start log, processing at 25, the upload log), all four when nothing throws; with working writes a valid call does not throw |
| Transcribe.Attempt | project/src/lib/transcription.ts:249-360 | one request, after which only logs, the 75 per cent update, the completion write and the analysis effects; a failed fetch is thrown as is; with working status and log writes a non-2xx status throws the HTTP error message (JSON `error.message`, else the status; a body that is not JSON always gives the status), and the attempt succeeds exactly when the response is 2xx, JSON and carries a `text`, and the completion write goes through; a success has written a tidy transcript as completed, in Ukrainian, at 100 per cent with the processing time |
| Transcribe.Finish | project/src/lib/transcription.ts:294-360 | after the transcript is in: the attempt fails only when the completion write fails or a log write fails; an analysis error never fails it; a failed completion write throws `Failed to update file status: ` followed by the database error's `message` (`undefined` when it has none), with no further effect |
| Transcribe.AnalysisTry | project/src/lib/transcription.ts:315-353 | the analysis only logs, asks the model and stores analyses of the configured kind; the chunks sent to the model are, in order, a prefix of the chunks of `splitTextForAnalysis` that `analyzeTranscription` sends (those of a non-empty chunk, with analysis on and a complete configuration), all of them when nothing throws, one model reply each; on success the last log is "Analysis completed successfully" and, when some chunk was analysed, the write before it stores `mergeAnalysisResults` of the parsed replies, in order, as the configured kind |
| Transcribe.AnalysisBlock | project/src/lib/transcription.ts:313-357 | an analysis error is logged as "Analysis failed: …" and not rethrown: with working log writes the block never fails |
| Transcribe.LogAnalysisFailure | project/src/lib/transcription.ts:354-357 | the `catch` adds exactly one error log, "Analysis failed: " followed by the error's message (or "Unknown error during analysis" when it is not an `Error`), and throws only when that log write fails |
| Transcribe.AnalyzeChunk | project/src/lib/transcription.ts:320-333 | each chunk first logs "Analyzing part i of n..." (a failing log write throws before anything else); then its error or result is exactly what `analyzeTranscription` gives for the file with this chunk as its transcription, the next model reply and the next write; the chunk is sent to the model exactly when `analyzeTranscription` would send it, using one reply, and a result is the parsed reply |
| Transcribe.AnalyzeNext | project/src/lib/transcription.ts:319-333 | one turn of the chunk loop: when it does not throw, the chunks asked about grow by this chunk exactly when it is sent, and the parsed reply, if any, is appended to the results; when it throws, the chunks asked about stay a prefix of those of the whole loop |
| Transcribe.AnalyzeChunks | project/src/lib/transcription.ts:319-334 | the chunk loop asks about a prefix of the chunks `analyzeTranscription` sends, each using the next model reply; without a failure it asks about all of them and keeps one parsed reply per chunk asked about, in order |
| Transcribe.SaveMerged | project/src/lib/transcription.ts:336-350 | with some chunk analysed, exactly one write is added, storing `mergeAnalysisResults(results)` as `local` or `openai` after the configuration; a failing write is what is thrown; no model request |
| Transcribe.LogDone | project/src/lib/transcription.ts:352 | exactly the "Analysis completed successfully" log is added, and it throws only when that log write fails |
| Transcribe.ChunkAnalysed | project/src/lib/transcription.ts:319-333 | a chunk that was analysed extends the loop state: it joins the chunks asked about, uses the next model reply, and its parsed reply is appended to the results |
| Transcribe.ChunkSkipped | project/src/lib/transcription.ts:319-333 | a chunk `analyzeTranscription` does not send to the model leaves the chunks asked about, the replies used and the results unchanged |
| Transcribe.ChunkStopped | project/src/lib/transcription.ts:319-333 | when a chunk's analysis throws, the chunks asked about so far are a prefix of those the full loop asks about |
| Transcribe.AskedPrefix | project/src/lib/transcription.ts:319-333 | the chunks sent among the first n chunks come first among all chunks sent |
| Transcribe.Chunks | project/src/lib/transcription.ts:316 | the chunks are those of the splitter (sentence split then packing); an empty transcript has no chunk and a short one at most one |
| Transcribe.PostProcess | project/src/lib/transcription.ts:290-291 | cleanup then normalisation leaves a trimmed transcript with single plain spaces and no space before punctuation |
| Transcribe.OneAttempt | project/src/lib/transcription.ts:249-360 | seen from the loop, an attempt makes exactly one request, no pause, and only the allowed checkpoints |
| Transcribe.Announce | project/src/lib/transcription.ts:239-247 | before a repeated attempt k: no request; the warning "Retrying transcription (attempt k+1 of 3)" is logged first, and the pause `min(1000·2^k, 10000)` ms follows exactly when that log write did not throw, the trace being just those one or two effects; with working writes it never throws |
| Transcribe.AnnounceStep | project/src/lib/transcription.ts:239-247 | the trace is extended by exactly the warning for attempt k+1 and, when its log write did not throw, the pause; the warnings logged so far become those for attempts 2 to k+1 and the pauses gain the next back-off |
| Transcribe.NoticesSchedule | project/src/lib/transcription.ts:238-247 | with three attempts the warnings are "Retrying transcription (attempt 2 of 3)" and "Retrying transcription (attempt 3 of 3)" |
| Transcribe.AttemptStep | project/src/lib/transcription.ts:249-379 | an attempt adds one request to the trace; on the last attempt its error, with an abort turned into the time-out, is what the loop keeps |
| Transcribe.Retry | project/src/lib/transcription.ts:235-380 | 1 to 3 requests, the pauses being the back-off schedule for that many, and the warnings those for attempts 2 to n (one per request after the first, plus one more when the last warning's log write threw); with working writes exactly one warning per repeated request, the loop succeeds exactly when some attempt would, and otherwise has made all three and throws the last attempt's error (an abort as the time-out message, a non-2xx as its HTTP message) |
| Transcribe.AnyGoodExists | project/src/lib/transcription.ts:238-380 | "some attempt among the first n would succeed" as a recursive predicate equals the existential statement |
| Transcribe.TryBody | project/src/lib/transcription.ts:203-380 | the outer `try`: a validation error throws with nothing written; with working writes it succeeds exactly when sign-in and validation pass and some attempt would succeed, with one retry warning per request after the first; at most three requests |
| Transcribe.Catch | project/src/lib/transcription.ts:381-389 | the trace so far is kept and extended by the failed status at 0 per cent with the error's message (the unknown-error text when it is not an `Error`), then possibly the error log, with no request or pause; with working writes both are made and the original error is rethrown |
| Transcribe.Recover | project/src/lib/transcription.ts:381-389 | after a `try` that threw: the failure is recorded at the end of the trace; for a validation error the failed status with that message is the first effect and no request was made; with working writes the last two effects are the failed status and the error log, and for a valid call all three attempts were made and the error is the last attempt's (an abort as the time-out message) |
| Transcribe.TranscribeAudio | project/src/lib/transcription.ts:199-390 | at most 3 requests with pauses of 2000 then 4000 ms before the second and third, and before each of them the warning "Retrying transcription (attempt k of 3)" (with working writes exactly one warning per request after the first); every status update is a checkpoint (processing at 0, 25 or 75) or the final failure; success writes the tidy transcript as completed; every failure ends with the failed status at 0 per cent (validation failures included, before any request); with working writes it succeeds exactly when sign-in and validation pass and some attempt would succeed, a failure ends with the failed status and the error log, and an abort of the last request is reported as the time-out |
| AnalysisParse.FindBlank | project/src/lib/analysis.ts:151 | the split of `/\n\n+/` starts at the first blank line (two newlines) at or after the position, or at the end when there is none |
| AnalysisParse.CleanLine | project/src/lib/analysis.ts:161 | the cleaned line is trimmed and, when not empty, no longer starts with a bullet, digit, `.`, `)` or blank |
| AnalysisParse.FirstNumber | project/src/lib/analysis.ts:175 | `section.match(/\d+/)` finds a number exactly when the text holds a digit, and the match is a non-empty run of digits |
| AnalysisParse.ItemsGood | project/src/lib/analysis.ts:160-165 | every collected item is non-empty, trimmed, bullet-free and does not mention the header word |
| AnalysisParse.ItemsComplete | project/src/lib/analysis.ts:160-165 | every line after the header whose cleaned form is non-empty and free of the header word is collected |
| AnalysisParse.ItemsSound | project/src/lib/analysis.ts:160-165 | every collected item is the cleaned form of some line |
| AnalysisParse.CollectItems | project/src/lib/analysis.ts:160-173 | the `forEach` over the lines after the header pushes exactly the items the item specification keeps, in order |
| AnalysisParse.ParseSection | project/src/lib/analysis.ts:155-183 | one pass of the loop body updates the five parse variables as the section step prescribes: problems, else solutions, else a temperature with a number, else a summary |
| AnalysisParse.ParseAnalysisResponse | project/src/lib/analysis.ts:144-197 | the loop over the blank-line-separated sections and the tail compute the parse specification, about which the lemmas below state the promises |
| AnalysisParse.FoldItemsGood | project/src/lib/analysis.ts:154-184 | after any sequence of sections every problem and solution is a good item |
| AnalysisParse.ParsedItemsGood | project/src/lib/analysis.ts:191-196 | the parsed problems and solutions are non-empty, trimmed, bullet-free and free of their header words |
| AnalysisParse.FoldTemperatureDefault | project/src/lib/analysis.ts:147-180 | without a temperature section holding a number the temperature stays 5 and there is no justification |
| AnalysisParse.FoldTemperatureLast | project/src/lib/analysis.ts:174-180 | the temperature is the first number of the last temperature section that has one |
| AnalysisParse.TemperatureDefault | project/src/lib/analysis.ts:147-180 | the parsed temperature defaults to 5 |
| AnalysisParse.TemperatureLastRating | project/src/lib/analysis.ts:174-194 | the parsed temperature is the rating of the last section that rates it |
| AnalysisParse.FoldSummaryEmpty | project/src/lib/analysis.ts:148-183 | without a summary section the summary stays empty |
| AnalysisParse.FoldSummaryLast | project/src/lib/analysis.ts:181-183 | the summary is the joined, trimmed body of the last summary section |
| AnalysisParse.SummaryEmptyWithoutSections | project/src/lib/analysis.ts:181-195 | with neither a summary nor a rated temperature section the parsed summary is empty |
| AnalysisParse.SummaryLastSection | project/src/lib/analysis.ts:181-195 | without a rated temperature section the parsed summary is the last summary section's body joined by spaces and trimmed |
| AnalysisParse.ProblemsHeaderFirst | project/src/lib/analysis.ts:158-166 | a header mentioning problems is handled as problems even when it also mentions solutions, temperature or summary, and only appends its items |
| AnalysisParse.SplitBlank | project/src/lib/analysis.ts:151 | `split(/\n\n+/)` always gives at least one section |
| Analyzer.AnalyzeTranscription | project/src/lib/analysis.ts:4-217 | disabled analysis or an empty transcription returns null with no request; a missing key or local model URL throws its message with no request; otherwise exactly one request; the analysis is written, tagged `local` or `openai`, exactly when the model answers, and is the parse of the answer; the call returns it exactly when that write succeeds, and otherwise rethrows the model or write error |
| Analyzer.AnalyzeSelectedFiles | project/src/lib/analysis.ts:219-234 | the files are analysed in order; it stops at the first file whose analysis throws and rethrows that error, every earlier file having been analysed without error; otherwise all files are analysed |
| Supabase.TryError | project/src/lib/supabase.ts:68-84 | a try ends without error exactly when its sign-in passes and its write returns no error; a sign-in error is the try's error |
| Supabase.FirstSuccess | project/src/lib/supabase.ts:66-96 | the first successful try at or after a given one, every try before it having failed |
| Supabase.Tries | project/src/lib/supabase.ts:66-96 | the retry loop makes between one and three tries |
| Supabase.Waits | project/src/lib/supabase.ts:94 | each pause between tries is one second |
| Supabase.Passed | project/src/lib/supabase.ts:68-80 | the tries whose `ensureAuth` passed, the only ones that send their write |
| Supabase.PassedExactly | project/src/lib/supabase.ts:68-80 | every try whose sign-in passed is listed, in increasing order |
| Supabase.RetryShape | project/src/lib/supabase.ts:66-96 | the write settles without error exactly when one of the three tries succeeds; it stops at the first success, every earlier try having failed; after three failures it throws the third try's error |
| Supabase.FirstAttemptSucceeds | project/src/lib/supabase.ts:66-85 | a first try that succeeds ends the loop with one write and no pause |
| Supabase.AuthFailureSendsNothing | project/src/lib/supabase.ts:68-80 | a try whose sign-in throws sends no write: a failed first sign-in followed by a good second try makes two tries but one write |
| Supabase.SuccessSent | project/src/lib/supabase.ts:68-85 | a loop that succeeds has sent the write of its last try |
| Supabase.SettledAt | project/src/lib/supabase.ts:66-85 | tries that failed before a successful try `n` make `n + 1` tries in all and the call succeeds |
| Supabase.SettledFailing | project/src/lib/supabase.ts:86-94 | three failed tries make the call throw the third try's error |
| Supabase.RetryWrite | project/src/lib/supabase.ts:64-96 | the loop sends one write per try whose sign-in passed, built for that try; tries stop at the first success, with a one-second pause after every failed try but the last, and the call throws the last error after three failures |
| Supabase.LogTranscriptionEvent | project/src/lib/supabase.ts:61-97 | one row (file, level, message, the time of its own try) is inserted for each try whose sign-in passed; tries, pauses and the thrown error follow the three-try rule |
| Supabase.BuildUpdate | project/src/lib/supabase.ts:111-120 | the update carries the status, the progress and the error (null when absent) and the time, and has a processing time, the current time, exactly when the status is `completed` |
| Supabase.UpdateFileStatus | project/src/lib/supabase.ts:99-143 | one update, built from the arguments and the time of its own try, is sent for each try whose sign-in passed; tries, pauses and the thrown error follow the same three-try rule as the log write |
| Supabase.AuthCache.EnsureAuth | project/src/lib/supabase.ts:14-59 | a cached sign-in returns at once with no call; otherwise the session check, sign-in, sign-up, one-second pause and second sign-in happen as the answers require; a rejected session check is rethrown after that one call; the sign-in stays cached exactly when it succeeded |
| Supabase.AuthTwice | project/src/lib/supabase.ts:12-59 | after a successful sign-in the next call makes no call at all; after a failed one the next call starts over |
| Supabase.AuthFailure | project/src/lib/supabase.ts:21-50 | signing in fails exactly when the session check is rejected, or there is no session, the first sign-in fails, and then the sign-up or the second sign-in fails; the error is that of the last call made; a rejected session check is rethrown as it is, with no other call |
| ExternalDatabase.SyncError | project/src/lib/externalDatabase.ts:34-65 | an answered call raises nothing; an abort and a `FunctionsFetchError` are swallowed; any other error is rethrown unchanged |
| ExternalDatabase.SyncGuard.Start | project/src/lib/externalDatabase.ts:11-22 | within ten seconds of the last start, or while a sync runs, nothing is sent and nothing changes; otherwise the call is sent with the current time, which becomes the last sync time, and a sync is marked running |
| ExternalDatabase.SyncGuard.Settle | project/src/lib/externalDatabase.ts:32-68 | the `finally` clears the running flag whatever the outcome, keeps the last sync time, and the error is classified as above |
| ExternalDatabase.SyncGuard.SyncExternalCalls | project/src/lib/externalDatabase.ts:9-69 | a blocked call changes nothing and raises nothing; an admitted one sends once, leaves no sync running, records its start time, and raises only an error that is neither an abort nor a `FunctionsFetchError` |
| ExternalDatabase.ThrottleAfterSync | project/src/lib/externalDatabase.ts:5-22 | a first call is sent; a second call is dropped; a third is sent exactly when ten seconds have passed since the first |
| ExternalDatabase.PageRange | project/src/lib/externalDatabase.ts:87 | the inclusive range `(page-1)·size … page·size-1` holds exactly `size` rows |
| ExternalDatabase.PagesAdjacent | project/src/lib/externalDatabase.ts:87 | page p+1 starts right after page p ends |
| ExternalDatabase.PagesDisjoint | project/src/lib/externalDatabase.ts:87 | with a positive page size no row is on two pages |
| ExternalDatabase.RowOnPage | project/src/lib/externalDatabase.ts:87 | with a positive page size every row is on page `row / size + 1` |
| ExternalDatabase.MapRow | project/src/lib/externalDatabase.ts:96-111 | a cached call becomes a completed file at 100 per cent, size 0, dated and named by its call date, source and destination, with its recording and transcription and the neutral placeholder analysis |
| ExternalDatabase.MapRows | project/src/lib/externalDatabase.ts:96-111 | the rows are mapped one for one, in order |
| ExternalDatabase.MapRowsIds | project/src/lib/externalDatabase.ts:96-111 | the files carry exactly the ids of the rows |
| ExternalDatabase.SearchFilter | project/src/lib/externalDatabase.ts:81-83 | a search filter is added exactly when the search text is non-empty, and it contains the text |
| ExternalDatabase.Total | project/src/lib/externalDatabase.ts:112 | the total is the count, or 0 when the count is missing or 0 |
| ExternalDatabase.GetExternalCalls | project/src/lib/externalDatabase.ts:71-118 | the query asks for the page's range with the search filter, sorted by `call_date`, newest first; a database error is rethrown; otherwise the rows (none when missing) are mapped and the total is the count or 0 |
| SyncCalls.WithRetry | project/supabase/functions/sync-external-calls/index.ts:17-50 | the retry loop settles as the retry specification says and pauses as the pause specification says, about which the next three lemmas state the promises |
| SyncCalls.RetriedSucceeds | project/supabase/functions/sync-external-calls/index.ts:17-50 | the helper succeeds exactly when one of the three attempts does, and then with that attempt's value; when it fails it throws the third attempt's error |
| SyncCalls.AllAttemptsFail | project/supabase/functions/sync-external-calls/index.ts:17-48 | when all three attempts fail the pauses are 1000 and 2000 ms and the third error is thrown |
| SyncCalls.RetryWaitsCount | project/supabase/functions/sync-external-calls/index.ts:24-27 | at most two pauses, each after an attempt that failed |
| SyncCalls.SettingsAttempt | project/supabase/functions/sync-external-calls/index.ts:37-44 | a settings read succeeds exactly when there is no error and there is a row; a read error is thrown as is, and a missing row throws "No external database settings found" |
| SyncCalls.ToCacheAll | project/supabase/functions/sync-external-calls/index.ts:104-111 | each telephony row becomes one cache record with the same id, date, source, destination, recording and transcription, in order |
| SyncCalls.BatchQuery | project/supabase/functions/sync-external-calls/index.ts:78-92 | the date filter is present exactly when there is a last sync time, which is then the first parameter; the LIMIT placeholder names the batch size 100 and the OFFSET placeholder names the offset, in three or two parameters |
| SyncCalls.LoopBounds | project/supabase/functions/sync-external-calls/index.ts:77-125 | the loop never ends with fewer rows than it had copied, and when every batch honours LIMIT 100 it ends below 1100 |
| SyncCalls.EmptySource | project/supabase/functions/sync-external-calls/index.ts:94-98 | an empty first batch ends the loop with nothing copied |
| SyncCalls.SyncBatches | project/supabase/functions/sync-external-calls/index.ts:72-125 | the loop's result is the batch specification's; query n asks for offset 100·n with the same filter; upsert n writes batch n converted; each upsert follows its query and at most one query goes without upsert |
| SyncCalls.ErrorReply | project/supabase/functions/sync-external-calls/index.ts:154-165 | a caught error answers 500 with `success: false`, no message, and an `error` field exactly when the thrown value has a `message` (an `Error` or a database error object), holding that message |
| SyncCalls.Prepare | project/supabase/functions/sync-external-calls/index.ts:15-52 | the settings are read only after the client is created; the outcome is the client's error, else the settings read's outcome; at most four pauses in all |
| SyncCalls.HandleRequest | project/supabase/functions/sync-external-calls/index.ts:5-167 | a preflight answers `ok` and does nothing; otherwise the reply is 200 exactly when it reports success; the pool is opened exactly when the client and settings are obtained, is always ended, and the connection is released exactly when it was made; on success the message is `Synced N records` with the loop's total; a failed batch or upsert answers with its error; the last sync time is written exactly when a successful sync copied rows |
| App.FindIndex | project/src/App.tsx:63 | `findIndex` gives -1 exactly when no file has the id, and otherwise the first position holding it |
| App.MergePage | project/src/App.tsx:60-71 | the loop over the incoming page computes the merge specification |
| App.UpsertShape | project/src/App.tsx:63-68 | one incoming file replaces the entry with its id in place or is appended: the length grows by one exactly when the id is new, the ids gain the incoming id, the file is in the result, positions keep their ids, and every entry with another id is unchanged |
| App.UpsertSize | project/src/App.tsx:63-68 | one upsert adds one entry exactly when the id is new, and the id set gains that id |
| App.MergedIds | project/src/App.tsx:60-71 | the merged list's ids are the old ids plus the incoming ones |
| App.MergedKeeps | project/src/App.tsx:60-71 | merging keeps the existing order: no entry is lost, every position keeps its id, and entries whose id does not arrive are unchanged |
| App.MergedGrowth | project/src/App.tsx:60-71 | the merged list grows by exactly the number of distinct incoming ids not already present |
| App.MergedGrowsAtEnd | project/src/App.tsx:60-71 | later incoming files only replace or append: the merge of a prefix of the page is a prefix of the full merge, id for id |
| App.MergedLatestWins | project/src/App.tsx:60-71 | the last incoming file with a given id is the one kept |
| App.PageCount | project/src/App.tsx:72 | `ceil(total / 25)`: the pages cover the total and the last page is not empty |
| App.View.ApplyPage | project/src/App.tsx:59-73 | a non-empty page is merged into the list and sets the page count from the total; an empty page changes nothing |
| App.Count | project/src/App.tsx:174-177 | a status count never exceeds the number of files |
| App.CountsSum | project/src/App.tsx:174-177 | the four status counts sum to the number of files |
| App.TimedAreCompleted | project/src/App.tsx:179-181 | only completed files contribute a processing time, and with none the total time is 0 |
| App.CalculateStats | project/src/App.tsx:172-190 | the average processing time is 0 when no completed file has a time, and otherwise times their number gives the total |
| App.QueueTab | project/src/App.tsx:436 | the queue tab holds exactly the pending and processing files |
| App.CompletedTab | project/src/App.tsx:444 | the completed tab holds exactly the completed and failed files |
| App.TabsPartition | project/src/App.tsx:436-444 | the two tabs together hold every file exactly once |
| App.CheckDuplicateFile | project/src/App.tsx:196-204 | a duplicate is reported only when the query answered with a non-failed row of that name, and one is found whenever such a row exists |
| App.FirstLive | project/src/App.tsx:196-204 | the first row of that name that has not failed: it is one of the rows, named so and not failed, and every row before it has another name or has failed; none exactly when no such row exists |
| App.CountersOvercount | project/src/App.tsx:216-287 | every file adds one to a counter except a failed transcription, which adds two errors, so the counters exceed the number of files by the failed transcriptions |
| App.Summary | project/src/App.tsx:290-297 | a summary toast appears exactly when some counter is positive; its icon is ✅ exactly when something succeeded; it opens with the success count, or is only the error count |
| App.SummaryMessage | project/src/App.tsx:291-294 | the message opens with the success part when there is one, else it is the error part alone |
| App.SummaryParts | project/src/App.tsx:291-293 | the parts list is empty exactly when both counters are 0 and holds the success part first |
| App.InsertSent | project/src/App.tsx:220-245 | a file's insert is sent exactly when it is audio and no live row has its name; the row sent has the file's name and size, path and status `pending`, progress 0 and the user's id |
| App.ProcessAudioFiles | project/src/App.tsx:206-302 | a failed sign-in processes nothing and shows no summary; without API key or local server nothing is processed and the settings tab opens; otherwise every file meets its fate in order (wrong type, duplicate, failed insert, no row, transcribed or failed transcription), the counters are the fates' tallies and the summary is derived from them |
| StatsDashboard.TotalFilesCountsEveryFile | project/src/components/StatsDashboard.tsx:18 | the dashboard's total, the sum of the four status counts, is the number of files |
| StatsDashboard.RenderAll | project/src/components/StatsDashboard.tsx:28-30 | each part is rendered with its unit, one string per part, in order |
| StatsDashboard.BuildValue | project/src/components/StatsDashboard.tsx:23-30 | the parts built from hours, minutes and seconds add up to `h·3600 + m·60 + s` |
| StatsDashboard.SplitSeconds | project/src/components/StatsDashboard.tsx:23-25 | the split gives minutes below 60 and recombines to the seconds |
| StatsDashboard.AmountsUnique | project/src/components/StatsDashboard.tsx:23-25 | with minutes and seconds below 60 the split of a duration is unique |
| StatsDashboard.FormatTime | project/src/components/StatsDashboard.tsx:20-33 | 0 renders as `0с`; otherwise the parts, hours then minutes then seconds with zero hours and minutes omitted and at least one part, add up to the seconds, and the text is the parts joined by spaces |
| StatsDashboard.FormatTimeExample | project/src/components/StatsDashboard.tsx:20-33 | 5401 seconds render as `1год 30хв 1с` |
| StatsDashboard.PartsOf5401 | project/src/components/StatsDashboard.tsx:23-30 | the only well-formed parts worth 5401 seconds are one hour, thirty minutes and one second |
| StatsDashboard.CanonicalUnique | project/src/components/StatsDashboard.tsx:23-30 | two well-formed part lists with the same value are equal, so the rendering is determined by the duration |
| StatsDashboard.ZeroText | project/src/components/StatsDashboard.tsx:21 | the single part `0с` is well formed and worth zero |
| StatsDashboard.SuccessRate | project/src/components/StatsDashboard.tsx:35-38 | 0 when nothing has finished, otherwise the completed share of the finished files times 100, and always between 0 and 100 |
| StatsDashboard.WithTemperature | project/src/components/StatsDashboard.tsx:72 | only files with an analysis, hence a temperature, are kept |
| StatsDashboard.InBand | project/src/components/StatsDashboard.tsx:88-93 | a bucket holds only files whose temperature falls in its band |
| StatsDashboard.BandsPartition | project/src/components/StatsDashboard.tsx:88-93 | the low (≤ 4), medium (between 4 and 7) and high (≥ 7) buckets hold every file exactly once |
| StatsDashboard.Mean | project/src/components/StatsDashboard.tsx:85-86 | the average times the number of files is the sum |
| StatsDashboard.ComputeTemperatureStats | project/src/components/StatsDashboard.tsx:52-118 | with no file that has a temperature every figure is 0 and the list is empty; otherwise the bucket sizes add up to the total, the average is the mean temperature, and the list is every file with a temperature for `all` or the chosen bucket |
| StatsDashboard.ColoursFollowBands | project/src/components/StatsDashboard.tsx:40-50 | the red, yellow and green text colours and backgrounds are chosen exactly for the low, medium and high bands |
| FileList.Toggle | project/src/components/FileList.tsx:44-62 | toggling flips the membership of the given id and leaves every other id as it was |
| FileList.ToggleTwice | project/src/components/FileList.tsx:44-62 | toggling the same id twice restores the set |
| FileList.FileListState.ToggleTranscription | project/src/components/FileList.tsx:44-52 | the expanded set is toggled at the id; the selection and the analysing flag are unchanged |
| FileList.FileListState.ToggleFileSelection | project/src/components/FileList.tsx:54-62 | the selection is toggled at the id; the expanded set and the analysing flag are unchanged |
| FileList.FileListState.ToggleAllFiles | project/src/components/FileList.tsx:64-70 | when the selection is as large as the list (sizes only) it is cleared, otherwise it becomes exactly the list's ids |
| FileList.SelectAllRoundTrip | project/src/components/FileList.tsx:64-70 | on a non-empty list with distinct ids, select-all from nothing selects every id and a second click clears the selection |
| FileList.SelectedFiles | project/src/components/FileList.tsx:77 | the files sent for analysis are selected files of the list, no more of them than the list has |
| FileList.SelectedFromList | project/src/components/FileList.tsx:77 | the files sent for analysis are taken from the list, each at most as often as it is listed |
| FileList.SelectedIds | project/src/components/FileList.tsx:77 | their ids are exactly the listed ids that are selected |
| FileList.DistinctIds | project/src/components/FileList.tsx:64-70 | with distinct ids the id set is as large as the list |
| FileList.FileListState.HandleAnalyzeSelected | project/src/components/FileList.tsx:72-88 | without a configuration nothing happens; otherwise the selected files, in list order, are analysed with analysis switched on: every file before the failing one (every file, on success) had its analysis done, and an error is the one `analyzeTranscription` gave for the file that failed; the analysing flag ends cleared, the selection is cleared exactly on success and otherwise left as it was |
| FileList.NavigationStaysInRange | project/src/components/FileList.tsx:307-325 | from a page in range an enabled arrow leads to a page in range, and on a single page both arrows are disabled |
| FileList.ExpandToggles | project/src/components/FileList.tsx:44-52 | a file that is not completed never shows its body; for a completed file a toggle flips whether the body shows, and two toggles restore it |
| FileList.ListColoursFollowBands | project/src/components/FileList.tsx:103-107 | the list's red, yellow and green colours mark the same low, medium and high bands as the statistics page |
| Excel.JsRem60 | project/src/lib/excel.ts:8 | JavaScript's `% 60`: the remainder has the dividend's sign, is below 60 in size, and differs from the dividend by a multiple of 60 |
| Excel.PadStart | project/src/lib/excel.ts:8 | `padStart(n, c)` keeps the text at the end and fills up to length n with c in front |
| Excel.ParseLeadingZeros | project/src/lib/excel.ts:8 | zero padding does not change the number the digits read as |
| Excel.SecondsDigits | project/src/lib/excel.ts:8 | the seconds of a positive duration are two digits reading as its remainder by 60 |
| Excel.DurationCell | project/src/lib/excel.ts:8 | `Невідомо` exactly when the duration is absent or zero; otherwise a text with a colon |
| Excel.DurationReadsBack | project/src/lib/excel.ts:8 | a positive duration renders as minutes, a colon and two digits, and minutes times 60 plus the digits is the duration |
| Excel.AnalysisLines | project/src/lib/excel.ts:11-22 | the analysis lines are `Проблеми:`, one `- p` per problem, a blank, `Рішення:`, one `- s` per solution, a blank, the temperature line `Температура розмови: T/10`, a blank, `Короткий зміст:` and the summary |
| Excel.Bullets | project/src/lib/excel.ts:13-16 | one `- item` line per item, in order |
| Excel.AnalysisCell | project/src/lib/excel.ts:11-22 | `Аналіз відсутній` without an analysis, otherwise the joined lines, which open with `Проблеми:` |
| Excel.ToRow | project/src/lib/excel.ts:6-23 | a file's row holds its name, its duration cell, its date, its transcription or `''` when missing, and its analysis cell |
| Excel.ToRows | project/src/lib/excel.ts:6 | one row per file, in the same order |
| Excel.LongestCell | project/src/lib/excel.ts:31-34 | the longest cell of a column bounds every cell and is the length of one of them, or 0 |
| Excel.Longest | project/src/lib/excel.ts:31-34 | the loop over the rows finds the longest cell of the column |
| Excel.ColumnWidth | project/src/lib/excel.ts:30-36 | the loop computes a column's width as `min(max(header length, longest cell), 100)` |
| Excel.WidthsFit | project/src/lib/excel.ts:30-37 | every width is at most 100, fits its header, fits every cell up to 100, and below 100 is the header's length or some cell's exactly |
| Excel.ColumnWidths | project/src/lib/excel.ts:30-39 | an empty list throws the `TypeError` of `Object.keys(undefined)`, `data[0]` being `undefined`; otherwise five widths, one per column |
| Excel.ExportToExcel | project/src/lib/excel.ts:3-42 | an empty list throws a `TypeError`; otherwise the workbook, sheet `Транскрибації` in `transcriptions.xlsx`, holds one row per file in order and five column widths of at most 100 |
| Types.MessageOr | project/src/lib/transcription.ts:355 | `error instanceof Error ? error.message : fallback`: the message of an `Error`, the fallback for anything else, a database error object included |
| Types.MessageField | project/supabase/functions/sync-external-calls/index.ts:159 | `error.message` without a type test: present exactly when the thrown value has a message, and then that message |
| Types.ShownMessage | project/src/lib/transcription.ts:308 | `${error.message}` in a template: the message when there is one, else `undefined` |
| Text.Lower | project/src/lib/transcription.ts:63-64 | `toLowerCase()` maps each character to its lower case, keeping the length |
| Text.LowerLower | project/src/lib/transcription.ts:124 | lowering twice is lowering once |
| Text.Upper | project/src/lib/transcription.ts:165 | `toUpperCase()` maps each character to its upper case, keeping the length |
| Text.Trim | project/src/lib/transcription.ts:194 | `trim()` gives a trimmed text no longer than the input, empty exactly for an all-blank input, and leaves a trimmed text alone |
| Text.SplitWs | project/src/lib/transcription.ts:63-64 | `split(/\s+/)` gives at least one piece, none containing whitespace |
| Text.Words | project/src/lib/transcription.ts:75 | `match(/\S+/g)` gives non-empty pieces without whitespace |
| Text.SplitOn | project/src/lib/analysis.ts:155 | `split('\n')` gives at least one piece, none containing the separator |
| Text.NatToString | project/src/App.tsx:292-293 | a count renders as a non-empty run of decimal digits |
| Text.ParseNatToString | project/src/lib/analysis.ts:177 | reading back the digits of a rendered number gives the number |
| Text.ContainsInfix | project/src/lib/externalDatabase.ts:82 | text placed between two strings is contained in the result |

## Left out

- Network, database, realtime channels and server-function calls are not performed. Each is an oracle parameter that says how the call ends, so the model covers every answer the backend could give.
- Timers (`setTimeout`, `setInterval`, the five-minute `AbortController` and the ten-second sync time-out) are not run. A pause is recorded as its length in milliseconds, and a time-out is an outcome of the oracle.
- The clock is a parameter (`now`, `processingTime`, and for the retrying writers `clock(k)`, the time during try `k`). `new Date().toISOString()` is that integer, not a date string.
- Supabase.UpdateFileStatus: `updated_at` and `processing_time` come from two clock reads in the same try (`new Date()` and `Date.now()`). The model uses one reading, `clock(k)`, for both.
- Dates shown to people (`toLocaleString('uk-UA')`, `Intl`) are a `dateLabel` parameter. The day/month time-range filter of the statistics page is not modelled; `StatsDashboard.ComputeTemperatureStats` receives the list after that filter.
- Floating point is not modelled. Processing times, durations and seconds are integers. Similarity, the success rate and averages are exact reals, so no rounding error and no `toFixed` display.
- `StatsDashboard.FormatTime` takes whole seconds; the source also floors a fractional input.
- JavaScript measures string length in UTF-16 code units, while the model counts characters. The two agree on Cyrillic and Latin text, but not on text outside the Basic Multilingual Plane.
- Case mapping is a concrete table for ASCII and Cyrillic (U+0400–U+045F, Ґ/ґ). Other scripts are left unchanged, where full Unicode case mapping would change some of them.
- `parseInt` on a long run of digits loses precision in JavaScript. The model reads any run exactly.
- `ensureAuth` shares one pending promise among concurrent callers. `Supabase.AuthCache` models only the sequential cache: set on success, cleared on failure.
- Supabase.AuthCache.EnsureAuth: a `signInWithPassword` or `signUp` promise that rejects, rather than resolving with an `error`, is not modelled; only the error results and a rejected `getSession` are.
- Toasts, console output and all JSX rendering are not modelled. This covers `getStatusIcon`, `formatDate`, `handleSearch`, `LogViewer` and `Tabs`, which only render.
- `handleFileSelect` and `handleFolderSelect` are not modelled. They only pre-filter audio files and show toasts before calling `processAudioFiles`, which `App.ProcessAudioFiles` models.
- `removeFile` is not modelled; it is one guarded delete and two toasts.
- The polling intervals and realtime subscriptions of the views are not modelled.
- Writing the workbook file (`XLSX.writeFile`, the worksheet encoding) is not modelled. `Excel.ExportToExcel` returns the sheet name, file name, rows and widths as a value. For an empty list `data[0]` is `undefined`, and `Object.keys(undefined)` throws a `TypeError`; that is the `TypeError` outcome.
- The prompt text and the request bodies sent to the language models are not modelled. The model's answer or failure is `Analyzer.LlmReply`; an answer of the wrong shape is a thrown error.
- Transcribe.TranscribeAudio: the exact success condition, and the error log after the failed status, are stated only when every status and log write succeeds. When those writes can fail, only the trace shape, the bounds and the recorded failure are stated.
- Transcribe.Retry: the success condition and the last error are likewise stated only when the status and log writes succeed.
- Merge.MergeAnalysisResults: requires a non-empty list. For an empty list the source computes `NaN` as the temperature, which integers cannot represent. Its only caller (project/src/lib/transcription.ts:336) passes a non-empty list.
- App.ProcessAudioFiles: how `transcribeAudio` ends for each file is an oracle of the upload backend; it is not composed with `Transcribe.TranscribeAudio`. The `user_id` lookup is an oracle answer per file. The in-memory file map and the toasts, the per-file ones and the `Помилка при обробці файлів` error toast after a failed sign-in, are not modelled.
- App.View.ApplyPage: models the state update at the end of `syncData`. The throttled sync and the page fetch before it are `ExternalDatabase.SyncGuard.SyncExternalCalls` and `ExternalDatabase.GetExternalCalls`, and the swallowed errors leave the state unchanged.
- ExternalDatabase.SyncError: a thrown `null` or `undefined` would make `error.name` throw a `TypeError` in the `catch`. The model treats every non-`Error` value as rethrown unchanged.
- SyncCalls.HandleRequest: a rejection of `pool.end()` or `client.release()` is not modelled. The update of `last_sync_at` is recorded as made; its own error is ignored by the source and is not modelled.
- ExternalDatabase.SearchFilter: states that the filter contains the search text, not its full PostgREST syntax.
- Excel.ExportToExcel: states only that the widths are at most 100. Their exact values are stated by `Excel.ColumnWidths`.
- CollapseQuotes: the function's own contract states only the first character and emptiness. What the rewrite does is stated by `CollapseQuotesNoPair`, `CollapseQuotesKeeps`, `CollapseQuotesKeepsSingle` and `CollapseQuotesIdempotent`.
- SpaceAfterPunct: the function's own contract states only the first character and emptiness. That punctuation followed by a letter gains a space is stated by `SpaceAfterPunctNoPair` (no such pair remains) together with `SpaceAfterPunctKeeps` (only spaces are added).
- CollapsePunctRuns: the function's own contract states only the first character and emptiness. That runs of one punctuation mark collapse is stated by `CollapsePunctRunsNoPair` (no mark is followed by itself) together with `CollapsePunctRunsKeeps` (only marks are dropped).
- CollapseRepeatedWords: the function's own contract states only the first character and emptiness. `RepeatedWordCollapses` and `RepeatedWordPair` state the collapse of a repeated word for all inputs. That a word not followed by a copy of itself is passed on unchanged is not stated as a lemma; `RepeatedWordsExamples` shows it for `"Go go"`.
- Idempotence of the whole normaliser is not proved; it is proved only for the rewrites that collapse quotes and punctuation runs and insert a space after punctuation.
