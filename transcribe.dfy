/**
 * `transcribeAudio` (project/src/lib/transcription.ts:198-390): validation,
 * progress checkpoints, up to three transcription requests with exponential
 * back-off, post-processing of the transcript, the automatic analysis of its
 * chunks, and the failure path.
 *
 * Nothing is sent anywhere.  The backend is an oracle: the error of each
 * status update, each log write and each analysis write (by call number),
 * the response to each transcription request and the completion write (by
 * attempt number), and the language model's reply to each analysis request
 * (by request number).  What the function does to the outside world is
 * returned as a trace of effects.
 */
module Transcribe {
  import opened Types
  import opened Text
  import Chunker
  import Cleanup
  import Normalize
  import Merge
  import AnalysisParse
  import Analyzer

  const MaxRetries: nat := 3
  const TimeoutMessage: string := "Transcription request timed out after 5 minutes"
  const UnknownMessage: string := "Unknown error occurred"
  const MissingDataMessage: string := "Missing file data"
  const InvalidTypePrefix: string := "Invalid file type: "
  const NoBackendMessage: string := "Please configure API key or local server before uploading files"
  const AnalysisDoneMessage: string := "Analysis completed successfully"
  const AnalysisFailedPrefix: string := "Analysis failed: "

  /** The parts of a JSON body the code looks at, and its `JSON.stringify` form. */
  datatype Json = Json(truthy: bool, errorMessage: Option<string>, text: Option<string>, serialized: string)

  /** A response body: JSON, or a body on which `response.json()` rejects with `parseError`. */
  datatype Body = JsonBody(json: Json) | NotJson(parseError: string)

  /** The outcome of one `fetch`: it throws (an abort included) or a response arrives. */
  datatype FetchOutcome = FetchFailed(error: Thrown) | Responded(status: int, body: Body)

  datatype Backend = Backend(
    authError: Option<Thrown>,
    statusError: nat -> Option<Thrown>,
    logError: nat -> Option<Thrown>,
    fetch: nat -> FetchOutcome,
    saveError: nat -> Option<Thrown>,
    llm: nat -> Analyzer.LlmReply,
    analysisSaveError: nat -> Option<Thrown>)

  /** What the function does to the outside world, in order. */
  datatype Effect =
    | StatusUpdate(status: Status, progress: int, error: Option<string>)
    | LogEvent(level: Level, message: string)
    | Wait(ms: int)
    | Request(attempt: nat)
    | Complete(transcription: string, language: string, progress: int, processingTime: int)
    | AskModel(chunk: string)
    | SaveAnalysis(analysis: Analysis, kind: AnalysisType)

  /** How many calls of each numbered kind have been made so far. */
  datatype Calls = Calls(statuses: nat, logs: nat, requests: nat, saves: nat)

  /** Every status update and every log write succeeds. */
  ghost predicate StoreWorks(b: Backend)
  {
    (forall n :: b.statusError(n).None?) && (forall n :: b.logError(n).None?)
  }

  /** The checks made before anything is written, in source order. */
  function Invalid(fileType: Option<string>, config: TranscriptionConfig): Option<string>
  {
    if fileType.None? then Some(MissingDataMessage)
    else if !StartsWith(fileType.value, "audio/") then Some(InvalidTypePrefix + fileType.value)
    else if !config.useLocalServer && config.apiKey == "" then
      Some(NoBackendMessage)
    else None
  }

  predicate IsOk(status: int)
  {
    200 <= status <= 299
  }

  /** A response the attempt can finish with: 2xx, JSON, truthy, with a string `text`. */
  predicate Usable(o: FetchOutcome)
  {
    o.Responded? && IsOk(o.status) && o.body.JsonBody? && o.body.json.truthy && o.body.json.text.Some?
  }

  /** Attempt `k` succeeds when its response is usable and the completion write goes through. */
  predicate Good(b: Backend, k: nat)
  {
    Usable(b.fetch(k)) && b.saveError(k).None?
  }

  /**
   * The message of a non-2xx response: the JSON `error.message` when it is
   * a non-empty string, else the status.  A body that is not JSON always
   * gives the status: `response.json()` has consumed it, so the fallback
   * `response.text()` rejects, and the empty `catch` keeps the status
   * message.
   */
  function HttpErrorMessage(status: int, body: Body): string
  {
    var fallback := "HTTP error! status: " + IntToString(status);
    match body
    case JsonBody(j) => if j.errorMessage.Some? && j.errorMessage.value != "" then j.errorMessage.value else fallback
    case NotJson(_) => fallback
  }

  /** `lastError`: an abort becomes the time-out error, a thrown non-`Error` the unknown error. */
  function Classify(e: Thrown): Thrown
  {
    match e
    case ErrorValue(name, _) => if name == "AbortError" then Raise(TimeoutMessage) else e
    case PlainError(_) => Raise(UnknownMessage)
    case OtherValue => Raise(UnknownMessage)
  }

  /** `Math.min(1000 * Math.pow(2, attempt), 10000)`. */
  function Backoff(attempt: nat): int
  {
    if 1000 * Pow2(attempt) < 10000 then 1000 * Pow2(attempt) else 10000
  }

  /** The pauses made before attempts 1 .. n-1. */
  function Backoffs(n: nat): seq<int>
  {
    if n <= 1 then [] else Backoffs(n - 1) + [Backoff(n - 1)]
  }

  /** With three attempts the pauses are two and four seconds; the cap is never reached. */
  lemma BackoffSchedule()
    ensures Backoffs(MaxRetries) == [2000, 4000]
  {
    assert Pow2(1) == 2 && Pow2(2) == 4;
  }

  function Requests(trace: seq<Effect>): nat
  {
    if |trace| == 0 then 0 else Requests(trace[..|trace| - 1]) + (if trace[|trace| - 1].Request? then 1 else 0)
  }

  function WaitsOf(trace: seq<Effect>): seq<int>
  {
    if |trace| == 0 then []
    else WaitsOf(trace[..|trace| - 1]) + (if trace[|trace| - 1].Wait? then [trace[|trace| - 1].ms] else [])
  }

  /** The messages of the warning logs in a trace, in order. */
  function WarningsOf(trace: seq<Effect>): seq<string>
  {
    if |trace| == 0 then []
    else WarningsOf(trace[..|trace| - 1]) + (if IsWarning(trace[|trace| - 1]) then [trace[|trace| - 1].message] else [])
  }

  predicate IsWarning(e: Effect)
  {
    e.LogEvent? && e.level == Warning
  }

  /** The warning logged before attempt `attempt`, counting from 0. */
  function Notice(attempt: nat): string
  {
    "Retrying transcription (attempt " + NatToString(attempt + 1) + " of " + NatToString(MaxRetries) + ")"
  }

  /** The warnings logged before attempts 1 .. n-1, in order. */
  function Notices(n: nat): (r: seq<string>)
    ensures |r| == if n == 0 then 0 else n - 1
  {
    if n <= 1 then [] else Notices(n - 1) + [Notice(n - 1)]
  }

  /** With three attempts the warnings announce attempts two and three. */
  lemma NoticesSchedule()
    ensures Notices(MaxRetries) == ["Retrying transcription (attempt 2 of 3)", "Retrying transcription (attempt 3 of 3)"]
  {
    assert NatToString(2) == "2" && NatToString(3) == "3";
    assert Notice(1) == "Retrying transcription (attempt 2 of 3)";
    assert Notice(2) == "Retrying transcription (attempt 3 of 3)";
    assert Notices(MaxRetries) == Notices(2) + [Notice(2)] == [Notice(1), Notice(2)];
  }

  lemma {:induction false} CountsAppend(a: seq<Effect>, b: seq<Effect>)
    ensures Requests(a + b) == Requests(a) + Requests(b)
    ensures WaitsOf(a + b) == WaitsOf(a) + WaitsOf(b)
    ensures WarningsOf(a + b) == WarningsOf(a) + WarningsOf(b)
    decreases |b|
  {
    if |b| > 0 {
      CountsAppend(a, b[..|b| - 1]);
      assert (a + b)[..|a + b| - 1] == a + b[..|b| - 1];
      assert (a + b)[|a + b| - 1] == b[|b| - 1];
    } else {
      assert a + b == a;
    }
  }

  /** A status update the processing path makes: processing at 0, 25 or 75 per cent, no error. */
  predicate Checkpoint(e: Effect)
  {
    e.StatusUpdate? ==> e.status == Processing && e.error.None? && (e.progress == 0 || e.progress == 25 || e.progress == 75)
  }

  predicate Checkpoints(trace: seq<Effect>)
  {
    forall i :: 0 <= i < |trace| ==> Checkpoint(trace[i])
  }

  /** A transcript as `normalizeTranscription` leaves it. */
  predicate Tidy(t: string)
  {
    Trimmed(t) && Normalize.OnlySpaces(t) && Normalize.NoDoubleSpace(t) && Normalize.NoSpaceBeforePunct(t)
  }

  predicate Completes(trace: seq<Effect>, processingTime: int)
  {
    exists i :: 0 <= i < |trace| && trace[i].Complete? && trace[i] == Complete(trace[i].transcription, "uk", 100, processingTime)
      && Tidy(trace[i].transcription)
  }

  /**
   * What the analysis may do: write logs other than warnings, ask the
   * model, store analyses of the configured kind.
   */
  predicate AnalysisEffect(e: Effect, kind: AnalysisType)
  {
    (e.LogEvent? || e.AskModel? || e.SaveAnalysis?) && !IsWarning(e) && (e.SaveAnalysis? ==> e.kind == kind)
  }

  predicate AnalysisEffects(trace: seq<Effect>, kind: AnalysisType)
  {
    forall i :: 0 <= i < |trace| ==> AnalysisEffect(trace[i], kind)
  }

  /**
   * What an attempt does after its request: no further request, no pause,
   * no warning, only the 75 per cent update.
   */
  predicate AttemptEffect(e: Effect)
  {
    !e.Request? && !e.Wait? && !IsWarning(e) && (e.StatusUpdate? ==> e == StatusUpdate(Processing, 75, None))
  }

  /** An effect that is neither a request, nor a pause, nor a warning. */
  predicate Quiet(e: Effect)
  {
    !e.Request? && !e.Wait? && !IsWarning(e)
  }

  lemma {:induction false} QuietCounts(t: seq<Effect>)
    requires forall i :: 0 <= i < |t| ==> Quiet(t[i])
    ensures Requests(t) == 0 && WaitsOf(t) == [] && WarningsOf(t) == []
    decreases |t|
  {
    if |t| > 0 {
      QuietCounts(t[..|t| - 1]);
    }
  }

  /** The chunks `splitTextForAnalysis` cuts a text into. */
  function ChunksOf(text: string): seq<string>
  {
    Chunker.PackFrom(Chunker.SplitSentences(text), 0, [], "")
  }

  /** `splitTextForAnalysis(text)`, seen from the analysis loop. */
  method Chunks(text: string) returns (chunks: seq<string>)
    ensures chunks == ChunksOf(text)
    ensures text == "" ==> chunks == []
    ensures |text| <= Chunker.MaxChunkSize ==> |chunks| <= 1
  {
    ghost var groups;
    chunks, groups := Chunker.SplitTextForAnalysis(text);
  }

  /** The chunks sent to the model in a trace, in order. */
  function AsksOf(trace: seq<Effect>): seq<string>
  {
    if |trace| == 0 then []
    else AsksOf(trace[..|trace| - 1]) + (if trace[|trace| - 1].AskModel? then [trace[|trace| - 1].chunk] else [])
  }

  lemma {:induction false} AsksAppend(a: seq<Effect>, b: seq<Effect>)
    ensures AsksOf(a + b) == AsksOf(a) + AsksOf(b)
    decreases |b|
  {
    if |b| > 0 {
      AsksAppend(a, b[..|b| - 1]);
      assert (a + b)[..|a + b| - 1] == a + b[..|b| - 1];
    } else {
      assert a + b == a;
    }
  }

  /** `analyzeTranscription` sends this chunk to the model: analysis is on, the chunk is not empty, the configuration complete. */
  predicate AsksModel(file: AudioFile, config: AnalysisConfig, chunk: string)
  {
    !Analyzer.Skips(file.(transcription := Some(chunk)), config) && Analyzer.ConfigError(config).None?
  }

  /** The chunks among `chunks` that are sent to the model, in order. */
  function Asked(file: AudioFile, config: AnalysisConfig, chunks: seq<string>): seq<string>
  {
    if |chunks| == 0 then []
    else Asked(file, config, chunks[..|chunks| - 1])
         + (if AsksModel(file, config, chunks[|chunks| - 1]) then [chunks[|chunks| - 1]] else [])
  }

  /** The chunks asked about among the first `n` come first among all those asked about. */
  lemma {:induction false} AskedPrefix(file: AudioFile, config: AnalysisConfig, chunks: seq<string>, n: nat)
    requires n <= |chunks|
    ensures Asked(file, config, chunks[..n]) <= Asked(file, config, chunks)
    decreases |chunks| - n
  {
    if n < |chunks| {
      AskedPrefix(file, config, chunks, n + 1);
      assert chunks[..n + 1][..n] == chunks[..n];
    } else {
      assert chunks[..n] == chunks;
    }
  }

  /** Model replies `from .. from + n - 1` are all texts. */
  predicate RepliesText(b: Backend, from: nat, n: nat)
  {
    forall k :: from <= k < from + n ==> b.llm(k).LlmText?
  }

  /** The analyses `parse` makes of model replies `from .. from + n - 1`. */
  function ParsedReplies(parse: string -> Analysis, b: Backend, from: nat, n: nat): (r: seq<Analysis>)
    requires RepliesText(b, from, n)
    ensures |r| == n
  {
    if n == 0 then [] else ParsedReplies(parse, b, from, n - 1) + [parse(b.llm(from + n - 1).text)]
  }

  /** One more text reply extends the parsed replies by its analysis. */
  lemma RepliesSnoc(parse: string -> Analysis, b: Backend, from: nat, n: nat)
    requires RepliesText(b, from, n) && b.llm(from + n).LlmText?
    ensures RepliesText(b, from, n + 1)
    ensures ParsedReplies(parse, b, from, n + 1) == ParsedReplies(parse, b, from, n) + [parse(b.llm(from + n).text)]
  {
  }

  lemma AnalysisEffectsAppend(t: seq<Effect>, u: seq<Effect>, kind: AnalysisType)
    requires AnalysisEffects(t, kind) && AnalysisEffects(u, kind)
    ensures AnalysisEffects(t + u, kind)
  {
    assert forall i :: |t| <= i < |t + u| ==> (t + u)[i] == u[i - |t|];
  }

  /** The log line announcing the analysis of one chunk. */
  function ProgressLine(part: nat, parts: nat): string
  {
    "Analyzing part " + NatToString(part) + " of " + NatToString(parts) + "..."
  }

  /** The effects of one chunk: its progress log, the model request if made, the analysis write if made. */
  lemma ChunkEffects(progress: Effect, asked: seq<Effect>, stored: seq<Effect>, chunk: string, kind: AnalysisType)
    requires progress.LogEvent? && progress.level == Info
    requires asked == [] || asked == [AskModel(chunk)]
    requires stored == [] || (|stored| == 1 && stored[0].SaveAnalysis? && stored[0].kind == kind)
    ensures AsksOf([progress] + asked + stored) == (if asked == [] then [] else [chunk])
    ensures AnalysisEffects([progress] + asked + stored, kind)
  {
    Single(progress);
    assert AsksOf(asked) == (if asked == [] then [] else [chunk]) by {
      if asked != [] {
        Single(AskModel(chunk));
      }
    }
    assert AsksOf(stored) == [] by {
      if stored != [] {
        Single(stored[0]);
        assert stored == [stored[0]];
      }
    }
    AsksAppend([progress], asked);
    AsksAppend([progress] + asked, stored);
    AnalysisEffectsAppend([progress], asked, kind);
    AnalysisEffectsAppend([progress] + asked, stored, kind);
  }

  /**
   * One turn of the chunk loop: the progress log, then `analyzeTranscription`
   * on the chunk, answered by the next model reply and the next analysis
   * write.
   */
  method AnalyzeChunk(b: Backend, file: AudioFile, config: AnalysisConfig, chunk: string, part: nat, parts: nat, c: Calls)
    returns (err: Option<Thrown>, c2: Calls, trace: seq<Effect>, result: Option<Analysis>)
    ensures c2.statuses == c.statuses && c2.logs == c.logs + 1
    ensures AnalysisEffects(trace, Analyzer.Kind(config))
    ensures |trace| >= 1 && trace[0] == LogEvent(Info, ProgressLine(part, parts))
    ensures b.logError(c.logs).Some? ==> err == b.logError(c.logs) && trace == [trace[0]] && result.None?
    ensures b.logError(c.logs).None? ==>
      var o := Analyzer.Analyzed(file.(transcription := Some(chunk)), config, b.llm(c.requests), b.analysisSaveError(c.saves));
      (o.Threw? ==> err == Some(o.error) && result.None?) && (o.Done? ==> err.None? && result == o.value)
    ensures AsksOf(trace) == (if b.logError(c.logs).None? && AsksModel(file, config, chunk) then [chunk] else [])
    ensures c2.requests == c.requests + |AsksOf(trace)|
    ensures err.None? ==> (result.Some? <==> AsksOf(trace) == [chunk])
    ensures result.Some? ==> b.llm(c.requests).LlmText? && result.value == AnalysisParse.Parsed(b.llm(c.requests).text)
  {
    var progress := LogEvent(Info, ProgressLine(part, parts));
    trace := [progress];
    c2 := c.(logs := c.logs + 1);
    result := None;
    err := b.logError(c.logs);
    if err.Some? {
      return;
    }
    var outcome, requested, saved := Analyzer.AnalyzeTranscription(
      file.(transcription := Some(chunk)), config, b.llm(c2.requests), b.analysisSaveError(c2.saves));
    var asked := if requested then [AskModel(chunk)] else [];
    var stored := if saved.Some? then [SaveAnalysis(saved.value.analysis, saved.value.kind)] else [];
    ChunkEffects(progress, asked, stored, chunk, Analyzer.Kind(config));
    trace := [progress] + asked + stored;
    c2 := c2.(requests := c2.requests + |asked|, saves := c2.saves + |stored|);
    if outcome.Threw? {
      err := Some(outcome.error);
    } else {
      result := outcome.value;
    }
  }

  /**
   * What the chunk loop has done after the first `i` chunks: it asked the
   * model about exactly the chunks among them that `analyzeTranscription`
   * sends, one model reply each, and kept the parsed replies in order.
   */
  ghost predicate Analysed(parse: string -> Analysis, b: Backend, file: AudioFile, config: AnalysisConfig, chunks: seq<string>, c: Calls,
                           i: nat, c2: Calls, trace: seq<Effect>, results: seq<Analysis>)
  {
    && i <= |chunks|
    && c2.statuses == c.statuses && c2.logs >= c.logs
    && AnalysisEffects(trace, Analyzer.Kind(config))
    && AsksOf(trace) == Asked(file, config, chunks[..i])
    && c2.requests == c.requests + |AsksOf(trace)|
    && |results| == |AsksOf(trace)|
    && RepliesText(b, c.requests, |results|)
    && results == ParsedReplies(parse, b, c.requests, |results|)
  }

  /** A chunk that was analysed extends the loop's state by its request and its parsed reply. */
  lemma ChunkAnalysed(parse: string -> Analysis, b: Backend, file: AudioFile, config: AnalysisConfig, chunks: seq<string>, c: Calls,
                      i: nat, c2: Calls, trace: seq<Effect>, results: seq<Analysis>,
                      c3: Calls, more: seq<Effect>, a: Analysis)
    requires Analysed(parse, b, file, config, chunks, c, i, c2, trace, results)
    requires i < |chunks|
    requires c3.statuses == c2.statuses && c3.logs == c2.logs + 1
    requires AnalysisEffects(more, Analyzer.Kind(config))
    requires AsksModel(file, config, chunks[i]) && AsksOf(more) == [chunks[i]]
    requires c3.requests == c2.requests + 1
    requires b.llm(c2.requests).LlmText? && a == parse(b.llm(c2.requests).text)
    ensures Analysed(parse, b, file, config, chunks, c, i + 1, c3, trace + more, results + [a])
  {
    AnalysisEffectsAppend(trace, more, Analyzer.Kind(config));
    AsksStep(file, config, chunks, i, trace, more);
    RepliesStep(parse, b, c.requests, results, a);
  }

  /** A chunk that was not sent to the model leaves the requests and the results as they were. */
  lemma ChunkSkipped(parse: string -> Analysis, b: Backend, file: AudioFile, config: AnalysisConfig, chunks: seq<string>, c: Calls,
                     i: nat, c2: Calls, trace: seq<Effect>, results: seq<Analysis>,
                     c3: Calls, more: seq<Effect>)
    requires Analysed(parse, b, file, config, chunks, c, i, c2, trace, results)
    requires i < |chunks|
    requires c3.statuses == c2.statuses && c3.logs == c2.logs + 1
    requires AnalysisEffects(more, Analyzer.Kind(config))
    requires !AsksModel(file, config, chunks[i]) && AsksOf(more) == []
    requires c3.requests == c2.requests
    ensures Analysed(parse, b, file, config, chunks, c, i + 1, c3, trace + more, results)
  {
    AnalysisEffectsAppend(trace, more, Analyzer.Kind(config));
    AsksStep(file, config, chunks, i, trace, more);
  }

  /** The chunks asked about grow by this chunk exactly when `analyzeTranscription` sends it. */
  lemma AsksStep(file: AudioFile, config: AnalysisConfig, chunks: seq<string>, i: nat, trace: seq<Effect>, more: seq<Effect>)
    requires i < |chunks|
    requires AsksOf(trace) == Asked(file, config, chunks[..i])
    requires AsksOf(more) == (if AsksModel(file, config, chunks[i]) then [chunks[i]] else [])
    ensures AsksOf(trace + more) == Asked(file, config, chunks[..i + 1])
    ensures |AsksOf(trace + more)| == |AsksOf(trace)| + |AsksOf(more)|
  {
    AsksAppend(trace, more);
    Text.PrefixSnoc(chunks, i);
    assert chunks[..i + 1][..i] == chunks[..i];
  }

  /** A parsed reply is the analysis of the next model reply. */
  lemma RepliesStep(parse: string -> Analysis, b: Backend, from: nat, results: seq<Analysis>, a: Analysis)
    requires RepliesText(b, from, |results|)
    requires results == ParsedReplies(parse, b, from, |results|)
    requires b.llm(from + |results|).LlmText? && a == parse(b.llm(from + |results|).text)
    ensures RepliesText(b, from, |results| + 1) && results + [a] == ParsedReplies(parse, b, from, |results| + 1)
  {
    RepliesSnoc(parse, b, from, |results|);
  }

  /** A chunk whose analysis threw leaves the chunks asked about a prefix of those the whole loop would ask about. */
  lemma ChunkStopped(parse: string -> Analysis, b: Backend, file: AudioFile, config: AnalysisConfig, chunks: seq<string>, c: Calls,
                     i: nat, c2: Calls, trace: seq<Effect>, results: seq<Analysis>,
                     logged: bool, c3: Calls, more: seq<Effect>)
    requires Analysed(parse, b, file, config, chunks, c, i, c2, trace, results)
    requires i < |chunks|
    requires AsksOf(more) == (if logged && AsksModel(file, config, chunks[i]) then [chunks[i]] else [])
    requires c3.requests == c2.requests + |AsksOf(more)|
    ensures AsksOf(trace + more) <= Asked(file, config, chunks)
    ensures c3.requests == c.requests + |AsksOf(trace + more)|
  {
    AsksAppend(trace, more);
    Text.PrefixSnoc(chunks, i);
    assert chunks[..i + 1][..i] == chunks[..i];
    AskedPrefix(file, config, chunks, i + 1);
  }

  /** Writes and logs after the loop ask the model about nothing. */
  lemma AsksNothing(trace: seq<Effect>, e: Effect)
    requires !e.AskModel?
    ensures AsksOf(trace + [e]) == AsksOf(trace)
  {
    Single(e);
    AsksAppend(trace, [e]);
  }

  /** With some chunk analysed, the merged analysis is written with the configured type; a failing write is thrown. */
  method SaveMerged(b: Backend, config: AnalysisConfig, results: seq<Analysis>, c: Calls, trace: seq<Effect>)
    returns (err: Option<Thrown>, c2: Calls, trace2: seq<Effect>)
    requires |results| > 0
    requires AnalysisEffects(trace, Analyzer.Kind(config))
    ensures c2 == c.(saves := c.saves + 1) && err == b.analysisSaveError(c.saves)
    ensures trace2 == trace + [SaveAnalysis(Merge.Merged(results), Analyzer.Kind(config))]
    ensures AnalysisEffects(trace2, Analyzer.Kind(config))
    ensures AsksOf(trace2) == AsksOf(trace)
  {
    var merged := Merge.MergeAnalysisResults(results);
    var save := SaveAnalysis(merged, if config.useLocalModel then Local else OpenAi);
    Single(save);
    AnalysisEffectsAppend(trace, [save], Analyzer.Kind(config));
    AsksNothing(trace, save);
    trace2 := trace + [save];
    err := b.analysisSaveError(c.saves);
    c2 := c.(saves := c.saves + 1);
  }

  /** The closing "Analysis completed successfully" log of the `try` block. */
  method LogDone(b: Backend, config: AnalysisConfig, c: Calls, trace: seq<Effect>)
    returns (err: Option<Thrown>, c2: Calls, trace2: seq<Effect>)
    requires AnalysisEffects(trace, Analyzer.Kind(config))
    ensures c2 == c.(logs := c.logs + 1) && err == b.logError(c.logs)
    ensures trace2 == trace + [LogEvent(Info, AnalysisDoneMessage)]
    ensures AnalysisEffects(trace2, Analyzer.Kind(config))
    ensures AsksOf(trace2) == AsksOf(trace)
  {
    var done := LogEvent(Info, AnalysisDoneMessage);
    Single(done);
    AnalysisEffectsAppend(trace, [done], Analyzer.Kind(config));
    AsksNothing(trace, done);
    trace2 := trace + [done];
    err := b.logError(c.logs);
    c2 := c.(logs := c.logs + 1);
  }

  /** The turn of the chunk loop for chunk `i`, carrying the loop's state forward. */
  method AnalyzeNext(b: Backend, file: AudioFile, config: AnalysisConfig, chunks: seq<string>, c: Calls,
                     i: nat, c2: Calls, trace: seq<Effect>, results: seq<Analysis>)
    returns (err: Option<Thrown>, c3: Calls, trace2: seq<Effect>, results2: seq<Analysis>)
    requires Analysed(AnalysisParse.Parsed, b, file, config, chunks, c, i, c2, trace, results)
    requires i < |chunks|
    ensures err.None? ==> Analysed(AnalysisParse.Parsed, b, file, config, chunks, c, i + 1, c3, trace2, results2)
    ensures err.Some? ==>
      && c3.statuses == c.statuses && c3.logs >= c.logs
      && AnalysisEffects(trace2, Analyzer.Kind(config))
      && AsksOf(trace2) <= Asked(file, config, chunks)
      && c3.requests == c.requests + |AsksOf(trace2)|
  {
    ghost var parse := AnalysisParse.Parsed;
    var more, result;
    err, c3, more, result := AnalyzeChunk(b, file, config, chunks[i], i + 1, |chunks|, c2);
    trace2 := trace + more;
    results2 := results;
    if err.Some? {
      ChunkStopped(parse, b, file, config, chunks, c, i, c2, trace, results, b.logError(c2.logs).None?, c3, more);
      AnalysisEffectsAppend(trace, more, Analyzer.Kind(config));
      return;
    }
    if result.Some? {
      ChunkAnalysed(parse, b, file, config, chunks, c, i, c2, trace, results, c3, more, result.value);
      results2 := results + [result.value];
    } else {
      ChunkSkipped(parse, b, file, config, chunks, c, i, c2, trace, results, c3, more);
    }
  }

  /**
   * The loop over the chunks: each is analysed in turn, the first failure
   * ends the loop, and the analyses made are kept in order.
   */
  method AnalyzeChunks(b: Backend, file: AudioFile, config: AnalysisConfig, chunks: seq<string>, c: Calls)
    returns (err: Option<Thrown>, c2: Calls, trace: seq<Effect>, results: seq<Analysis>)
    ensures c2.statuses == c.statuses && c2.logs >= c.logs
    ensures AnalysisEffects(trace, Analyzer.Kind(config))
    ensures AsksOf(trace) <= Asked(file, config, chunks)
    ensures c2.requests == c.requests + |AsksOf(trace)|
    ensures err.None? ==> AsksOf(trace) == Asked(file, config, chunks)
    ensures err.None? ==>
      && |results| == |AsksOf(trace)|
      && RepliesText(b, c.requests, |results|)
      && results == ParsedReplies(AnalysisParse.Parsed, b, c.requests, |results|)
  {
    results := [];
    c2 := c;
    trace := [];
    var i := 0;
    while i < |chunks|
      invariant Analysed(AnalysisParse.Parsed, b, file, config, chunks, c, i, c2, trace, results)
    {
      err, c2, trace, results := AnalyzeNext(b, file, config, chunks, c, i, c2, trace, results);
      if err.Some? {
        return;
      }
      i := i + 1;
    }
    assert chunks[..i] == chunks;
    err := None;
  }

  /** The `try` block of the automatic analysis. */
  method AnalysisTry(b: Backend, file: AudioFile, config: AnalysisConfig, text: string, c: Calls)
    returns (err: Option<Thrown>, c2: Calls, trace: seq<Effect>)
    ensures c2.statuses == c.statuses && c2.logs >= c.logs
    ensures AnalysisEffects(trace, Analyzer.Kind(config))
    ensures err.None? ==> |trace| > 0 && trace[|trace| - 1] == LogEvent(Info, AnalysisDoneMessage)
    ensures AsksOf(trace) <= Asked(file, config, ChunksOf(text))
    ensures c2.requests == c.requests + |AsksOf(trace)|
    ensures err.None? ==> AsksOf(trace) == Asked(file, config, ChunksOf(text))
    ensures err.None? && |AsksOf(trace)| > 0 ==>
      && |trace| >= 2
      && RepliesText(b, c.requests, |AsksOf(trace)|)
      && trace[|trace| - 2]
         == SaveAnalysis(Merge.Merged(ParsedReplies(AnalysisParse.Parsed, b, c.requests, |AsksOf(trace)|)), Analyzer.Kind(config))
  {
    var chunks := Chunks(text);
    var results;
    err, c2, trace, results := AnalyzeChunks(b, file, config, chunks, c);
    if err.Some? {
      return;
    }
    if |results| > 0 {
      err, c2, trace := SaveMerged(b, config, results, c2, trace);
      if err.Some? {
        return;
      }
    }
    err, c2, trace := LogDone(b, config, c2, trace);
  }

  /** The `catch` of the analysis: the failure is logged as "Analysis failed: …". */
  method LogAnalysisFailure(b: Backend, config: AnalysisConfig, failure: Thrown, c: Calls, trace: seq<Effect>)
    returns (err: Option<Thrown>, c2: Calls, trace2: seq<Effect>)
    requires AnalysisEffects(trace, Analyzer.Kind(config))
    ensures c2.statuses == c.statuses && c2.logs == c.logs + 1
    ensures err == b.logError(c.logs)
    ensures AnalysisEffects(trace2, Analyzer.Kind(config))
    ensures trace2 == trace + [LogEvent(Error, AnalysisFailedPrefix + MessageOr(failure, "Unknown error during analysis"))]
    ensures StartsWith(trace2[|trace2| - 1].message, AnalysisFailedPrefix)
  {
    var message := AnalysisFailedPrefix + MessageOr(failure, "Unknown error during analysis");
    assert StartsWith(message, AnalysisFailedPrefix);
    Single(LogEvent(Error, message));
    AnalysisEffectsAppend(trace, [LogEvent(Error, message)], Analyzer.Kind(config));
    trace2 := trace + [LogEvent(Error, message)];
    err := b.logError(c.logs);
    c2 := c.(logs := c.logs + 1);
  }

  /** The analysis with its `catch`: a failure is logged, and only a failing log write escapes. */
  method AnalysisBlock(b: Backend, file: AudioFile, config: AnalysisConfig, text: string, c: Calls)
    returns (err: Option<Thrown>, c2: Calls, trace: seq<Effect>)
    ensures c2.statuses == c.statuses && c2.logs >= c.logs
    ensures AnalysisEffects(trace, Analyzer.Kind(config))
    ensures (forall n :: b.logError(n).None?) ==> err.None?
    ensures err.None? ==> (|trace| > 0 && trace[|trace| - 1].LogEvent?
      && (trace[|trace| - 1].level == Info || StartsWith(trace[|trace| - 1].message, AnalysisFailedPrefix)))
  {
    var failure;
    failure, c2, trace := AnalysisTry(b, file, config, text, c);
    err := None;
    if failure.Some? {
      err, c2, trace := LogAnalysisFailure(b, config, failure.value, c2, trace);
    }
  }

  /** `normalizeTranscription(cleanupTranscription(text))`. */
  method PostProcess(text: string) returns (normalized: string)
    ensures Tidy(normalized)
  {
    var cleaned;
    ghost var sentences, keep;
    cleaned, sentences, keep := Cleanup.CleanupTranscription(text);
    normalized := Normalize.NormalizeTranscription(cleaned);
  }

  /** The body of the inner `try`: one request and, when it answers usably, the whole completion. */
  method Attempt(b: Backend, file: AudioFile, config: TranscriptionConfig, k: nat, processingTime: int, c: Calls)
    returns (err: Option<Thrown>, c2: Calls, trace: seq<Effect>)
    ensures |trace| >= 1 && trace[0] == Request(k)
    ensures forall i :: 1 <= i < |trace| ==> AttemptEffect(trace[i])
    ensures c2.statuses >= c.statuses && c2.logs >= c.logs
    ensures b.fetch(k).FetchFailed? ==> err == Some(b.fetch(k).error)
    ensures StoreWorks(b) && b.fetch(k).Responded? && !IsOk(b.fetch(k).status)
      ==> err == Some(Raise(HttpErrorMessage(b.fetch(k).status, b.fetch(k).body)))
    ensures StoreWorks(b) ==> (err.None? <==> Good(b, k))
    ensures err.None? ==> Completes(trace, processingTime)
  {
    trace := [Request(k)];
    c2 := c;
    var response := b.fetch(k);
    if response.FetchFailed? {
      return Some(response.error), c2, trace;
    }
    trace := trace + [StatusUpdate(Processing, 75, None)];
    var statusFailure := b.statusError(c2.statuses);
    c2 := c2.(statuses := c2.statuses + 1);
    if statusFailure.Some? {
      return statusFailure, c2, trace;
    }
    if !IsOk(response.status) {
      return Some(Raise(HttpErrorMessage(response.status, response.body))), c2, trace;
    }
    if !response.body.JsonBody? {
      return Some(ErrorValue("SyntaxError", response.body.parseError)), c2, trace;
    }
    var json := response.body.json;
    if !json.truthy || json.text.None? {
      return Some(Raise("Invalid response format: " + json.serialized)), c2, trace;
    }
    var normalized := PostProcess(json.text.value);
    trace := trace + [Complete(normalized, "uk", 100, processingTime)];
    ghost var done := trace;
    assert Completes(done, processingTime) by {
      assert done[2] == Complete(normalized, "uk", 100, processingTime);
    }
    var rest;
    err, c2, rest := Finish(b, file, config, k, normalized, c2);
    trace := trace + rest;
    assert trace[2] == done[2];
  }

  /**
   * The end of an attempt once the transcript is in: store it, log the
   * success, and run the automatic analysis when it is switched on.
   */
  method Finish(b: Backend, file: AudioFile, config: TranscriptionConfig, k: nat, normalized: string, c: Calls)
    returns (err: Option<Thrown>, c2: Calls, trace: seq<Effect>)
    ensures forall i :: 0 <= i < |trace| ==> AttemptEffect(trace[i])
    ensures c2.statuses >= c.statuses && c2.logs >= c.logs
    ensures err.None? ==> b.saveError(k).None?
    ensures StoreWorks(b) && b.saveError(k).None? ==> err.None?
    ensures b.saveError(k).Some? ==>
      err == Some(Raise("Failed to update file status: " + ShownMessage(b.saveError(k).value))) && trace == []
  {
    trace := [];
    c2 := c;
    var updateError := b.saveError(k);
    if updateError.Some? {
      return Some(Raise("Failed to update file status: " + ShownMessage(updateError.value))), c2, trace;
    }
    trace := trace + [LogEvent(Info, "Transcription completed successfully")];
    var logged := b.logError(c2.logs);
    c2 := c2.(logs := c2.logs + 1);
    if logged.Some? {
      return logged, c2, trace;
    }
    if config.analysisConfig.enabled {
      trace := trace + [LogEvent(Info, "Starting automatic analysis...")];
      logged := b.logError(c2.logs);
      c2 := c2.(logs := c2.logs + 1);
      if logged.Some? {
        return logged, c2, trace;
      }
      var analysisFailure, c3, more := AnalysisBlock(b, file, config.analysisConfig, normalized, c2);
      trace := trace + more;
      c2 := c3;
      if analysisFailure.Some? {
        return analysisFailure, c2, trace;
      }
    }
    err := None;
  }

  lemma Single(e: Effect)
    ensures Requests([e]) == (if e.Request? then 1 else 0)
    ensures WaitsOf([e]) == (if e.Wait? then [e.ms] else [])
    ensures WarningsOf([e]) == (if IsWarning(e) then [e.message] else [])
    ensures AsksOf([e]) == (if e.AskModel? then [e.chunk] else [])
  {
    assert [e][..0] == [];
  }

  /** An attempt's effects hold its one request and no pause. */
  lemma AttemptCounts(t: seq<Effect>, k: nat)
    requires |t| >= 1 && t[0] == Request(k)
    requires forall i :: 1 <= i < |t| ==> AttemptEffect(t[i])
    ensures Requests(t) == 1 && WaitsOf(t) == [] && WarningsOf(t) == [] && Checkpoints(t)
  {
    assert t == [t[0]] + t[1..];
    QuietCounts(t[1..]);
    CountsAppend([t[0]], t[1..]);
    Single(t[0]);
  }

  lemma CheckpointsAppend(t: seq<Effect>, u: seq<Effect>)
    requires Checkpoints(t) && Checkpoints(u)
    ensures Checkpoints(t + u)
  {
    assert forall i :: |t| <= i < |t + u| ==> (t + u)[i] == u[i - |t|];
  }

  /** A request ended by the five-minute abort. */
  predicate IsAbort(o: FetchOutcome)
  {
    o.FetchFailed? && o.error.ErrorValue? && o.error.name == "AbortError"
  }

  /** The four writes made before the first request. */
  function Setup(file: AudioFile): seq<Effect>
  {
    [StatusUpdate(Processing, 0, None),
     LogEvent(Info, "Starting transcription for " + file.name),
     StatusUpdate(Processing, 25, None),
     LogEvent(Info, "Uploading file " + file.name + " to transcription service...")]
  }

  lemma CompletesAppend(t: seq<Effect>, u: seq<Effect>, processingTime: int)
    requires Completes(u, processingTime)
    ensures Completes(t + u, processingTime)
  {
    var i :| 0 <= i < |u| && u[i].Complete? && u[i] == Complete(u[i].transcription, "uk", 100, processingTime)
      && Tidy(u[i].transcription);
    assert (t + u)[|t| + i] == u[i];
  }

  /** Sign-in, validation, and the two checkpoints with their logs. */
  method Begin(file: AudioFile, fileType: Option<string>, config: TranscriptionConfig, b: Backend)
    returns (thrown: Option<Thrown>, c: Calls, trace: seq<Effect>)
    ensures Requests(trace) == 0 && WaitsOf(trace) == [] && WarningsOf(trace) == [] && Checkpoints(trace)
    ensures b.authError.Some? ==> thrown == b.authError && trace == []
    ensures b.authError.None? && Invalid(fileType, config).Some? ==>
      thrown == Some(Raise(Invalid(fileType, config).value)) && trace == []
    ensures b.authError.None? && Invalid(fileType, config).None? ==>
      1 <= |trace| <= 4 && trace == Setup(file)[..|trace|]
    ensures thrown.None? ==> trace == Setup(file) && c == Calls(2, 2, 0, 0)
    ensures StoreWorks(b) && b.authError.None? && Invalid(fileType, config).None? ==> thrown.None?
  {
    c := Calls(0, 0, 0, 0);
    trace := [];
    if b.authError.Some? {
      return b.authError, c, trace;
    }
    if fileType.None? {
      return Some(Raise(MissingDataMessage)), c, trace;
    }
    if !StartsWith(fileType.value, "audio/") {
      return Some(Raise(InvalidTypePrefix + fileType.value)), c, trace;
    }
    if !config.useLocalServer && config.apiKey == "" {
      return Some(Raise(NoBackendMessage)), c, trace;
    }
    var setup := Setup(file);
    QuietCounts(setup[..1]);
    QuietCounts(setup[..2]);
    QuietCounts(setup[..3]);
    QuietCounts(setup);
    trace := setup[..1];
    if b.statusError(0).Some? {
      return b.statusError(0), Calls(1, 0, 0, 0), trace;
    }
    trace := setup[..2];
    if b.logError(0).Some? {
      return b.logError(0), Calls(1, 1, 0, 0), trace;
    }
    trace := setup[..3];
    if b.statusError(1).Some? {
      return b.statusError(1), Calls(2, 1, 0, 0), trace;
    }
    trace := setup;
    if b.logError(1).Some? {
      return b.logError(1), Calls(2, 2, 0, 0), trace;
    }
    c := Calls(2, 2, 0, 0);
    thrown := None;
  }

  /** One attempt, seen from the retry loop. */
  method OneAttempt(b: Backend, file: AudioFile, config: TranscriptionConfig, k: nat, processingTime: int, c: Calls)
    returns (err: Option<Thrown>, c2: Calls, t: seq<Effect>)
    ensures Requests(t) == 1 && WaitsOf(t) == [] && WarningsOf(t) == [] && Checkpoints(t)
    ensures err.None? ==> Completes(t, processingTime)
    ensures StoreWorks(b) ==> (err.None? <==> Good(b, k))
    ensures b.fetch(k).FetchFailed? ==> err == Some(b.fetch(k).error)
    ensures StoreWorks(b) && b.fetch(k).Responded? && !IsOk(b.fetch(k).status)
      ==> err == Some(Raise(HttpErrorMessage(b.fetch(k).status, b.fetch(k).body)))
  {
    err, c2, t := Attempt(b, file, config, k, processingTime, c);
    AttemptCounts(t, k);
  }

  /** Before a repeated attempt: the warning, then the back-off pause. */
  method Announce(b: Backend, attempt: nat, c: Calls) returns (err: Option<Thrown>, c2: Calls, t: seq<Effect>)
    ensures |t| >= 1 && t[0] == LogEvent(Warning, Notice(attempt))
    ensures t == [LogEvent(Warning, Notice(attempt))] + (if err.None? then [Wait(Backoff(attempt))] else [])
    ensures err == b.logError(c.logs) && c2 == c.(logs := c.logs + 1)
    ensures Requests(t) == 0 && Checkpoints(t)
    ensures WaitsOf(t) == (if err.None? then [Backoff(attempt)] else [])
    ensures WarningsOf(t) == [Notice(attempt)]
    ensures StoreWorks(b) ==> err.None?
  {
    var warning := LogEvent(Warning, Notice(attempt));
    err := b.logError(c.logs);
    c2 := c.(logs := c.logs + 1);
    var pauses := if err.None? then [Wait(Backoff(attempt))] else [];
    Single(warning);
    Single(Wait(Backoff(attempt)));
    CountsAppend([warning], pauses);
    t := [warning] + pauses;
  }

  lemma AppendAssoc<T>(a: seq<T>, b: seq<T>, c: seq<T>)
    ensures a + (b + c) == a + b + c
  {
  }

  lemma BackoffsNext(n: nat)
    requires n >= 1
    ensures Backoffs(n + 1) == Backoffs(n) + [Backoff(n)]
    ensures Notices(n + 1) == Notices(n) + [Notice(n)]
  {
  }

  /** Some attempt among the first `n` would succeed. */
  predicate AnyGood(b: Backend, n: nat)
  {
    n > 0 && (AnyGood(b, n - 1) || Good(b, n - 1))
  }

  lemma {:induction false} AnyGoodExists(b: Backend, n: nat)
    ensures AnyGood(b, n) <==> exists k :: 0 <= k < n && Good(b, k)
  {
    if n > 0 {
      AnyGoodExists(b, n - 1);
    }
  }

  lemma {:induction false} AnyGoodGrows(b: Backend, m: nat, n: nat)
    requires m <= n && AnyGood(b, m)
    ensures AnyGood(b, n)
    decreases n - m
  {
    if m < n {
      AnyGoodGrows(b, m + 1, n);
    }
  }

  /** How the loop's error relates to the last attempt's response, when the store works. */
  predicate LastError(b: Backend, thrown: Option<Thrown>)
  {
    var last := b.fetch(MaxRetries - 1);
    (last.FetchFailed? ==> thrown == Some(Classify(last.error)))
    && (last.Responded? && !IsOk(last.status) ==> thrown == Some(Raise(HttpErrorMessage(last.status, last.body))))
  }

  /** The warning and the pause before a repeated attempt, added to the trace so far. */
  method AnnounceStep(b: Backend, attempt: nat, c: Calls, trace: seq<Effect>)
    returns (logged: Option<Thrown>, c2: Calls, trace2: seq<Effect>)
    requires attempt >= 1
    requires Requests(trace) == attempt && WaitsOf(trace) == Backoffs(attempt) && Checkpoints(trace)
    requires WarningsOf(trace) == Notices(attempt)
    ensures trace2 == trace + [LogEvent(Warning, Notice(attempt))]
                            + (if logged.None? then [Wait(Backoff(attempt))] else [])
    ensures Requests(trace2) == attempt && Checkpoints(trace2)
    ensures WaitsOf(trace2) == Backoffs(if logged.None? then attempt + 1 else attempt)
    ensures WarningsOf(trace2) == Notices(attempt + 1)
    ensures StoreWorks(b) ==> logged.None?
  {
    var t1;
    logged, c2, t1 := Announce(b, attempt, c);
    CountsAppend(trace, t1);
    CheckpointsAppend(trace, t1);
    BackoffsNext(attempt);
    AppendAssoc(trace, [LogEvent(Warning, Notice(attempt))], if logged.None? then [Wait(Backoff(attempt))] else []);
    trace2 := trace + t1;
  }

  /** One attempt, added to the trace so far. */
  method AttemptStep(b: Backend, file: AudioFile, config: TranscriptionConfig, attempt: nat, processingTime: int,
                     c: Calls, trace: seq<Effect>)
    returns (err: Option<Thrown>, c2: Calls, trace2: seq<Effect>)
    requires Requests(trace) == attempt && WaitsOf(trace) == Backoffs(attempt + 1) && Checkpoints(trace)
    requires WarningsOf(trace) == Notices(attempt + 1)
    ensures Requests(trace2) == attempt + 1 && WaitsOf(trace2) == Backoffs(attempt + 1) && Checkpoints(trace2)
    ensures WarningsOf(trace2) == Notices(attempt + 1)
    ensures err.None? ==> Completes(trace2, processingTime)
    ensures StoreWorks(b) ==> (err.None? <==> Good(b, attempt))
    ensures StoreWorks(b) && attempt == MaxRetries - 1 && err.Some? ==> LastError(b, Some(Classify(err.value)))
  {
    var t;
    err, c2, t := OneAttempt(b, file, config, attempt, processingTime, c);
    CountsAppend(trace, t);
    CheckpointsAppend(trace, t);
    if err.None? {
      CompletesAppend(trace, t, processingTime);
    }
    trace2 := trace + t;
  }

  /**
   * The retry loop: up to three attempts; before attempts two and three a
   * warning is logged and the back-off is waited out.  An error of the last
   * attempt is what the loop throws, an abort turned into the time-out.
   */
  method Retry(file: AudioFile, config: TranscriptionConfig, b: Backend, processingTime: int, c0: Calls)
    returns (thrown: Option<Thrown>, c: Calls, trace: seq<Effect>)
    ensures 1 <= Requests(trace) <= MaxRetries
    ensures WaitsOf(trace) == Backoffs(Requests(trace))
    ensures Checkpoints(trace)
    ensures WarningsOf(trace) == Notices(Requests(trace))
      || (thrown.Some? && WarningsOf(trace) == Notices(Requests(trace) + 1))
    ensures StoreWorks(b) ==> WarningsOf(trace) == Notices(Requests(trace))
    ensures thrown.None? ==> Completes(trace, processingTime)
    ensures StoreWorks(b) ==> (thrown.None? <==> AnyGood(b, MaxRetries))
    ensures StoreWorks(b) && thrown.Some? ==> Requests(trace) == MaxRetries && LastError(b, thrown)
  {
    c := c0;
    trace := [];
    thrown := None;
    var attempt := 0;
    while attempt < MaxRetries
      invariant attempt <= MaxRetries
      invariant Requests(trace) == attempt && WaitsOf(trace) == Backoffs(attempt)
      invariant WarningsOf(trace) == Notices(attempt)
      invariant Checkpoints(trace)
      invariant attempt < MaxRetries ==> thrown.None?
      invariant attempt == MaxRetries ==> thrown.Some?
      invariant StoreWorks(b) ==> !AnyGood(b, attempt)
      invariant StoreWorks(b) && attempt == MaxRetries ==> LastError(b, thrown)
    {
      if attempt > 0 {
        var logged;
        logged, c, trace := AnnounceStep(b, attempt, c, trace);
        if logged.Some? {
          return logged, c, trace;
        }
      }
      var err;
      err, c, trace := AttemptStep(b, file, config, attempt, processingTime, c, trace);
      if err.None? {
        assert StoreWorks(b) ==> AnyGood(b, MaxRetries) by {
          if StoreWorks(b) {
            AnyGoodGrows(b, attempt + 1, MaxRetries);
          }
        }
        return None, c, trace;
      }
      if attempt == MaxRetries - 1 {
        thrown := Some(Classify(err.value));
      }
      attempt := attempt + 1;
    }
  }

  /** The status update the outer `catch` makes: failed, at zero per cent, with the message. */
  predicate IsFailure(e: Effect)
  {
    e.StatusUpdate? && e.status == Failed && e.progress == 0 && e.error.Some?
  }

  /** The trace ends with the failed status, possibly followed by the error log. */
  predicate FailureRecorded(trace: seq<Effect>)
  {
    (|trace| >= 1 && IsFailure(trace[|trace| - 1]))
    || (|trace| >= 2 && IsFailure(trace[|trace| - 2]) && trace[|trace| - 1].LogEvent? && trace[|trace| - 1].level == Error)
  }

  /** What `catch` adds to a trace of checkpoints: the failure, possibly its log, and nothing else. */
  lemma CaughtShape(tried: seq<Effect>, trace: seq<Effect>, failed: Effect)
    requires Checkpoints(tried) && IsFailure(failed)
    requires |tried| + 1 <= |trace| <= |tried| + 2 && trace[..|tried|] == tried && trace[|tried|] == failed
    requires |trace| == |tried| + 2 ==> trace[|tried| + 1].LogEvent? && trace[|tried| + 1].level == Error
    ensures forall i :: 0 <= i < |trace| ==> Checkpoint(trace[i]) || IsFailure(trace[i])
    ensures FailureRecorded(trace)
    ensures tried == [] ==> trace[0] == failed
  {
    assert forall i :: 0 <= i < |tried| ==> trace[i] == tried[i];
  }

  /** The outer `try`: `Begin`, then the retry loop. */
  method TryBody(file: AudioFile, fileType: Option<string>, config: TranscriptionConfig, b: Backend, processingTime: int)
    returns (thrown: Option<Thrown>, c: Calls, trace: seq<Effect>)
    ensures Requests(trace) <= MaxRetries
    ensures WaitsOf(trace) == Backoffs(Requests(trace))
    ensures WarningsOf(trace) == Notices(Requests(trace))
      || (thrown.Some? && WarningsOf(trace) == Notices(Requests(trace) + 1))
    ensures StoreWorks(b) ==> WarningsOf(trace) == Notices(Requests(trace))
    ensures Checkpoints(trace)
    ensures thrown.None? ==> Completes(trace, processingTime)
    ensures b.authError.None? && Invalid(fileType, config).Some? ==>
      thrown == Some(Raise(Invalid(fileType, config).value)) && trace == []
    ensures StoreWorks(b) ==>
      (thrown.None? <==> b.authError.None? && Invalid(fileType, config).None? && AnyGood(b, MaxRetries))
    ensures StoreWorks(b) && thrown.Some? && b.authError.None? && Invalid(fileType, config).None? ==>
      Requests(trace) == MaxRetries && LastError(b, thrown)
  {
    var begun;
    thrown, c, begun := Begin(file, fileType, config, b);
    trace := begun;
    if thrown.None? {
      var more;
      thrown, c, more := Retry(file, config, b, processingTime, c);
      CountsAppend(begun, more);
      CheckpointsAppend(begun, more);
      trace := begun + more;
      if thrown.None? {
        CompletesAppend(begun, more, processingTime);
      }
    }
  }

  /** The outer `catch`: record the failure, then rethrow unless a write failed first. */
  method Catch(b: Backend, thrown: Thrown, c: Calls, trace: seq<Effect>) returns (r: Thrown, trace2: seq<Effect>)
    ensures |trace| + 1 <= |trace2| <= |trace| + 2 && trace2[..|trace|] == trace
    ensures trace2[|trace|] == StatusUpdate(Failed, 0, Some(MessageOr(thrown, UnknownMessage)))
    ensures |trace2| == |trace| + 2 ==> trace2[|trace| + 1] == LogEvent(Error, MessageOr(thrown, UnknownMessage))
    ensures Requests(trace2) == Requests(trace) && WaitsOf(trace2) == WaitsOf(trace)
    ensures WarningsOf(trace2) == WarningsOf(trace)
    ensures StoreWorks(b) ==> r == thrown && |trace2| == |trace| + 2
  {
    var message := MessageOr(thrown, UnknownMessage);
    var failure := StatusUpdate(Failed, 0, Some(message));
    var report := LogEvent(Error, message);
    Single(failure);
    Single(report);
    CountsAppend(trace, [failure]);
    trace2 := trace + [failure];
    var statusError := b.statusError(c.statuses);
    if statusError.Some? {
      return statusError.value, trace2;
    }
    CountsAppend(trace2, [report]);
    trace2 := trace2 + [report];
    var logError := b.logError(c.logs);
    r := if logError.Some? then logError.value else thrown;
  }

  /**
   * `transcribeAudio`.  Whatever the `try` throws is recorded as a failed
   * status and an error log and then rethrown; a failure of either write
   * escapes in its place.
   */
  method TranscribeAudio(file: AudioFile, fileType: Option<string>, config: TranscriptionConfig, b: Backend,
                         processingTime: int)
    returns (r: Option<Thrown>, trace: seq<Effect>)
    ensures Requests(trace) <= MaxRetries
    ensures WaitsOf(trace) == Backoffs(Requests(trace))
    ensures WarningsOf(trace) == Notices(Requests(trace)) || WarningsOf(trace) == Notices(Requests(trace) + 1)
    ensures StoreWorks(b) ==> WarningsOf(trace) == Notices(Requests(trace))
    ensures forall i :: 0 <= i < |trace| ==> Checkpoint(trace[i]) || IsFailure(trace[i])
    ensures r.None? ==> Checkpoints(trace) && Completes(trace, processingTime)
    ensures r.Some? ==> FailureRecorded(trace)
    ensures b.authError.None? && Invalid(fileType, config).Some? ==>
      Requests(trace) == 0 && |trace| >= 1 && trace[0] == StatusUpdate(Failed, 0, Invalid(fileType, config))
    ensures StoreWorks(b) ==>
      (r.None? <==> b.authError.None? && Invalid(fileType, config).None? && AnyGood(b, MaxRetries))
    ensures StoreWorks(b) && r.Some? ==>
      (|trace| >= 2 && trace[|trace| - 2..] == [StatusUpdate(Failed, 0, Some(MessageOr(r.value, UnknownMessage))),
                                               LogEvent(Error, MessageOr(r.value, UnknownMessage))])
    ensures StoreWorks(b) && r.Some? && b.authError.None? && Invalid(fileType, config).None? ==>
      Requests(trace) == MaxRetries && LastError(b, r)
    ensures (StoreWorks(b) && r.Some? && b.authError.None? && Invalid(fileType, config).None?
             && IsAbort(b.fetch(MaxRetries - 1))) ==> r == Some(Raise(TimeoutMessage))
  {
    var thrown, c, tried := TryBody(file, fileType, config, b, processingTime);
    trace := tried;
    if thrown.None? {
      assert WarningsOf(trace) == Notices(Requests(trace));
      return None, trace;
    }
    var rethrown;
    rethrown, trace := Recover(fileType, config, b, thrown.value, c, tried);
    r := Some(rethrown);
  }

  /** The failure path of `transcribeAudio`: the `catch` after a `try` that threw. */
  method Recover(fileType: Option<string>, config: TranscriptionConfig, b: Backend, thrown: Thrown, c: Calls,
                 tried: seq<Effect>)
    returns (r: Thrown, trace: seq<Effect>)
    requires Requests(tried) <= MaxRetries && WaitsOf(tried) == Backoffs(Requests(tried)) && Checkpoints(tried)
    requires WarningsOf(tried) == Notices(Requests(tried)) || WarningsOf(tried) == Notices(Requests(tried) + 1)
    requires StoreWorks(b) ==> WarningsOf(tried) == Notices(Requests(tried))
    requires b.authError.None? && Invalid(fileType, config).Some? ==>
      thrown == Raise(Invalid(fileType, config).value) && tried == []
    requires StoreWorks(b) ==> !(b.authError.None? && Invalid(fileType, config).None? && AnyGood(b, MaxRetries))
    requires StoreWorks(b) && b.authError.None? && Invalid(fileType, config).None? ==>
      Requests(tried) == MaxRetries && LastError(b, Some(thrown))
    ensures Requests(trace) <= MaxRetries
    ensures WaitsOf(trace) == Backoffs(Requests(trace))
    ensures WarningsOf(trace) == Notices(Requests(trace)) || WarningsOf(trace) == Notices(Requests(trace) + 1)
    ensures StoreWorks(b) ==> WarningsOf(trace) == Notices(Requests(trace))
    ensures forall i :: 0 <= i < |trace| ==> Checkpoint(trace[i]) || IsFailure(trace[i])
    ensures FailureRecorded(trace)
    ensures b.authError.None? && Invalid(fileType, config).Some? ==>
      Requests(trace) == 0 && |trace| >= 1 && trace[0] == StatusUpdate(Failed, 0, Invalid(fileType, config))
    ensures StoreWorks(b) ==>
      (|trace| >= 2 && trace[|trace| - 2..] == [StatusUpdate(Failed, 0, Some(MessageOr(r, UnknownMessage))),
                                               LogEvent(Error, MessageOr(r, UnknownMessage))])
    ensures StoreWorks(b) && b.authError.None? && Invalid(fileType, config).None? ==>
      Requests(trace) == MaxRetries && LastError(b, Some(r))
    ensures (StoreWorks(b) && b.authError.None? && Invalid(fileType, config).None?
             && IsAbort(b.fetch(MaxRetries - 1))) ==> r == Raise(TimeoutMessage)
  {
    r, trace := Catch(b, thrown, c, tried);
    CaughtShape(tried, trace, StatusUpdate(Failed, 0, Some(MessageOr(thrown, UnknownMessage))));
  }
}
