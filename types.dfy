/**
 * The records the application passes around (project/src/types.ts).
 * Timestamps are integers (milliseconds); processing times and durations are
 * whole numbers of seconds.
 */
module Types {

  datatype Option<T> = None | Some(value: T)

  /**
   * A value thrown by JavaScript code: an `Error` with its `name` and
   * `message`; a plain object that has a `message` but is not an `Error`
   * (the `{message, details, hint, code}` records the database client
   * returns as `error`); or some other value without a `message`.
   * `error instanceof Error` holds only for the first.
   */
  datatype Thrown = ErrorValue(name: string, message: string) | PlainError(message: string) | OtherValue

  /** `new Error(message)`. */
  function Raise(message: string): Thrown
  {
    ErrorValue("Error", message)
  }

  /** `error instanceof Error ? error.message : fallback`. */
  function MessageOr(t: Thrown, fallback: string): (m: string)
    ensures t.ErrorValue? ==> m == t.message
    ensures !t.ErrorValue? ==> m == fallback
  {
    if t.ErrorValue? then t.message else fallback
  }

  /** `error.message` read without a type test: absent (`undefined`) when the value has none. */
  function MessageField(t: Thrown): (m: Option<string>)
    ensures m.Some? <==> !t.OtherValue?
    ensures m.Some? ==> m.value == t.message
  {
    match t
    case ErrorValue(_, message) => Some(message)
    case PlainError(message) => Some(message)
    case OtherValue => None
  }

  /** How a template literal shows `error.message`: the text, or `undefined`. */
  function ShownMessage(t: Thrown): (m: string)
    ensures !t.OtherValue? ==> m == t.message
    ensures t.OtherValue? ==> m == "undefined"
  {
    if t.OtherValue? then "undefined" else t.message
  }

  /** How an asynchronous call settles: with a value or by throwing. */
  datatype Outcome<T> = Done(value: T) | Threw(error: Thrown)

  datatype Status = Pending | Processing | Completed | Failed

  datatype Level = Info | Warning | Error

  datatype AnalysisType = OpenAi | Local

  datatype Analysis = Analysis(
    problems: seq<string>,
    solutions: seq<string>,
    temperature: int,
    summary: string)

  datatype AudioFile = AudioFile(
    id: string,
    name: string,
    path: string,
    size: int,
    status: Status,
    language: Option<string>,
    transcription: Option<string>,
    error: Option<string>,
    progress: int,
    processingTime: Option<int>,
    createdAt: int,
    duration: Option<int>,
    analysis: Option<Analysis>,
    analysisType: Option<AnalysisType>)

  datatype AnalysisConfig = AnalysisConfig(
    enabled: bool,
    useLocalModel: bool,
    localModelUrl: string,
    openAiModel: string,
    apiKey: Option<string>)

  datatype TranscriptionConfig = TranscriptionConfig(
    apiKey: string,
    serverUrl: string,
    useLocalServer: bool,
    watchInterval: int,
    analysisConfig: AnalysisConfig)

  /** JavaScript truthiness of an optional string (`undefined` and `''` are falsy). */
  predicate Truthy(s: Option<string>)
  {
    s.Some? && s.value != ""
  }

  /** `Math.pow(2, n)` for a natural exponent. */
  function Pow2(n: nat): (r: nat)
    ensures r >= 1
  {
    if n == 0 then 1 else 2 * Pow2(n - 1)
  }

  function Ids(files: seq<AudioFile>): set<string>
  {
    set k | 0 <= k < |files| :: files[k].id
  }

  /** The ids of a non-empty list: those of its front and the last file's. */
  lemma IdsLast(files: seq<AudioFile>)
    requires |files| > 0
    ensures Ids(files) == Ids(files[..|files| - 1]) + {files[|files| - 1].id}
  {
    IdsSnoc(files[..|files| - 1], files[|files| - 1]);
    assert files == files[..|files| - 1] + [files[|files| - 1]];
  }

  /** Appending a file adds its id. */
  lemma IdsSnoc(files: seq<AudioFile>, f: AudioFile)
    ensures Ids(files + [f]) == Ids(files) + {f.id}
  {
    var all := files + [f];
    assert all[|files|].id == f.id;
    forall x | x in Ids(files)
      ensures x in Ids(all)
    {
      var k :| 0 <= k < |files| && files[k].id == x;
      assert all[k].id == x;
    }
    forall x | x in Ids(all)
      ensures x in Ids(files) + {f.id}
    {
      var k :| 0 <= k < |all| && all[k].id == x;
      if k < |files| {
        assert files[k].id == x;
      }
    }
  }
}
