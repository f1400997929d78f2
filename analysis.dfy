/**
 * Conversation analysis (project/src/lib/analysis.ts): the heuristic parser
 * that turns a language model's free-text answer into an `Analysis`, the
 * configuration guards and outcome of `analyzeTranscription`, and the
 * stop-at-first-failure loop of `analyzeSelectedFiles`.
 *
 * The language model and the database are oracles: the model's reply and
 * the error (if any) of the write that stores the analysis are parameters.
 */
module AnalysisParse {
  import opened Types
  import opened Text

  const ProblemsKey: string := "проблем"
  const SolutionsKey: string := "рішен"
  const TemperatureKey: string := "температур"
  const SummaryKey: string := "короткий зміст"
  const SummaryKey2: string := "підсум"
  const DefaultTemperature: int := 5

  /** First index `j >= i` where a run of at least two newlines starts, or `|s|`. */
  function FindBlank(s: string, i: nat): (j: nat)
    requires i <= |s|
    ensures i <= j <= |s|
    ensures j < |s| ==> j + 1 < |s| && s[j] == '\n' && s[j + 1] == '\n'
    ensures forall k :: i <= k < j && k + 1 < |s| ==> !(s[k] == '\n' && s[k + 1] == '\n')
    decreases |s| - i
  {
    if i + 1 >= |s| then |s|
    else if s[i] == '\n' && s[i + 1] == '\n' then i
    else FindBlank(s, i + 1)
  }

  function SpanNewlines(s: string, i: nat): (j: nat)
    requires i <= |s|
    ensures i <= j <= |s|
    ensures j == |s| || s[j] != '\n'
    decreases |s| - i
  {
    if i < |s| && s[i] == '\n' then SpanNewlines(s, i + 1) else i
  }

  /** `s.split(/\n\n+/)`: the text between runs of two or more newlines. */
  function SplitBlank(s: string): (r: seq<string>)
    ensures |r| >= 1
    decreases |s|
  {
    var i := FindBlank(s, 0);
    if i == |s| then [s] else [s[..i]] + SplitBlank(s[SpanNewlines(s, i)..])
  }

  /** The class `[-*•\d.)\s]` of the bullet-stripping pattern. */
  predicate IsBullet(c: char)
  {
    c == '-' || c == '*' || c == '\U{2022}' || IsDigit(c) || c == '.' || c == ')' || IsSpace(c)
  }

  function SpanBullets(s: string, i: nat): (j: nat)
    requires i <= |s|
    ensures i <= j <= |s|
    ensures forall k :: i <= k < j ==> IsBullet(s[k])
    ensures j == |s| || !IsBullet(s[j])
    decreases |s| - i
  {
    if i < |s| && IsBullet(s[i]) then SpanBullets(s, i + 1) else i
  }

  /** `line.replace(/^[-*•\d.)\s]+/, '').trim()`. */
  function CleanLine(line: string): (r: string)
    ensures Trimmed(r)
    ensures r != "" ==> !IsBullet(r[0])
  {
    var rest := line[SpanBullets(line, 0)..];
    TrimKeepsFirst(rest);
    Trim(rest)
  }

  /** Trimming a text that does not open with a bullet character leaves its first character. */
  lemma TrimKeepsFirst(s: string)
    requires s == "" || !IsBullet(s[0])
    ensures Trim(s) == "" || !IsBullet(Trim(s)[0])
  {
    if s != "" {
      assert !IsSpace(s[0]);
      assert SpanSpace(s, 0) == 0;
    }
  }

  /** An item survives when it is not empty and does not repeat the header word. */
  predicate Keep(cleaned: string, keyword: string)
  {
    cleaned != "" && !Contains(Lower(cleaned), keyword)
  }

  /** The items that the `forEach` over the lines after a header pushes. */
  function Items(lines: seq<string>, keyword: string): (r: seq<string>)
  {
    if |lines| == 0 then []
    else
      var rest := Items(lines[..|lines| - 1], keyword);
      var c := CleanLine(lines[|lines| - 1]);
      if Keep(c, keyword) then rest + [c] else rest
  }

  predicate GoodItem(x: string, keyword: string)
  {
    x != "" && Trimmed(x) && !IsBullet(x[0]) && !Contains(Lower(x), keyword)
  }

  /** Every item is non-empty, trimmed, has no bullet left and does not mention the header word. */
  lemma {:induction false} ItemsGood(lines: seq<string>, keyword: string)
    ensures forall k :: 0 <= k < |Items(lines, keyword)| ==> GoodItem(Items(lines, keyword)[k], keyword)
    decreases |lines|
  {
    if |lines| > 0 {
      ItemsGood(lines[..|lines| - 1], keyword);
    }
  }

  /** Each line whose cleaned form survives the filter is an item (nothing is lost). */
  lemma {:induction false} ItemsComplete(lines: seq<string>, keyword: string, k: nat)
    requires k < |lines| && Keep(CleanLine(lines[k]), keyword)
    ensures CleanLine(lines[k]) in Items(lines, keyword)
    decreases |lines|
  {
    if k < |lines| - 1 {
      ItemsComplete(lines[..|lines| - 1], keyword, k);
    }
  }

  /** And each item is the cleaned form of some line (nothing is invented). */
  lemma {:induction false} ItemsSound(lines: seq<string>, keyword: string, x: string)
    requires x in Items(lines, keyword)
    ensures exists k :: 0 <= k < |lines| && CleanLine(lines[k]) == x
    decreases |lines|
  {
    var front := lines[..|lines| - 1];
    if x in Items(front, keyword) {
      ItemsSound(front, keyword, x);
      var k :| 0 <= k < |front| && CleanLine(front[k]) == x;
      assert lines[k] == front[k];
    } else {
      assert CleanLine(lines[|lines| - 1]) == x;
    }
  }

  /** First index at or after `i` holding an ASCII digit, or `|s|`. */
  function FindDigit(s: string, i: nat): (j: nat)
    requires i <= |s|
    ensures i <= j <= |s|
    ensures forall k :: i <= k < j ==> !IsDigit(s[k])
    ensures j < |s| ==> IsDigit(s[j])
    decreases |s| - i
  {
    if i == |s| || IsDigit(s[i]) then i else FindDigit(s, i + 1)
  }

  function SpanDigits(s: string, i: nat): (j: nat)
    requires i <= |s|
    ensures i <= j <= |s|
    ensures forall k :: i <= k < j ==> IsDigit(s[k])
    ensures j == |s| || !IsDigit(s[j])
    decreases |s| - i
  {
    if i < |s| && IsDigit(s[i]) then SpanDigits(s, i + 1) else i
  }

  /** `s.match(/\d+/)`: the first run of ASCII digits. */
  function FirstNumber(s: string): (r: Option<string>)
    ensures r.Some? <==> exists k :: 0 <= k < |s| && IsDigit(s[k])
    ensures r.Some? ==> |r.value| > 0 && forall k :: 0 <= k < |r.value| ==> IsDigit(r.value[k])
  {
    var i := FindDigit(s, 0);
    if i == |s| then None else Some(s[i..SpanDigits(s, i)])
  }

  /** The lower-cased, trimmed first line of a section. */
  function Header(section: string): string
  {
    Trim(Lower(SplitOn(section, '\n')[0]))
  }

  /** The lines after the header. */
  function Body(section: string): seq<string>
  {
    SplitOn(section, '\n')[1..]
  }

  predicate IsProblems(section: string)
  {
    Contains(Header(section), ProblemsKey)
  }

  predicate IsSolutions(section: string)
  {
    !IsProblems(section) && Contains(Header(section), SolutionsKey)
  }

  predicate IsTemperature(section: string)
  {
    !IsProblems(section) && !Contains(Header(section), SolutionsKey) && Contains(Header(section), TemperatureKey)
  }

  predicate IsSummary(section: string)
  {
    !IsProblems(section) && !Contains(Header(section), SolutionsKey) && !Contains(Header(section), TemperatureKey)
    && (Contains(Header(section), SummaryKey) || Contains(Header(section), SummaryKey2))
  }

  /** A temperature section with a number in it (header included). */
  predicate RatesTemperature(section: string)
  {
    IsTemperature(section) && FirstNumber(section).Some?
  }

  function Rating(section: string): int
    requires RatesTemperature(section)
  {
    ParseDigits(FirstNumber(section).value)
  }

  /** The variables of the parse loop. */
  datatype Draft = Draft(
    problems: seq<string>,
    solutions: seq<string>,
    temperature: int,
    summary: string,
    justification: string)

  /** One iteration of the loop over the sections. */
  function Step(d: Draft, section: string): Draft
  {
    if IsProblems(section) then d.(problems := d.problems + Items(Body(section), ProblemsKey))
    else if IsSolutions(section) then d.(solutions := d.solutions + Items(Body(section), SolutionsKey))
    else if IsTemperature(section) then
      (if RatesTemperature(section)
       then d.(temperature := Rating(section), justification := Trim(Join(" ", Body(section))))
       else d)
    else if IsSummary(section) then d.(summary := Trim(Join(" ", Body(section))))
    else d
  }

  function Fold(sections: seq<string>): Draft
  {
    if |sections| == 0 then Draft([], [], DefaultTemperature, "", "")
    else Step(Fold(sections[..|sections| - 1]), sections[|sections| - 1])
  }

  /** The two fixed pieces around the rating in the summary's temperature line. */
  const TemperatureLabel := "\n\nОцінка температури розмови ("
  const TemperatureScale := "/10): "

  /** The tail of the parser: the justification goes after the summary, then everything is trimmed. */
  function Finish(d: Draft): Analysis
  {
    var summary :=
      if d.justification != "" then
        d.summary + TemperatureLabel + IntToString(d.temperature) + TemperatureScale + d.justification
      else d.summary;
    Analysis(d.problems, d.solutions, d.temperature, Trim(summary))
  }

  /** `parseAnalysisResponse(text)` as a value. */
  function Parsed(text: string): Analysis
  {
    Finish(Fold(SplitBlank(text)))
  }

  /** Adding a line adds its cleaned form when it survives, and nothing else. */
  lemma ItemsSnoc(lines: seq<string>, line: string, keyword: string)
    ensures Items(lines + [line], keyword)
            == Items(lines, keyword) + (if Keep(CleanLine(line), keyword) then [CleanLine(line)] else [])
  {
    assert (lines + [line])[..|lines|] == lines;
  }

  /** `lines.slice(1).forEach(...)` pushing the surviving items. */
  method CollectItems(lines: seq<string>, keyword: string) returns (items: seq<string>)
    requires |lines| >= 1
    ensures items == Items(lines[1..], keyword)
  {
    items := [];
    var i := 1;
    while i < |lines|
      invariant 1 <= i <= |lines|
      invariant items == Items(lines[1..i], keyword)
    {
      var cleaned := CleanLine(lines[i]);
      SliceSnoc(lines, 1, i);
      ItemsSnoc(lines[1..i], lines[i], keyword);
      if Keep(cleaned, keyword) {
        items := items + [cleaned];
      }
      i := i + 1;
    }
    assert lines[1..i] == lines[1..];
  }

  /** The body of the loop over the sections: one section applied to the five variables. */
  method ParseSection(problems: seq<string>, solutions: seq<string>, temperature: int, summary: string,
                      justification: string, section: string)
    returns (problems': seq<string>, solutions': seq<string>, temperature': int, summary': string,
             justification': string)
    ensures Draft(problems', solutions', temperature', summary', justification')
            == Step(Draft(problems, solutions, temperature, summary, justification), section)
  {
    problems', solutions', temperature', summary', justification' := problems, solutions, temperature, summary, justification;
    var lines := SplitOn(section, '\n');
    var header := Trim(Lower(lines[0]));
    assert header == Header(section) && lines[1..] == Body(section);
    if Contains(header, ProblemsKey) {
      var items := CollectItems(lines, ProblemsKey);
      problems' := problems + items;
    } else if Contains(header, SolutionsKey) {
      var items := CollectItems(lines, SolutionsKey);
      solutions' := solutions + items;
    } else if Contains(header, TemperatureKey) {
      var number := FirstNumber(section);
      if number.Some? {
        temperature' := ParseDigits(number.value);
        justification' := Trim(Join(" ", lines[1..]));
      }
    } else if Contains(header, SummaryKey) || Contains(header, SummaryKey2) {
      summary' := Trim(Join(" ", lines[1..]));
    }
  }

  /** The parser.  It has no precondition: every text parses. */
  method ParseAnalysisResponse(text: string) returns (a: Analysis)
    ensures a == Parsed(text)
  {
    var problems: seq<string> := [];
    var solutions: seq<string> := [];
    var temperature := DefaultTemperature;
    var summary := "";
    var justification := "";
    var sections := SplitBlank(text);
    var i := 0;
    while i < |sections|
      invariant i <= |sections|
      invariant Draft(problems, solutions, temperature, summary, justification) == Fold(sections[..i])
    {
      assert sections[..i + 1][..i] == sections[..i];
      problems, solutions, temperature, summary, justification :=
        ParseSection(problems, solutions, temperature, summary, justification, sections[i]);
      i := i + 1;
    }
    assert sections[..i] == sections;
    if justification != "" {
      summary := summary + TemperatureLabel + IntToString(temperature) + TemperatureScale + justification;
    }
    a := Analysis(problems, solutions, temperature, Trim(summary));
  }

  /** Every problem and every solution of a draft is a good item. */
  predicate ItemsOk(d: Draft)
  {
    (forall k :: 0 <= k < |d.problems| ==> GoodItem(d.problems[k], ProblemsKey))
    && (forall k :: 0 <= k < |d.solutions| ==> GoodItem(d.solutions[k], SolutionsKey))
  }

  lemma AppendGood(xs: seq<string>, ys: seq<string>, keyword: string)
    requires forall k :: 0 <= k < |xs| ==> GoodItem(xs[k], keyword)
    requires forall k :: 0 <= k < |ys| ==> GoodItem(ys[k], keyword)
    ensures forall k :: 0 <= k < |xs + ys| ==> GoodItem((xs + ys)[k], keyword)
  {
    forall k | 0 <= k < |xs + ys|
      ensures GoodItem((xs + ys)[k], keyword)
    {
      if k >= |xs| {
        assert (xs + ys)[k] == ys[k - |xs|];
      }
    }
  }

  lemma StepItemsOk(d: Draft, section: string)
    requires ItemsOk(d)
    ensures ItemsOk(Step(d, section))
  {
    var next := Step(d, section);
    if IsProblems(section) {
      var more := Items(Body(section), ProblemsKey);
      assert next.problems == d.problems + more && next.solutions == d.solutions;
      ItemsGood(Body(section), ProblemsKey);
      AppendGood(d.problems, more, ProblemsKey);
    } else if IsSolutions(section) {
      var more := Items(Body(section), SolutionsKey);
      assert next.solutions == d.solutions + more && next.problems == d.problems;
      ItemsGood(Body(section), SolutionsKey);
      AppendGood(d.solutions, more, SolutionsKey);
    } else {
      assert next.problems == d.problems && next.solutions == d.solutions;
    }
  }

  /** Problems only ever come from problem sections, solutions from solution sections. */
  lemma {:induction false} FoldItemsGood(sections: seq<string>)
    ensures ItemsOk(Fold(sections))
    decreases |sections|
  {
    if |sections| > 0 {
      FoldItemsGood(sections[..|sections| - 1]);
      StepItemsOk(Fold(sections[..|sections| - 1]), sections[|sections| - 1]);
    }
  }

  /** The parsed lists hold no empty strings and no leftover bullets. */
  lemma ParsedItemsGood(text: string)
    ensures forall k :: 0 <= k < |Parsed(text).problems| ==> GoodItem(Parsed(text).problems[k], ProblemsKey)
    ensures forall k :: 0 <= k < |Parsed(text).solutions| ==> GoodItem(Parsed(text).solutions[k], SolutionsKey)
  {
    FoldItemsGood(SplitBlank(text));
  }

  lemma StepKeepsTemperature(d: Draft, section: string)
    requires !RatesTemperature(section)
    ensures Step(d, section).temperature == d.temperature
    ensures Step(d, section).justification == d.justification
  {
  }

  /** Without a rating section the fold keeps the default temperature and no justification. */
  lemma {:induction false} FoldTemperatureDefault(sections: seq<string>)
    requires forall k :: 0 <= k < |sections| ==> !RatesTemperature(sections[k])
    ensures Fold(sections).temperature == DefaultTemperature && Fold(sections).justification == ""
    decreases |sections|
  {
    if |sections| > 0 {
      var front := sections[..|sections| - 1];
      assert forall k :: 0 <= k < |front| ==> front[k] == sections[k];
      FoldTemperatureDefault(front);
      StepKeepsTemperature(Fold(front), sections[|sections| - 1]);
    }
  }

  /** The temperature of the fold is that of the last rating section. */
  lemma {:induction false} FoldTemperatureLast(sections: seq<string>, k: nat)
    requires k < |sections| && RatesTemperature(sections[k])
    requires forall m :: k < m < |sections| ==> !RatesTemperature(sections[m])
    ensures Fold(sections).temperature == Rating(sections[k])
    decreases |sections|
  {
    var front := sections[..|sections| - 1];
    if k < |sections| - 1 {
      assert forall m :: k < m < |front| ==> front[m] == sections[m];
      FoldTemperatureLast(front, k);
      StepKeepsTemperature(Fold(front), sections[|sections| - 1]);
    }
  }

  /** With no section that rates the conversation, the temperature stays 5. */
  lemma TemperatureDefault(text: string)
    requires forall k :: 0 <= k < |SplitBlank(text)| ==> !RatesTemperature(SplitBlank(text)[k])
    ensures Parsed(text).temperature == DefaultTemperature
  {
    FoldTemperatureDefault(SplitBlank(text));
  }

  /** Otherwise the last rating section decides it, unclamped. */
  lemma TemperatureLastRating(text: string, k: nat)
    requires k < |SplitBlank(text)| && RatesTemperature(SplitBlank(text)[k])
    requires forall m :: k < m < |SplitBlank(text)| ==> !RatesTemperature(SplitBlank(text)[m])
    ensures Parsed(text).temperature == Rating(SplitBlank(text)[k])
  {
    FoldTemperatureLast(SplitBlank(text), k);
  }

  lemma StepKeepsSummary(d: Draft, section: string)
    requires !IsSummary(section)
    ensures Step(d, section).summary == d.summary
  {
  }

  /** Without a summary section the fold's summary stays empty. */
  lemma {:induction false} FoldSummaryEmpty(sections: seq<string>)
    requires forall k :: 0 <= k < |sections| ==> !IsSummary(sections[k])
    ensures Fold(sections).summary == ""
    decreases |sections|
  {
    if |sections| > 0 {
      var front := sections[..|sections| - 1];
      assert forall k :: 0 <= k < |front| ==> front[k] == sections[k];
      FoldSummaryEmpty(front);
      StepKeepsSummary(Fold(front), sections[|sections| - 1]);
    }
  }

  /** A later summary section overwrites an earlier one. */
  lemma {:induction false} FoldSummaryLast(sections: seq<string>, k: nat)
    requires k < |sections| && IsSummary(sections[k])
    requires forall m :: k < m < |sections| ==> !IsSummary(sections[m])
    ensures Fold(sections).summary == Trim(Join(" ", Body(sections[k])))
    decreases |sections|
  {
    var front := sections[..|sections| - 1];
    if k < |sections| - 1 {
      assert forall m :: k < m < |front| ==> front[m] == sections[m];
      FoldSummaryLast(front, k);
      StepKeepsSummary(Fold(front), sections[|sections| - 1]);
    }
  }

  /** A text with neither a summary nor a rating section parses to an empty summary. */
  lemma SummaryEmptyWithoutSections(text: string)
    requires forall k :: 0 <= k < |SplitBlank(text)| ==> !IsSummary(SplitBlank(text)[k]) && !RatesTemperature(SplitBlank(text)[k])
    ensures Parsed(text).summary == ""
  {
    FoldSummaryEmpty(SplitBlank(text));
    FoldTemperatureDefault(SplitBlank(text));
  }

  /** With a summary section but no rating, the summary is the last summary section's body. */
  lemma SummaryLastSection(text: string, k: nat)
    requires k < |SplitBlank(text)| && IsSummary(SplitBlank(text)[k])
    requires forall m :: k < m < |SplitBlank(text)| ==> !IsSummary(SplitBlank(text)[m])
    requires forall m :: 0 <= m < |SplitBlank(text)| ==> !RatesTemperature(SplitBlank(text)[m])
    ensures Parsed(text).summary == Trim(Join(" ", Body(SplitBlank(text)[k])))
  {
    FoldSummaryLast(SplitBlank(text), k);
    FoldTemperatureDefault(SplitBlank(text));
  }

  /** A header mentioning problems claims the section even when it also mentions solutions. */
  lemma ProblemsHeaderFirst(d: Draft, section: string)
    requires IsProblems(section)
    ensures Step(d, section).solutions == d.solutions
    ensures Step(d, section).temperature == d.temperature
    ensures Step(d, section).summary == d.summary
    ensures Step(d, section).problems == d.problems + Items(Body(section), ProblemsKey)
  {
  }
}

/**
 * `analyzeTranscription` and `analyzeSelectedFiles`
 * (project/src/lib/analysis.ts:4-142, 199-234).  The prompt text and the
 * HTTP exchange are not modelled: the reply of the language model is an
 * oracle outcome, and so is the error of the database write.
 */
module Analyzer {
  import opened Types
  import opened Text
  import opened AnalysisParse

  /**
   * What the language model call comes back with: a thrown error (network
   * failure, an unreadable body, an answer of the wrong shape), a non-2xx
   * response with its detail (the body text for the local model, the
   * `error.message` of the JSON body for OpenAI, `""` when absent), or the
   * answer text.
   */
  datatype LlmReply = LlmThrew(error: Thrown) | LlmHttpError(detail: string) | LlmText(text: string)

  /** The analysis write that `updateFileAnalysis` attempts. */
  datatype Saved = Saved(analysis: Analysis, kind: AnalysisType)

  /** Analysis is switched off or there is no transcription: nothing to do. */
  predicate Skips(file: AudioFile, config: AnalysisConfig)
  {
    !config.enabled || !Truthy(file.transcription)
  }

  const MissingKeyMessage := "OpenAI API key is required for analysis when not using local model"
  const MissingUrlMessage := "Local model URL is required when using local model"

  /** The configuration guards, in the order the source checks them. */
  function ConfigError(config: AnalysisConfig): Option<string>
  {
    if !config.useLocalModel && !Truthy(config.apiKey) then
      Some(MissingKeyMessage)
    else if config.useLocalModel && config.localModelUrl == "" then
      Some(MissingUrlMessage)
    else None
  }

  function Kind(config: AnalysisConfig): AnalysisType
  {
    if config.useLocalModel then Local else OpenAi
  }

  /** The error a failed model call turns into. */
  function ReplyError(config: AnalysisConfig, reply: LlmReply): Thrown
    requires !reply.LlmText?
  {
    match reply
    case LlmThrew(e) => e
    case LlmHttpError(detail) =>
      if config.useLocalModel then Raise("Failed to get response from local model: " + detail)
      else Raise("OpenAI API error: " + (if detail == "" then "Unknown error" else detail))
  }

  /** How `analyzeTranscription` settles, given the oracle answers. */
  function Analyzed(file: AudioFile, config: AnalysisConfig, reply: LlmReply, saveError: Option<Thrown>): Outcome<Option<Analysis>>
  {
    if Skips(file, config) then Done(None)
    else if ConfigError(config).Some? then Threw(Raise(ConfigError(config).value))
    else if !reply.LlmText? then Threw(ReplyError(config, reply))
    else if saveError.Some? then Threw(saveError.value)
    else Done(Some(Parsed(reply.text)))
  }

  method AnalyzeTranscription(file: AudioFile, config: AnalysisConfig, reply: LlmReply, saveError: Option<Thrown>)
    returns (r: Outcome<Option<Analysis>>, requested: bool, saved: Option<Saved>)
    ensures r == Analyzed(file, config, reply, saveError)
    ensures Skips(file, config) ==> r == Done(None) && !requested && saved == None
    ensures !Skips(file, config) && ConfigError(config).Some? ==> r.Threw? && !requested && saved == None
    ensures requested <==> !Skips(file, config) && ConfigError(config).None?
    ensures saved.Some? <==> requested && reply.LlmText?
    ensures saved.Some? ==> saved.value == Saved(Parsed(reply.text), Kind(config))
    ensures r.Done? && r.value.Some? <==> saved.Some? && saveError.None?
  {
    requested := false;
    saved := None;
    if !config.enabled || !Truthy(file.transcription) {
      return Done(None), requested, saved;
    }
    if !config.useLocalModel && !Truthy(config.apiKey) {
      return Threw(Raise(MissingKeyMessage)), requested, saved;
    }
    if config.useLocalModel && config.localModelUrl == "" {
      return Threw(Raise(MissingUrlMessage)), requested, saved;
    }
    requested := true;
    if !reply.LlmText? {
      return Threw(ReplyError(config, reply)), requested, saved;
    }
    var analysis := ParseAnalysisResponse(reply.text);
    var kind := if config.useLocalModel then Local else OpenAi;
    saved := Some(Saved(analysis, kind));
    if saveError.Some? {
      return Threw(saveError.value), requested, saved;
    }
    r := Done(Some(analysis));
  }

  /**
   * Analyse the files one after the other; the first failure is rethrown
   * and the remaining files are not touched.  The oracles answer for the
   * file at each position.
   */
  method AnalyzeSelectedFiles(files: seq<AudioFile>, config: AnalysisConfig,
                              replies: nat -> LlmReply, saveErrors: nat -> Option<Thrown>)
    returns (r: Outcome<()>, attempted: nat)
    ensures attempted <= |files|
    ensures r.Done? ==> attempted == |files|
    ensures r.Threw? ==> (attempted >= 1
      && Analyzed(files[attempted - 1], config, replies(attempted - 1), saveErrors(attempted - 1)) == Threw(r.error))
    ensures forall k :: (0 <= k < attempted && (r.Done? || k < attempted - 1)
      ==> Analyzed(files[k], config, replies(k), saveErrors(k)).Done?)
  {
    attempted := 0;
    while attempted < |files|
      invariant attempted <= |files|
      invariant forall k :: 0 <= k < attempted ==> Analyzed(files[k], config, replies(k), saveErrors(k)).Done?
    {
      var outcome, _, _ := AnalyzeTranscription(files[attempted], config, replies(attempted), saveErrors(attempted));
      attempted := attempted + 1;
      if outcome.Threw? {
        return Threw(outcome.error), attempted;
      }
    }
    r := Done(());
  }
}
