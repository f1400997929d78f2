/**
 * The spreadsheet export (project/src/lib/excel.ts): one row of five text
 * cells per file, and the width of each column.  Writing the workbook is
 * I/O and is not modelled; `dateLabel` stands for
 * `toLocaleString('uk-UA')`.
 */
module Excel {
  import opened Types
  import opened Text

  const SheetName: string := "Транскрибації"
  const FileName: string := "transcriptions.xlsx"
  const MaxColumnWidth: int := 100
  const Unknown: string := "Невідомо"

  /** The column headers, in the order of the row object's keys. */
  const Headers: seq<string> := ["Назва файлу", "Тривалість дзвінка", "Дата транскрибації", "Транскрибація", "Аналіз дзвінка"]

  /** One spreadsheet row. */
  datatype Row = Row(name: string, duration: string, date: string, transcription: string, analysis: string)

  function Cell(row: Row, column: nat): string
    requires column < 5
  {
    match column
    case 0 => row.name
    case 1 => row.duration
    case 2 => row.date
    case 3 => row.transcription
    case 4 => row.analysis
  }

  /** `a % 60` as JavaScript computes it: the remainder takes the sign of the dividend. */
  function JsRem60(a: int): (r: int)
    ensures a >= 0 ==> 0 <= r < 60
    ensures a < 0 ==> -60 < r <= 0
    ensures (a - r) % 60 == 0
  {
    if a >= 0 then a % 60 else -((-a) % 60)
  }

  /** `s.padStart(n, c)` with a one-character pad. */
  function PadStart(s: string, n: nat, c: char): (r: string)
    ensures |r| == if |s| >= n then |s| else n
    ensures r[|r| - |s|..] == s
    ensures forall k :: 0 <= k < |r| - |s| ==> r[k] == c
    decreases n - |s|
  {
    if |s| >= n then s
    else
      var r := PadStart([c] + s, n, c);
      PadOneMore(r, s, c);
      r
  }

  /** A padding of `[c] + s` is a padding of `s` with one more `c`. */
  lemma PadOneMore(r: string, s: string, c: char)
    requires |r| >= |s| + 1 && r[|r| - |s| - 1..] == [c] + s
    requires forall k :: 0 <= k < |r| - |s| - 1 ==> r[k] == c
    ensures r[|r| - |s|..] == s
    ensures forall k :: 0 <= k < |r| - |s| ==> r[k] == c
  {
    var m := |r| - |s| - 1;
    assert r[m] == ([c] + s)[0];
    assert r[m + 1..] == r[m..][1..];
  }

  /** The two-digit seconds of a duration cell. */
  function SecondsText(d: int): string
  {
    PadStart(IntToString(JsRem60(d)), 2, '0')
  }

  lemma ColonAfter(a: string, b: string)
    ensures ':' in a + ":" + b
  {
    assert (a + ":" + b)[|a|] == ':';
  }

  lemma UnknownHasNoColon()
    ensures ':' !in Unknown
  {
  }

  /** The duration cell: `m:ss` for a truthy duration, `Невідомо` otherwise. */
  function DurationCell(duration: Option<int>): (r: string)
    ensures r == Unknown <==> duration.None? || duration.value == 0
    ensures r != Unknown ==> ':' in r
  {
    if duration.Some? && duration.value != 0 then
      var d := duration.value;
      var minutes := IntToString(d / 60);
      var cell := minutes + ":" + SecondsText(d);
      ColonAfter(minutes, SecondsText(d));
      UnknownHasNoColon();
      cell
    else Unknown
  }

  predicate AllDigits(s: string)
  {
    forall k :: 0 <= k < |s| ==> IsDigit(s[k])
  }

  /** Leading zeros do not change what a string of digits reads as. */
  lemma {:induction false} ParseLeadingZeros(s: string, n: nat)
    requires forall k :: 0 <= k < |s| ==> IsDigit(s[k])
    ensures forall k :: 0 <= k < |PadStart(s, n, '0')| ==> IsDigit(PadStart(s, n, '0')[k])
    ensures ParseDigits(PadStart(s, n, '0')) == ParseDigits(s)
    decreases n - |s|
  {
    if |s| < n {
      ParseZeroPrefix(s);
      ParseLeadingZeros(['0'] + s, n);
    }
  }

  lemma {:induction false} ParseZeroPrefix(s: string)
    requires forall k :: 0 <= k < |s| ==> IsDigit(s[k])
    ensures forall k :: 0 <= k < |['0'] + s| ==> IsDigit((['0'] + s)[k])
    ensures ParseDigits(['0'] + s) == ParseDigits(s)
    decreases |s|
  {
    if |s| > 0 {
      var t := ['0'] + s;
      assert t[..|t| - 1] == ['0'] + s[..|s| - 1];
      ParseZeroPrefix(s[..|s| - 1]);
    }
  }

  /** The seconds of a positive duration are two digits reading as its remainder by 60. */
  lemma SecondsDigits(d: int)
    requires d > 0
    ensures |SecondsText(d)| == 2 && AllDigits(SecondsText(d))
    ensures ParseDigits(SecondsText(d)) == d % 60
  {
    var seconds := NatToString(d % 60);
    assert SecondsText(d) == PadStart(seconds, 2, '0');
    assert |seconds| <= 2 by {
      if d % 60 >= 10 {
        assert NatToString(d % 60) == NatToString(d % 60 / 10) + [DigitChar(d % 60 % 10)];
      }
    }
    ParseLeadingZeros(seconds, 2);
    ParseNatToString(d % 60);
  }

  /**
   * A positive duration reads back: the cell is the minutes, a colon and two
   * digits, and minutes times sixty plus those digits is the duration.
   */
  lemma DurationReadsBack(d: int)
    requires d > 0
    ensures DurationCell(Some(d)) == NatToString(d / 60) + ":" + SecondsText(d)
    ensures |SecondsText(d)| == 2 && AllDigits(SecondsText(d))
    ensures ParseDigits(NatToString(d / 60)) * 60 + ParseDigits(SecondsText(d)) == d
  {
    var m := d / 60;
    assert m >= 0;
    assert IntToString(m) == NatToString(m);
    assert DurationCell(Some(d)) == IntToString(m) + ":" + SecondsText(d);
    SecondsDigits(d);
    ParseNatToString(m);
  }

  /** The lines of the analysis cell before they are joined. */
  function AnalysisLines(a: Analysis): (lines: seq<string>)
    ensures |lines| == |a.problems| + |a.solutions| + 8
    ensures lines[0] == "Проблеми:"
    ensures forall k :: 0 <= k < |a.problems| ==> lines[1 + k] == "- " + a.problems[k]
    ensures lines[1 + |a.problems|] == "" && lines[2 + |a.problems|] == "Рішення:"
    ensures forall k :: 0 <= k < |a.solutions| ==> lines[3 + |a.problems| + k] == "- " + a.solutions[k]
    ensures lines[|lines| - 5..] == ["", "Температура розмови: " + IntToString(a.temperature) + "/10", "",
                                      "Короткий зміст:", a.summary]
  {
    ["Проблеми:"] + Bullets(a.problems) + ["", "Рішення:"] + Bullets(a.solutions)
    + ["", "Температура розмови: " + IntToString(a.temperature) + "/10", "", "Короткий зміст:", a.summary]
  }

  function Bullets(items: seq<string>): (r: seq<string>)
    ensures |r| == |items|
    ensures forall k :: 0 <= k < |items| ==> r[k] == "- " + items[k]
  {
    if |items| == 0 then [] else Bullets(items[..|items| - 1]) + ["- " + items[|items| - 1]]
  }

  /** The analysis cell: the lines joined by newlines, or `Аналіз відсутній`. */
  function AnalysisCell(analysis: Option<Analysis>): (r: string)
    ensures analysis.None? ==> r == "Аналіз відсутній"
    ensures analysis.Some? ==> StartsWith(r, "Проблеми:")
  {
    if analysis.Some? then
      var lines := AnalysisLines(analysis.value);
      JoinStartsWith("\n", lines);
      Join("\n", lines)
    else "Аналіз відсутній"
  }

  /** One file as a row. */
  function ToRow(file: AudioFile, dateLabel: int -> string): (row: Row)
    ensures row.name == file.name
    ensures row.date == dateLabel(file.createdAt)
    ensures row.transcription == (if Truthy(file.transcription) then file.transcription.value else "")
    ensures row.duration == DurationCell(file.duration)
    ensures row.analysis == AnalysisCell(file.analysis)
  {
    Row(file.name, DurationCell(file.duration), dateLabel(file.createdAt),
        if Truthy(file.transcription) then file.transcription.value else "",
        AnalysisCell(file.analysis))
  }

  /** `files.map(...)`: one row per file, in order. */
  function ToRows(files: seq<AudioFile>, dateLabel: int -> string): (rows: seq<Row>)
    ensures |rows| == |files|
    ensures forall k :: 0 <= k < |files| ==> rows[k] == ToRow(files[k], dateLabel)
  {
    seq(|files|, k requires 0 <= k < |files| => ToRow(files[k], dateLabel))
  }

  /** The longest cell of one column over the first `n` rows, or 0. */
  function LongestCell(rows: seq<Row>, column: nat, n: nat): (m: nat)
    requires column < 5 && n <= |rows|
    ensures forall r :: 0 <= r < n ==> |Cell(rows[r], column)| <= m
    ensures m == 0 || exists r :: 0 <= r < n && |Cell(rows[r], column)| == m
  {
    if n == 0 then 0
    else
      var rest := LongestCell(rows, column, n - 1);
      var here := |Cell(rows[n - 1], column)|;
      if here > rest then here else rest
  }

  /** The width of column `c`: the longest of its header and its cells, capped at 100. */
  function Width(rows: seq<Row>, c: nat): int
    requires c < 5
  {
    Min(Max(|Headers[c]|, LongestCell(rows, c, |rows|)), MaxColumnWidth)
  }

  /**
   * The `maxWidth` reduction, one column per key.  The keys come from
   * `data[0]`, so an empty list throws a `TypeError` before any width is
   * computed.
   */
  method ColumnWidths(rows: seq<Row>) returns (r: Outcome<seq<int>>)
    ensures |rows| == 0 ==> r == Threw(ErrorValue("TypeError", "Cannot convert undefined or null to object"))
    ensures |rows| > 0 ==> r.Done? && |r.value| == 5
    ensures |rows| > 0 ==> forall c :: 0 <= c < 5 ==> r.value[c] == Width(rows, c)
  {
    if |rows| == 0 {
      return Threw(ErrorValue("TypeError", "Cannot convert undefined or null to object"));
    }
    var widths: seq<int> := [];
    for c := 0 to 5
      invariant |widths| == c
      invariant forall j :: 0 <= j < c ==> widths[j] == Width(rows, j)
    {
      var w := ColumnWidth(rows, c);
      widths := widths + [w];
    }
    r := Done(widths);
  }

  /** The body of the reduction for one key. */
  method ColumnWidth(rows: seq<Row>, c: nat) returns (w: int)
    requires c < 5
    ensures w == Width(rows, c)
  {
    var longest := Longest(rows, c);
    var maxLength := Max(|Headers[c]|, longest);
    w := Min(maxLength, MaxColumnWidth);
  }

  /** `Math.max` over the lengths of one column's cells. */
  method Longest(rows: seq<Row>, c: nat) returns (longest: nat)
    requires c < 5
    ensures longest == LongestCell(rows, c, |rows|)
  {
    longest := 0;
    for k := 0 to |rows|
      invariant longest == LongestCell(rows, c, k)
    {
      if |Cell(rows[k], c)| > longest {
        longest := |Cell(rows[k], c)|;
      }
    }
  }

  function Max(a: int, b: int): int
  {
    if a >= b then a else b
  }

  function Min(a: int, b: int): int
  {
    if a <= b then a else b
  }

  /**
   * Every width is at most 100, fits its header, and fits every cell of
   * its column that is no longer than 100; below 100 it is the header or
   * some cell exactly.
   */
  lemma WidthsFit(rows: seq<Row>, c: nat)
    requires 0 < |rows| && c < 5
    ensures var w := Width(rows, c);
            && w <= MaxColumnWidth
            && |Headers[c]| <= w
            && (forall r :: 0 <= r < |rows| ==> Min(|Cell(rows[r], c)|, MaxColumnWidth) <= w)
            && (w == MaxColumnWidth || w == |Headers[c]| || exists r :: 0 <= r < |rows| && |Cell(rows[r], c)| == w)
  {
    assert |Headers[c]| < MaxColumnWidth;
  }

  /** The export: the sheet's rows and column widths, or the error thrown for an empty list. */
  datatype Workbook = Workbook(sheetName: string, fileName: string, rows: seq<Row>, widths: seq<int>)

  method ExportToExcel(files: seq<AudioFile>, dateLabel: int -> string) returns (r: Outcome<Workbook>)
    ensures |files| == 0 ==> r.Threw? && r.error.ErrorValue? && r.error.name == "TypeError"
    ensures |files| > 0 ==> r.Done? && r.value.sheetName == SheetName && r.value.fileName == FileName
                            && r.value.rows == ToRows(files, dateLabel) && |r.value.widths| == 5
                            && (forall c :: 0 <= c < 5 ==> r.value.widths[c] <= MaxColumnWidth)
  {
    var data := ToRows(files, dateLabel);
    var widths := ColumnWidths(data);
    if widths.Threw? {
      return Threw(widths.error);
    }
    forall c | 0 <= c < 5
      ensures widths.value[c] <= MaxColumnWidth
    {
      WidthsFit(data, c);
    }
    r := Done(Workbook(SheetName, FileName, data, widths.value));
  }
}
