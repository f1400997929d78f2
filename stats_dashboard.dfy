/**
 * The figures of the statistics page
 * (project/src/components/StatsDashboard.tsx): the file total, the
 * processing time written as hours, minutes and seconds, the success rate,
 * and the conversation-temperature buckets with their colours.
 */
module StatsDashboard {
  import opened Types
  import opened Text
  import App

  /** `totalFiles`. */
  function TotalFiles(s: App.Stats): nat
  {
    s.pending + s.processing + s.completed + s.failed
  }

  /** For the statistics the view computes, the total is the number of files. */
  lemma TotalFilesCountsEveryFile(files: seq<AudioFile>)
    ensures TotalFiles(App.CalculateStats(files)) == |files|
  {
    App.CountsSum(files);
  }

  /** One part of a formatted duration. */
  datatype Part = Hours(n: nat) | Minutes(n: nat) | Seconds(n: nat)

  function Render(p: Part): string
  {
    match p
    case Hours(n) => NatToString(n) + "год"
    case Minutes(n) => NatToString(n) + "хв"
    case Seconds(n) => NatToString(n) + "с"
  }

  function RenderAll(parts: seq<Part>): (r: seq<string>)
    ensures |r| == |parts|
    ensures forall k :: 0 <= k < |parts| ==> r[k] == Render(parts[k])
  {
    if |parts| == 0 then [] else RenderAll(parts[..|parts| - 1]) + [Render(parts[|parts| - 1])]
  }

  function Weight(p: Part): nat
  {
    match p
    case Hours(_) => 3600
    case Minutes(_) => 60
    case Seconds(_) => 1
  }

  /** The number of seconds the parts stand for. */
  function Value(parts: seq<Part>): nat
  {
    if |parts| == 0 then 0 else Value(parts[..|parts| - 1]) + Weight(parts[|parts| - 1]) * parts[|parts| - 1].n
  }

  /** The parts for `h` hours, `m` minutes and `s` seconds, zero units dropped and `0с` for nothing. */
  function Build(h: nat, m: nat, s: nat): seq<Part>
  {
    (if h > 0 then [Hours(h)] else []) + (if m > 0 then [Minutes(m)] else [])
    + (if s > 0 || (h == 0 && m == 0) then [Seconds(s)] else [])
  }

  /** A list built from amounts stands for the seconds they add up to. */
  lemma BuildValue(h: nat, m: nat, s: nat)
    ensures Value(Build(h, m, s)) == h * 3600 + m * 60 + s
  {
    var p := Build(h, m, s);
    var hp: seq<Part> := if h > 0 then [Hours(h)] else [];
    var mp: seq<Part> := if m > 0 then [Minutes(m)] else [];
    assert Value(hp) == h * 3600;
    assert Value(hp + mp) == h * 3600 + m * 60 by {
      if m > 0 {
        assert (hp + mp)[..|hp + mp| - 1] == hp;
      } else {
        assert hp + mp == hp;
      }
    }
    if s > 0 || (h == 0 && m == 0) {
      assert p[..|p| - 1] == hp + mp;
    } else {
      assert p == hp + mp;
    }
  }

  /**
   * The lists `formatTime` can produce: the one built from some number of
   * hours, minutes below 60 and seconds below 60.
   */
  ghost predicate Canonical(parts: seq<Part>)
  {
    exists h: nat, m: nat, s: nat :: m < 60 && s < 60 && parts == Build(h, m, s)
  }

  /** The hours, minutes and seconds `formatTime` takes out of a number of seconds add back up to it. */
  lemma SplitSeconds(seconds: nat)
    ensures (seconds % 3600) / 60 < 60
    ensures seconds / 3600 * 3600 + (seconds % 3600) / 60 * 60 + seconds % 60 == seconds
  {
    var r := seconds % 3600;
    assert seconds == seconds / 3600 * 3600 + r;
    assert r == r / 60 * 60 + r % 60;
    assert seconds == (seconds / 3600 * 60 + r / 60) * 60 + r % 60;
    DivUnique60(seconds, seconds / 3600 * 60 + r / 60, r % 60);
  }

  /** Hours, minutes below 60 and seconds below 60 are fixed by the total. */
  lemma AmountsUnique(h1: nat, m1: nat, s1: nat, h2: nat, m2: nat, s2: nat)
    requires m1 < 60 && s1 < 60 && m2 < 60 && s2 < 60
    requires h1 * 3600 + m1 * 60 + s1 == h2 * 3600 + m2 * 60 + s2
    ensures h1 == h2 && m1 == m2 && s1 == s2
  {
    var v := h1 * 3600 + m1 * 60 + s1;
    DivUnique3600(v, h1, m1 * 60 + s1);
    DivUnique3600(v, h2, m2 * 60 + s2);
    DivUnique60(m1 * 60 + s1, m1, s1);
    DivUnique60(m2 * 60 + s2, m2, s2);
  }

  lemma DivUnique60(v: nat, a: nat, b: nat)
    requires b < 60 && v == a * 60 + b
    ensures a == v / 60 && b == v % 60
  {
  }

  lemma DivUnique3600(v: nat, a: nat, b: nat)
    requires b < 3600 && v == a * 3600 + b
    ensures a == v / 3600 && b == v % 3600
  {
  }

  /**
   * `formatTime` on a whole number of seconds: the parts it pushes, and the
   * text they join to.
   */
  method FormatTime(seconds: nat) returns (parts: seq<Part>, text: string)
    ensures Canonical(parts)
    ensures Value(parts) == seconds
    ensures text == Join(" ", RenderAll(parts))
    ensures seconds == 0 ==> text == "0с"
  {
    if seconds == 0 {
      ZeroText();
      return [Seconds(0)], "0с";
    }
    var hours := seconds / 3600;
    var minutes := (seconds % 3600) / 60;
    var remainingSeconds := seconds % 60;
    parts := [];
    if hours > 0 {
      parts := parts + [Hours(hours)];
    }
    if minutes > 0 {
      parts := parts + [Minutes(minutes)];
    }
    if remainingSeconds > 0 || |parts| == 0 {
      parts := parts + [Seconds(remainingSeconds)];
    }
    SplitSeconds(seconds);
    assert parts == Build(hours, minutes, remainingSeconds);
    BuildValue(hours, minutes, remainingSeconds);
    text := Join(" ", RenderAll(parts));
  }

  /** Ninety minutes and one second is `1год 30хв 1с`. */
  method FormatTimeExample() returns (text: string)
    ensures text == "1год 30хв 1с"
  {
    var parts;
    parts, text := FormatTime(5401);
    PartsOf5401(parts);
    RenderExample();
  }

  lemma PartsOf5401(parts: seq<Part>)
    requires Canonical(parts) && Value(parts) == 5401
    ensures parts == [Hours(1), Minutes(30), Seconds(1)]
  {
    BuildValue(1, 30, 1);
    assert Build(1, 30, 1) == [Hours(1), Minutes(30), Seconds(1)];
    CanonicalUnique(parts, [Hours(1), Minutes(30), Seconds(1)]);
  }

  lemma RenderExample()
    ensures Join(" ", RenderAll([Hours(1), Minutes(30), Seconds(1)])) == "1год 30хв 1с"
  {
    assert NatToString(1) == "1";
    assert NatToString(30) == NatToString(3) + "0" == "30";
    var rendered := RenderAll([Hours(1), Minutes(30), Seconds(1)]);
    assert rendered == [Render(Hours(1)), Render(Minutes(30)), Render(Seconds(1))];
    assert Render(Hours(1)) == "1год" && Render(Minutes(30)) == "30хв" && Render(Seconds(1)) == "1с";
    JoinThree(" ", "1год", "30хв", "1с");
  }

  lemma JoinThree(sep: string, a: string, b: string, c: string)
    ensures Join(sep, [a, b, c]) == a + sep + b + sep + c
  {
    var p := [a, b, c];
    assert p[..2] == [a, b] && p[..2][..1] == [a];
    assert Join(sep, [a]) == a;
    assert Join(sep, [a, b]) == a + sep + b;
  }

  /** Zero seconds: the lone part `0с`. */
  lemma ZeroText()
    ensures Join(" ", RenderAll([Seconds(0)])) == "0с"
    ensures Canonical([Seconds(0)]) && Value([Seconds(0)]) == 0
  {
    assert NatToString(0) == "0";
    assert RenderAll([Seconds(0)]) == [Render(Seconds(0))];
    assert Build(0, 0, 0) == [Seconds(0)];
  }

  /** A canonical list is fixed by the number it stands for: `formatTime` has one answer per input. */
  lemma CanonicalUnique(p: seq<Part>, q: seq<Part>)
    requires Canonical(p) && Canonical(q) && Value(p) == Value(q)
    ensures p == q
  {
    var h1: nat, m1: nat, s1: nat :| m1 < 60 && s1 < 60 && p == Build(h1, m1, s1);
    var h2: nat, m2: nat, s2: nat :| m2 < 60 && s2 < 60 && q == Build(h2, m2, s2);
    BuildValue(h1, m1, s1);
    BuildValue(h2, m2, s2);
    AmountsUnique(h1, m1, s1, h2, m2, s2);
  }

  /** `calculateSuccessRate`: the share of finished files that completed, in per cent. */
  function SuccessRate(completed: nat, failed: nat): (r: real)
    ensures completed + failed == 0 ==> r == 0.0
    ensures completed + failed > 0 ==> r * ((completed + failed) as real) == 100.0 * (completed as real)
    ensures 0.0 <= r <= 100.0
  {
    if completed + failed == 0 then 0.0
    else
      var n := (completed + failed) as real;
      var share := (completed as real) / n;
      assert 0.0 <= share <= 1.0;
      share * 100.0
  }

  /** The three temperature buckets. */
  datatype Band = Low | Medium | High

  function BandOf(t: int): Band
  {
    if t <= 4 then Low else if t < 7 then Medium else High
  }

  /** A file counts for the temperature figures when it has an analysis. */
  function WithTemperature(files: seq<AudioFile>): (r: seq<AudioFile>)
    ensures forall k :: 0 <= k < |r| ==> r[k].analysis.Some?
    ensures |r| <= |files|
  {
    if |files| == 0 then []
    else
      var rest := WithTemperature(files[..|files| - 1]);
      if files[|files| - 1].analysis.Some? then rest + [files[|files| - 1]] else rest
  }

  /** `f.analysis?.temperature || 0`. */
  function Temperature(f: AudioFile): int
  {
    if f.analysis.Some? then f.analysis.value.temperature else 0
  }

  /** The files of one bucket, in order. */
  function InBand(files: seq<AudioFile>, b: Band): (r: seq<AudioFile>)
    ensures forall k :: 0 <= k < |r| ==> BandOf(Temperature(r[k])) == b
    ensures |r| <= |files|
  {
    if |files| == 0 then []
    else
      var rest := InBand(files[..|files| - 1], b);
      var f := files[|files| - 1];
      if BandOf(Temperature(f)) == b then rest + [f] else rest
  }

  /** The buckets split the files: every one of them is in exactly one bucket. */
  lemma {:induction false} BandsPartition(files: seq<AudioFile>)
    ensures multiset(InBand(files, Low)) + multiset(InBand(files, Medium)) + multiset(InBand(files, High))
            == multiset(files)
    ensures |InBand(files, Low)| + |InBand(files, Medium)| + |InBand(files, High)| == |files|
    decreases |files|
  {
    if |files| > 0 {
      var front := files[..|files| - 1];
      var f := files[|files| - 1];
      BandsPartition(front);
      assert files == front + [f];
      InBandStep(files, Low);
      InBandStep(files, Medium);
      InBandStep(files, High);
      ThreeWayStep(front, f, InBand(front, Low), InBand(front, Medium), InBand(front, High),
                   InBand(files, Low), InBand(files, Medium), InBand(files, High));
    }
  }

  /** The last file lands in its own bucket and in no other. */
  lemma InBandStep(files: seq<AudioFile>, b: Band)
    requires |files| > 0
    ensures InBand(files, b) == InBand(files[..|files| - 1], b)
            + (if BandOf(Temperature(files[|files| - 1])) == b then [files[|files| - 1]] else [])
  {
  }

  /** Three parts of a list stay its parts when the next element joins exactly one of them. */
  lemma ThreeWayStep<T>(front: seq<T>, f: T, a: seq<T>, b: seq<T>, c: seq<T>, a': seq<T>, b': seq<T>, c': seq<T>)
    requires multiset(a) + multiset(b) + multiset(c) == multiset(front)
    requires (a' == a + [f] && b' == b && c' == c) || (a' == a && b' == b + [f] && c' == c)
             || (a' == a && b' == b && c' == c + [f])
    ensures multiset(a') + multiset(b') + multiset(c') == multiset(front + [f])
    ensures |a'| + |b'| + |c'| == |front + [f]|
  {
    assert |multiset(front)| == |front|;
    assert |multiset(front + [f])| == |front + [f]|;
  }

  function TemperatureSum(files: seq<AudioFile>): int
  {
    if |files| == 0 then 0 else TemperatureSum(files[..|files| - 1]) + Temperature(files[|files| - 1])
  }

  /** The arithmetic mean of `n` values summing to `sum`. */
  function Mean(sum: int, n: nat): (r: real)
    requires n > 0
    ensures r * (n as real) == sum as real
  {
    (sum as real) / (n as real)
  }

  datatype TemperatureRange = AllRanges | OnlyBand(band: Band)

  datatype TemperatureStats = TemperatureStats(
    average: real, low: nat, medium: nat, high: nat, total: nat, filteredFiles: seq<AudioFile>)

  /**
   * The `temperatureStats` memo for files already cut to the chosen time
   * range: the figures, and the files listed for the chosen bucket.
   */
  method ComputeTemperatureStats(files: seq<AudioFile>, selected: TemperatureRange) returns (s: TemperatureStats)
    ensures s.total == |WithTemperature(files)|
    ensures s.total == 0 ==> s == TemperatureStats(0.0, 0, 0, 0, 0, [])
    ensures s.low + s.medium + s.high == s.total
    ensures s.total > 0 ==> s.average == Mean(TemperatureSum(WithTemperature(files)), s.total)
    ensures selected.AllRanges? ==> s.filteredFiles == WithTemperature(files)
    ensures selected.OnlyBand? ==> s.filteredFiles == InBand(WithTemperature(files), selected.band)
    ensures s.total > 0 ==> s.low == |InBand(WithTemperature(files), Low)|
                            && s.medium == |InBand(WithTemperature(files), Medium)|
                            && s.high == |InBand(WithTemperature(files), High)|
  {
    var rated := WithTemperature(files);
    if |rated| == 0 {
      return TemperatureStats(0.0, 0, 0, 0, 0, []);
    }
    var average := Mean(TemperatureSum(rated), |rated|);
    var lowTemp := InBand(rated, Low);
    var mediumTemp := InBand(rated, Medium);
    var highTemp := InBand(rated, High);
    BandsPartition(rated);
    var filteredFiles := rated;
    if selected.OnlyBand? {
      match selected.band
      case Low => filteredFiles := lowTemp;
      case Medium => filteredFiles := mediumTemp;
      case High => filteredFiles := highTemp;
    }
    s := TemperatureStats(average, |lowTemp|, |mediumTemp|, |highTemp|, |rated|, filteredFiles);
  }

  /** `getTemperatureColor` on the average. */
  function TemperatureColor(t: real): string
  {
    if t >= 7.0 then "text-green-600 dark:text-green-400"
    else if t <= 4.0 then "text-red-600 dark:text-red-400"
    else "text-yellow-600 dark:text-yellow-400"
  }

  /** `getTemperatureBackground` on the average. */
  function TemperatureBackground(t: real): string
  {
    if t >= 7.0 then "bg-green-50 dark:bg-green-900/20"
    else if t <= 4.0 then "bg-red-50 dark:bg-red-900/20"
    else "bg-yellow-50 dark:bg-yellow-900/20"
  }

  /** On whole temperatures the colours follow the buckets: red is low, yellow medium, green high. */
  lemma ColoursFollowBands(t: int)
    ensures TemperatureColor(t as real) == "text-red-600 dark:text-red-400" <==> BandOf(t) == Low
    ensures TemperatureColor(t as real) == "text-yellow-600 dark:text-yellow-400" <==> BandOf(t) == Medium
    ensures TemperatureColor(t as real) == "text-green-600 dark:text-green-400" <==> BandOf(t) == High
    ensures TemperatureBackground(t as real) == "bg-red-50 dark:bg-red-900/20" <==> BandOf(t) == Low
    ensures TemperatureBackground(t as real) == "bg-yellow-50 dark:bg-yellow-900/20" <==> BandOf(t) == Medium
    ensures TemperatureBackground(t as real) == "bg-green-50 dark:bg-green-900/20" <==> BandOf(t) == High
  {
  }
}
