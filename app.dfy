/**
 * The bookkeeping of the main view (project/src/App.tsx): merging a page of
 * cached external calls into the file list by id, the status statistics,
 * the two file tabs, the duplicate-name check, and the upload loop
 * `processAudioFiles` with its success and error counters.
 *
 * React state is a class whose fields the handlers reassign; the database,
 * the transcription and the toasts are oracles or returned values.
 */
module App {
  import opened Types
  import opened Text

  const PageSize: nat := 25

  /** `findIndex(f => f.id === id)`: the first position with that id, or -1. */
  function FindIndex(files: seq<AudioFile>, id: string): (r: int)
    ensures -1 <= r < |files|
    ensures r == -1 <==> id !in Ids(files)
    ensures r >= 0 ==> files[r].id == id && forall i :: 0 <= i < r ==> files[i].id != id
  {
    if |files| == 0 then -1
    else if files[0].id == id then 0
    else
      var r := FindIndex(files[1..], id);
      assert forall i :: 1 <= i < |files| ==> files[i] == files[1..][i - 1];
      assert id in Ids(files) ==> id in Ids(files[1..]) by {
        if id in Ids(files) {
          var k :| 0 <= k < |files| && files[k].id == id;
          assert files[1..][k - 1].id == id;
        }
      }
      if r == -1 then -1 else r + 1
  }

  /** One turn of the merge loop: replace the entry with the same id in place, or append. */
  function Upsert(files: seq<AudioFile>, f: AudioFile): seq<AudioFile>
  {
    var index := FindIndex(files, f.id);
    if index == -1 then files + [f] else files[index := f]
  }

  /** The list after merging `data` into `prev` one file at a time. */
  function Merged(prev: seq<AudioFile>, data: seq<AudioFile>): seq<AudioFile>
  {
    if |data| == 0 then prev else Upsert(Merged(prev, data[..|data| - 1]), data[|data| - 1])
  }

  /** The loop inside `setFiles`: a copy of the list, updated file by file. */
  method MergePage(prev: seq<AudioFile>, data: seq<AudioFile>) returns (newFiles: seq<AudioFile>)
    ensures newFiles == Merged(prev, data)
  {
    newFiles := prev;
    for k := 0 to |data|
      invariant newFiles == Merged(prev, data[..k])
    {
      assert data[..k + 1][..k] == data[..k];
      var file := data[k];
      var index := FindIndex(newFiles, file.id);
      if index == -1 {
        newFiles := newFiles + [file];
      } else {
        newFiles := newFiles[index := file];
      }
    }
    assert data[..|data|] == data;
  }

  lemma UpsertSize(files: seq<AudioFile>, f: AudioFile)
    ensures |Upsert(files, f)| == |files| + (if f.id in Ids(files) then 0 else 1)
    ensures Ids(Upsert(files, f)) == Ids(files) + {f.id}
  {
    UpsertShape(files, f);
  }

  lemma UpsertShape(files: seq<AudioFile>, f: AudioFile)
    ensures f.id in Ids(files) ==> |Upsert(files, f)| == |files|
    ensures f.id !in Ids(files) ==> |Upsert(files, f)| == |files| + 1
    ensures Ids(Upsert(files, f)) == Ids(files) + {f.id}
    ensures f in Upsert(files, f)
    ensures forall i :: 0 <= i < |files| ==> Upsert(files, f)[i].id == files[i].id
    ensures forall i :: 0 <= i < |files| && files[i].id != f.id ==> Upsert(files, f)[i] == files[i]
  {
    var r := Upsert(files, f);
    var index := FindIndex(files, f.id);
    if index == -1 {
      assert r[|files|] == f;
      forall x | x in Ids(r)
        ensures x in Ids(files) + {f.id}
      {
        var k :| 0 <= k < |r| && r[k].id == x;
        if k < |files| {
          assert files[k].id == x;
        }
      }
      forall x | x in Ids(files)
        ensures x in Ids(r)
      {
        var k :| 0 <= k < |files| && files[k].id == x;
        assert r[k].id == x;
      }
      assert f.id in Ids(r) by {
        assert r[|files|].id == f.id;
      }
    } else {
      assert r[index] == f;
      forall x | x in Ids(r)
        ensures x in Ids(files)
      {
        var k :| 0 <= k < |r| && r[k].id == x;
        assert files[k].id == x;
      }
      forall x | x in Ids(files)
        ensures x in Ids(r)
      {
        var k :| 0 <= k < |files| && files[k].id == x;
        assert r[k].id == x;
      }
    }
  }

  /** Merging keeps the known ids and adds the incoming ones. */
  lemma {:induction false} MergedIds(prev: seq<AudioFile>, data: seq<AudioFile>)
    ensures Ids(Merged(prev, data)) == Ids(prev) + Ids(data)
    decreases |data|
  {
    if |data| == 0 {
      assert Ids(data) == {};
    } else {
      var front := data[..|data| - 1];
      var last := data[|data| - 1];
      MergedIds(prev, front);
      UpsertSize(Merged(prev, front), last);
      IdsLast(data);
    }
  }

  /**
   * Every entry of the old list keeps its place and its id through a merge,
   * and is untouched unless an incoming file has the same id.
   */
  lemma {:induction false} MergedKeeps(prev: seq<AudioFile>, data: seq<AudioFile>)
    ensures |Merged(prev, data)| >= |prev|
    ensures forall i :: 0 <= i < |prev| ==> Merged(prev, data)[i].id == prev[i].id
    ensures forall i :: 0 <= i < |prev| && prev[i].id !in Ids(data) ==> Merged(prev, data)[i] == prev[i]
    decreases |data|
  {
    if |data| > 0 {
      var front := data[..|data| - 1];
      var last := data[|data| - 1];
      MergedKeeps(prev, front);
      UpsertKeeps(Merged(prev, front), last);
      IdsLast(data);
    }
  }

  /** An upsert leaves every earlier position's id, and every other id's entry, alone. */
  lemma UpsertKeeps(files: seq<AudioFile>, f: AudioFile)
    ensures |Upsert(files, f)| >= |files|
    ensures forall i :: 0 <= i < |files| ==> Upsert(files, f)[i].id == files[i].id
    ensures forall i :: 0 <= i < |files| && files[i].id != f.id ==> Upsert(files, f)[i] == files[i]
  {
  }

  /**
   * The list grows by exactly the number of distinct incoming ids that
   * were not already present.
   */
  lemma {:induction false} MergedGrowth(prev: seq<AudioFile>, data: seq<AudioFile>)
    ensures |Merged(prev, data)| == |prev| + |Ids(data) - Ids(prev)|
    decreases |data|
  {
    if |data| == 0 {
      assert Ids(data) == {};
    } else {
      var front := data[..|data| - 1];
      var last := data[|data| - 1];
      MergedGrowth(prev, front);
      MergedIds(prev, front);
      UpsertSize(Merged(prev, front), last);
      IdsLast(data);
      NewIdsStep(Ids(prev), Ids(front), last.id);
    }
  }

  lemma NewIdsStep(known: set<string>, seen: set<string>, id: string)
    ensures |(seen + {id}) - known| == |seen - known| + (if id in known + seen then 0 else 1)
  {
    if id !in known + seen {
      assert (seen + {id}) - known == (seen - known) + {id};
    } else {
      assert (seen + {id}) - known == seen - known;
    }
  }

  /**
   * Entries only ever change in place or are appended at the end: the ids
   * of the list merged from a prefix of the page stay, in order, at the
   * front of the fully merged list.  So appended files keep arrival order.
   */
  lemma {:induction false} MergedGrowsAtEnd(prev: seq<AudioFile>, data: seq<AudioFile>, k: nat)
    requires k <= |data|
    ensures |Merged(prev, data[..k])| <= |Merged(prev, data)|
    ensures forall i :: 0 <= i < |Merged(prev, data[..k])| ==> Merged(prev, data)[i].id == Merged(prev, data[..k])[i].id
    decreases |data| - k
  {
    if k == |data| {
      assert data[..k] == data;
    } else {
      var front := data[..|data| - 1];
      assert front[..k] == data[..k];
      MergedGrowsAtEnd(prev, front, k);
      UpsertShape(Merged(prev, front), data[|data| - 1]);
    }
  }

  /** The last file of the page with a given id is the one the merged list holds. */
  lemma {:induction false} MergedLatestWins(prev: seq<AudioFile>, data: seq<AudioFile>, k: nat)
    requires k < |data|
    requires forall j :: k < j < |data| ==> data[j].id != data[k].id
    ensures data[k] in Merged(prev, data)
    decreases |data|
  {
    var front := data[..|data| - 1];
    var last := data[|data| - 1];
    UpsertShape(Merged(prev, front), last);
    if k < |data| - 1 {
      MergedLatestWins(prev, front, k);
      var m := Merged(prev, front);
      var i :| 0 <= i < |m| && m[i] == data[k];
      assert Merged(prev, data)[i] == data[k];
    }
  }

  /** `Math.ceil(total / pageSize)` for a non-negative total. */
  function PageCount(total: nat): (pages: nat)
    ensures pages * PageSize >= total
    ensures pages > 0 ==> (pages - 1) * PageSize < total
  {
    (total + PageSize - 1) / PageSize
  }

  /** The state of the view that the handlers modelled here update. */
  class View {
    var files: seq<AudioFile>
    var totalPages: nat

    constructor ()
      ensures files == [] && totalPages == 1
    {
      files := [];
      totalPages := 1;
    }

    /** The end of `syncData`: merge a non-empty page and recompute the page count; ignore an empty one. */
    method ApplyPage(data: seq<AudioFile>, total: nat)
      modifies this
      ensures |data| > 0 ==> files == Merged(old(files), data) && totalPages == PageCount(total)
      ensures |data| == 0 ==> files == old(files) && totalPages == old(totalPages)
    {
      if |data| > 0 {
        var merged := MergePage(files, data);
        files := merged;
        totalPages := PageCount(total);
      }
    }
  }

  function Count(files: seq<AudioFile>, s: Status): (n: nat)
    ensures n <= |files|
  {
    if |files| == 0 then 0 else Count(files[..|files| - 1], s) + (if files[|files| - 1].status == s then 1 else 0)
  }

  /** The completed files whose processing time is truthy, and the sum of those times. */
  function TimedCount(files: seq<AudioFile>): nat
  {
    if |files| == 0 then 0
    else
      var f := files[|files| - 1];
      TimedCount(files[..|files| - 1]) + (if Timed(f) then 1 else 0)
  }

  predicate Timed(f: AudioFile)
  {
    f.status == Completed && f.processingTime.Some? && f.processingTime.value != 0
  }

  function TotalTime(files: seq<AudioFile>): int
  {
    if |files| == 0 then 0
    else
      var f := files[|files| - 1];
      TotalTime(files[..|files| - 1]) + (if Timed(f) then f.processingTime.value else 0)
  }

  datatype Stats = Stats(pending: nat, processing: nat, completed: nat, failed: nat,
                         averageProcessingTime: real, totalProcessingTime: int)

  /** `calculateStats`. */
  function CalculateStats(files: seq<AudioFile>): (s: Stats)
    ensures TimedCount(files) == 0 ==> s.averageProcessingTime == 0.0
    ensures TimedCount(files) > 0 ==>
      s.averageProcessingTime * (TimedCount(files) as real) == s.totalProcessingTime as real
  {
    var n := TimedCount(files);
    var total := TotalTime(files);
    Stats(Count(files, Pending), Count(files, Processing), Count(files, Completed), Count(files, Failed),
          if n > 0 then (total as real) / (n as real) else 0.0, total)
  }

  /** The four status counts add up to the number of files. */
  lemma {:induction false} CountsSum(files: seq<AudioFile>)
    ensures Count(files, Pending) + Count(files, Processing) + Count(files, Completed) + Count(files, Failed) == |files|
    decreases |files|
  {
    if |files| > 0 {
      CountsSum(files[..|files| - 1]);
    }
  }

  /** Only completed files contribute time, so there are never more timed files than completed ones. */
  lemma {:induction false} TimedAreCompleted(files: seq<AudioFile>)
    ensures TimedCount(files) <= Count(files, Completed)
    ensures TimedCount(files) == 0 ==> TotalTime(files) == 0
    decreases |files|
  {
    if |files| > 0 {
      TimedAreCompleted(files[..|files| - 1]);
    }
  }

  /** The queue tab: pending and processing files, in list order. */
  function QueueTab(files: seq<AudioFile>): (r: seq<AudioFile>)
    ensures forall k :: 0 <= k < |r| ==> r[k].status == Pending || r[k].status == Processing
    ensures |r| == Count(files, Pending) + Count(files, Processing)
  {
    if |files| == 0 then []
    else
      var rest := QueueTab(files[..|files| - 1]);
      var f := files[|files| - 1];
      if f.status == Pending || f.status == Processing then rest + [f] else rest
  }

  /** The completed tab: completed and failed files, in list order. */
  function CompletedTab(files: seq<AudioFile>): (r: seq<AudioFile>)
    ensures forall k :: 0 <= k < |r| ==> r[k].status == Completed || r[k].status == Failed
    ensures |r| == Count(files, Completed) + Count(files, Failed)
  {
    if |files| == 0 then []
    else
      var rest := CompletedTab(files[..|files| - 1]);
      var f := files[|files| - 1];
      if f.status == Completed || f.status == Failed then rest + [f] else rest
  }

  /** The two tabs split the files between them: together they hold every file exactly once. */
  lemma {:induction false} TabsPartition(files: seq<AudioFile>)
    ensures multiset(QueueTab(files)) + multiset(CompletedTab(files)) == multiset(files)
    decreases |files|
  {
    if |files| > 0 {
      var front, f := files[..|files| - 1], files[|files| - 1];
      TabsPartition(front);
      TabsSnoc(files);
      SplitSnoc(QueueTab(front), CompletedTab(front), QueueTab(files), CompletedTab(files), files);
    }
  }

  /** The last file goes to exactly one of the two tabs. */
  lemma TabsSnoc(files: seq<AudioFile>)
    requires |files| > 0
    ensures var front, f := files[..|files| - 1], files[|files| - 1];
      (QueueTab(files) == QueueTab(front) + [f] && CompletedTab(files) == CompletedTab(front)) ||
      (QueueTab(files) == QueueTab(front) && CompletedTab(files) == CompletedTab(front) + [f])
  {
  }

  /** Adding one element to one side of a split list splits the longer list. */
  lemma SplitSnoc<T>(q: seq<T>, c: seq<T>, q': seq<T>, c': seq<T>, all: seq<T>)
    requires |all| > 0
    requires multiset(q) + multiset(c) == multiset(all[..|all| - 1])
    requires var f := all[|all| - 1]; (q' == q + [f] && c' == c) || (q' == q && c' == c + [f])
    ensures multiset(q') + multiset(c') == multiset(all)
  {
    var front, f := all[..|all| - 1], all[|all| - 1];
    assert all == front + [f];
    assert multiset(all) == multiset(front) + multiset{f};
    if q' == q + [f] {
      assert multiset(q') == multiset(q) + multiset{f};
    } else {
      assert multiset(c') == multiset(c) + multiset{f};
    }
  }

  /**
   * `checkDuplicateFile`: the first row with that name whose status is not
   * failed.  A failed query gives no rows, so it finds no duplicate.
   */
  function CheckDuplicateFile(rows: Option<seq<AudioFile>>, name: string): (r: Option<AudioFile>)
    ensures r.Some? ==> rows.Some? && r.value in rows.value && r.value.name == name && r.value.status != Failed
    ensures r.None? ==> rows.None? || forall k :: 0 <= k < |rows.value| ==> rows.value[k].name != name || rows.value[k].status == Failed
  {
    if rows.None? then None else FirstLive(rows.value, name)
  }

  function FirstLive(rows: seq<AudioFile>, name: string): (r: Option<AudioFile>)
    ensures r.Some? ==> r.value in rows && r.value.name == name && r.value.status != Failed
    ensures r.Some? ==> exists k :: (0 <= k < |rows| && rows[k] == r.value
                                     && forall j :: 0 <= j < k ==> rows[j].name != name || rows[j].status == Failed)
    ensures r.None? ==> forall k :: 0 <= k < |rows| ==> rows[k].name != name || rows[k].status == Failed
  {
    if |rows| == 0 then None
    else if rows[0].name == name && rows[0].status != Failed then Some(rows[0])
    else
      var r := FirstLive(rows[1..], name);
      assert forall k :: 1 <= k < |rows| ==> rows[k] == rows[1..][k - 1];
      r
  }

  /** A picked file: its name, MIME type and size. */
  datatype Upload = Upload(name: string, mimeType: string, size: int)

  /**
   * The placeholder row inserted into `transcription_files` for a file that
   * passed the type and duplicate checks.
   */
  datatype PendingRow = PendingRow(name: string, path: string, size: int, status: Status, progress: int,
                                   userId: Option<string>)

  /**
   * How the upload loop treats one file.  Every fate from `InsertFailed` on
   * carries the row whose insert was sent.
   */
  datatype Fate =
    | WrongType
    | AlreadyExists
    | InsertFailed(row: PendingRow, error: Thrown)
    | NoRow(row: PendingRow)
    | Transcribed(row: PendingRow, id: string)
    | TranscriptionFailed(row: PendingRow, id: string, error: Thrown)

  /**
   * The backend seen by the upload loop, per file index: the existing rows
   * with that name (or a failed query), the signed-in user's id as
   * `getUser` reports it, the insert's error or returned row id, and how
   * `transcribeAudio` ends.
   */
  datatype UploadBackend = UploadBackend(
    authError: Option<Thrown>,
    sameName: nat -> Option<seq<AudioFile>>,
    userId: nat -> Option<string>,
    insertError: nat -> Option<Thrown>,
    insertedId: nat -> Option<string>,
    transcription: nat -> Option<Thrown>)

  function FateOf(u: Upload, i: nat, b: UploadBackend): Fate
  {
    if !StartsWith(u.mimeType, "audio/") then WrongType
    else if CheckDuplicateFile(b.sameName(i), u.name).Some? then AlreadyExists
    else
      var row := PendingRow(u.name, "pending", u.size, Pending, 0, b.userId(i));
      if b.insertError(i).Some? then InsertFailed(row, b.insertError(i).value)
      else if b.insertedId(i).None? then NoRow(row)
      else if b.transcription(i).Some? then TranscriptionFailed(row, b.insertedId(i).value, b.transcription(i).value)
      else Transcribed(row, b.insertedId(i).value)
  }

  /**
   * A file's insert is sent exactly when it is audio and no live row has
   * its name, and the row sent is then the placeholder: the file's name and
   * size, path and status `pending`, progress 0 and the user's id.
   */
  lemma InsertSent(u: Upload, i: nat, b: UploadBackend)
    ensures var f := FateOf(u, i, b);
      (!f.WrongType? && !f.AlreadyExists? <==>
        StartsWith(u.mimeType, "audio/") && CheckDuplicateFile(b.sameName(i), u.name).None?)
    ensures var f := FateOf(u, i, b);
      !f.WrongType? && !f.AlreadyExists? ==>
        f.row == PendingRow(u.name, "pending", u.size, Pending, 0, b.userId(i))
  {
  }

  function SuccessOf(f: Fate): nat
  {
    if f.Transcribed? then 1 else 0
  }

  /** A failed transcription is counted by the inner `catch` and again by the outer one. */
  function ErrorsOf(f: Fate): nat
  {
    if f.Transcribed? then 0 else if f.TranscriptionFailed? then 2 else 1
  }

  function Successes(fates: seq<Fate>): nat
  {
    if |fates| == 0 then 0 else Successes(fates[..|fates| - 1]) + SuccessOf(fates[|fates| - 1])
  }

  function Errors(fates: seq<Fate>): nat
  {
    if |fates| == 0 then 0 else Errors(fates[..|fates| - 1]) + ErrorsOf(fates[|fates| - 1])
  }

  function Failures(fates: seq<Fate>): nat
  {
    if |fates| == 0 then 0
    else Failures(fates[..|fates| - 1]) + (if fates[|fates| - 1].TranscriptionFailed? then 1 else 0)
  }

  /**
   * The counters over-count: every file adds at least one to one of them,
   * and a failed transcription adds two errors, so the sum exceeds the
   * number of files by exactly the number of failed transcriptions.
   */
  lemma {:induction false} CountersOvercount(fates: seq<Fate>)
    ensures Successes(fates) + Errors(fates) == |fates| + Failures(fates)
    ensures Errors(fates) <= 2 * |fates|
    decreases |fates|
  {
    if |fates| > 0 {
      CountersOvercount(fates[..|fates| - 1]);
    }
  }

  /** The summary toast: its text and icon. */
  datatype Toast = Toast(message: string, icon: string)

  function Summary(successCount: nat, errorCount: nat): (t: Option<Toast>)
    ensures t.Some? <==> successCount > 0 || errorCount > 0
    ensures t.Some? ==> (t.value.icon == "✅" <==> successCount > 0)
    ensures t.Some? && successCount > 0 ==> StartsWith(t.value.message, "Успішно оброблено: ")
    ensures t.Some? && successCount == 0 ==> t.value.message == "Помилок: " + NatToString(errorCount)
  {
    if successCount > 0 || errorCount > 0 then
      Some(Toast(SummaryMessage(successCount, errorCount), if successCount > 0 then "✅" else "❌"))
    else None
  }

  /** The summary text: the counts that are not zero, joined by ", ". */
  function SummaryMessage(successCount: nat, errorCount: nat): (message: string)
    requires successCount > 0 || errorCount > 0
    ensures successCount > 0 ==> StartsWith(message, "Успішно оброблено: ")
    ensures successCount == 0 ==> message == "Помилок: " + NatToString(errorCount)
  {
    var parts := SummaryParts(successCount, errorCount);
    JoinStartsWith(", ", parts);
    Join(", ", parts)
  }

  /** The pieces of the summary text, before they are joined by ", ". */
  function SummaryParts(successCount: nat, errorCount: nat): (parts: seq<string>)
    ensures |parts| > 0 <==> successCount > 0 || errorCount > 0
    ensures successCount > 0 ==> parts[0] == "Успішно оброблено: " + NatToString(successCount)
    ensures successCount == 0 ==> parts == (if errorCount > 0 then ["Помилок: " + NatToString(errorCount)] else [])
  {
    (if successCount > 0 then ["Успішно оброблено: " + NatToString(successCount)] else [])
    + (if errorCount > 0 then ["Помилок: " + NatToString(errorCount)] else [])
  }

  /**
   * `processAudioFiles`.  After signing in, a missing API key with no local
   * server sends the user to the settings and processes nothing; otherwise
   * every file is handled in order and counted.  `toSettings` is the tab
   * switch.
   */
  method ProcessAudioFiles(uploads: seq<Upload>, config: TranscriptionConfig, b: UploadBackend)
    returns (fates: seq<Fate>, successCount: nat, errorCount: nat, summary: Option<Toast>, toSettings: bool)
    ensures b.authError.Some? ==> fates == [] && summary.None? && !toSettings
    ensures b.authError.None? && config.apiKey == "" && !config.useLocalServer ==>
      fates == [] && summary.None? && toSettings
    ensures b.authError.None? && (config.apiKey != "" || config.useLocalServer) ==>
      |fates| == |uploads| && (forall i :: 0 <= i < |uploads| ==> fates[i] == FateOf(uploads[i], i, b)) && !toSettings
    ensures successCount == Successes(fates) && errorCount == Errors(fates)
    ensures summary == Summary(successCount, errorCount)
  {
    fates := [];
    successCount := 0;
    errorCount := 0;
    summary := None;
    toSettings := false;
    if b.authError.Some? {
      return;
    }
    if config.apiKey == "" && !config.useLocalServer {
      toSettings := true;
      return;
    }
    for i := 0 to |uploads|
      invariant |fates| == i
      invariant forall k :: 0 <= k < i ==> fates[k] == FateOf(uploads[k], k, b)
      invariant successCount == Successes(fates) && errorCount == Errors(fates)
    {
      var fate := FateOf(uploads[i], i, b);
      assert (fates + [fate])[..i] == fates;
      fates := fates + [fate];
      successCount := successCount + SuccessOf(fate);
      errorCount := errorCount + ErrorsOf(fate);
    }
    summary := Summary(successCount, errorCount);
  }
}
