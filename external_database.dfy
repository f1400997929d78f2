/**
 * The browser side of the external call cache
 * (project/src/lib/externalDatabase.ts): `syncExternalCalls`, which asks
 * the `sync-external-calls` edge function to refresh the cache at most once
 * per ten seconds and never twice at the same time, and `getExternalCalls`,
 * which reads one page of the cache and turns each row into a file record.
 *
 * The clock reading and the edge function's answer are parameters.  The
 * `await` in the middle of a sync is modelled by splitting it into `Start`
 * (the guards and the flags set before the call) and `Settle` (what happens
 * with the answer, and the `finally`), so that a call arriving while a sync
 * is in flight can be described.
 */
module ExternalDatabase {
  import opened Types
  import Text

  const MinSyncInterval: int := 10000

  /** How `supabase.functions.invoke` settles. */
  datatype InvokeResult =
    | Answered(message: Option<string>)
    | ReturnedError(error: Thrown)
    | InvokeThrew(error: Thrown)

  /** A time-out, or an edge function that is not deployed: both end the sync silently. */
  predicate Swallowed(e: Thrown)
  {
    e.ErrorValue? && (e.name == "AbortError" || e.name == "FunctionsFetchError")
  }

  /**
   * What `syncExternalCalls` throws for an answer.  An error the function
   * returns is thrown inside the `try`, so the `catch` looks at it once more;
   * a thrown error is looked at by the `catch` alone.  Both tests are the same.
   */
  function SyncError(result: InvokeResult): (r: Option<Thrown>)
    ensures result.Answered? ==> r.None?
    ensures !result.Answered? ==> (r.None? <==> Swallowed(result.error))
    ensures r.Some? ==> r.value == result.error
  {
    match result
    case Answered(_) => None
    case ReturnedError(e) => if e.ErrorValue? && e.name == "AbortError" then None
                             else if e.ErrorValue? && e.name == "FunctionsFetchError" then None
                             else Some(e)
    case InvokeThrew(e) => if e.ErrorValue? && e.name == "AbortError" then None
                           else if e.ErrorValue? && e.name == "FunctionsFetchError" then None
                           else Some(e)
  }

  /** The module variables `syncInProgress` and `lastSyncTime`. */
  class SyncGuard {
    var syncInProgress: bool
    var lastSyncTime: int

    constructor ()
      ensures !syncInProgress && lastSyncTime == 0
    {
      syncInProgress := false;
      lastSyncTime := 0;
    }

    /** The call is turned away: too soon after the last start, or while another sync runs. */
    predicate Blocked(now: int)
      reads this
    {
      now - lastSyncTime < MinSyncInterval || syncInProgress
    }

    /**
     * Everything before the `await`: the two guards, then both flags.  On
     * success `sent` is the `lastSync` value put in the request body, which
     * is the new `lastSyncTime`, that is, `now`.
     */
    method Start(now: int) returns (sent: Option<int>)
      modifies this
      ensures old(Blocked(now)) ==> sent.None? && syncInProgress == old(syncInProgress) && lastSyncTime == old(lastSyncTime)
      ensures !old(Blocked(now)) ==> sent == Some(now) && syncInProgress && lastSyncTime == now
    {
      if now - lastSyncTime < MinSyncInterval {
        return None;
      }
      if syncInProgress {
        return None;
      }
      syncInProgress := true;
      lastSyncTime := now;
      sent := Some(lastSyncTime);
    }

    /** Everything after the `await`: the error handling, then the `finally`. */
    method Settle(result: InvokeResult) returns (r: Option<Thrown>)
      modifies this
      ensures r == SyncError(result)
      ensures !syncInProgress && lastSyncTime == old(lastSyncTime)
    {
      r := None;
      if !result.Answered? {
        var e := result.error;
        if e.ErrorValue? && e.name == "AbortError" {
          r := None;
        } else if e.ErrorValue? && e.name == "FunctionsFetchError" {
          r := None;
        } else {
          r := Some(e);
        }
      }
      syncInProgress := false;
    }

    /** One whole call with nothing interleaved. */
    method SyncExternalCalls(now: int, result: InvokeResult) returns (sent: Option<int>, r: Option<Thrown>)
      modifies this
      ensures old(Blocked(now)) ==> sent.None? && r.None? && syncInProgress == old(syncInProgress)
                                    && lastSyncTime == old(lastSyncTime)
      ensures !old(Blocked(now)) ==> sent == Some(now) && r == SyncError(result) && !syncInProgress
                                     && lastSyncTime == now
    {
      sent := Start(now);
      r := None;
      if sent.Some? {
        r := Settle(result);
      }
    }
  }

  /**
   * A started sync throttles the next call for ten seconds whether it
   * failed or not, and a call made while it is in flight never gets through.
   */
  method ThrottleAfterSync(t0: int, t1: int, t2: int, result: InvokeResult)
    returns (first: Option<int>, during: Option<int>, after: Option<int>)
    requires MinSyncInterval <= t0
    ensures first == Some(t0)
    ensures during.None?
    ensures t2 - t0 < MinSyncInterval ==> after.None?
    ensures t2 - t0 >= MinSyncInterval ==> after == Some(t2)
  {
    var guard := new SyncGuard();
    first := guard.Start(t0);
    during := guard.Start(t1);
    var r := guard.Settle(result);
    after := guard.Start(t2);
  }

  /** The inclusive row range `.range(from, to)` that page `page` asks for. */
  datatype Range = Range(from: int, to: int)

  function PageRange(page: int, pageSize: int): (r: Range)
    ensures r.to - r.from + 1 == pageSize
  {
    Range((page - 1) * pageSize, page * pageSize - 1)
  }

  lemma MulMonotone(c: int, a: int, b: int)
    requires c >= 0 && a <= b
    ensures c * a <= c * b
  {
    assert c * b - c * a == c * (b - a);
  }

  /** Consecutive pages are adjacent: the next page starts right after this one ends. */
  lemma PagesAdjacent(page: int, pageSize: int)
    ensures PageRange(page + 1, pageSize).from == PageRange(page, pageSize).to + 1
  {
  }

  /** Distinct pages never share a row. */
  lemma PagesDisjoint(p: int, q: int, pageSize: int, row: int)
    requires pageSize >= 1 && p < q
    requires PageRange(p, pageSize).from <= row <= PageRange(p, pageSize).to
    ensures !(PageRange(q, pageSize).from <= row <= PageRange(q, pageSize).to)
  {
    MulMonotone(pageSize, p, q - 1);
    assert (q - 1) * pageSize == q * pageSize - pageSize;
  }

  /** Every row of the ordered cache lies on page `row / pageSize + 1`. */
  lemma RowOnPage(row: nat, pageSize: int)
    requires pageSize >= 1
    ensures PageRange(row / pageSize + 1, pageSize).from <= row <= PageRange(row / pageSize + 1, pageSize).to
  {
    var q := row / pageSize;
    assert row == q * pageSize + row % pageSize;
    assert (q + 1) * pageSize == q * pageSize + pageSize;
  }

  /** A row of `external_calls_cache`; the call date is a timestamp. */
  datatype CacheRow = CacheRow(
    id: string,
    callDate: int,
    source: string,
    destination: string,
    recordingFile: string,
    transcription: Option<string>)

  /** The analysis every cached call is shown with. */
  const EmptyAnalysis: Analysis := Analysis([], [], 5, "")

  /**
   * One cached call as a file record: completed at 100 per cent, size 0,
   * the neutral analysis.  `dateLabel` stands for `toLocaleString('uk-UA')`.
   */
  function MapRow(row: CacheRow, dateLabel: int -> string): (f: AudioFile)
    ensures f.id == row.id && f.path == row.recordingFile && f.transcription == row.transcription
    ensures f.status == Completed && f.progress == 100 && f.size == 0 && f.createdAt == row.callDate
    ensures f.analysis == Some(Analysis([], [], 5, ""))
    ensures f.name == dateLabel(row.callDate) + " - " + row.source + " → " + row.destination
  {
    AudioFile(row.id, dateLabel(row.callDate) + " - " + row.source + " → " + row.destination,
              row.recordingFile, 0, Completed, None, row.transcription, None, 100, None, row.callDate,
              None, Some(EmptyAnalysis), None)
  }

  function MapRows(rows: seq<CacheRow>, dateLabel: int -> string): (files: seq<AudioFile>)
    ensures |files| == |rows|
    ensures forall k :: 0 <= k < |rows| ==> files[k] == MapRow(rows[k], dateLabel)
  {
    if |rows| == 0 then [] else MapRows(rows[..|rows| - 1], dateLabel) + [MapRow(rows[|rows| - 1], dateLabel)]
  }

  /** The mapping keeps exactly the ids of the page's rows. */
  lemma MapRowsIds(rows: seq<CacheRow>, dateLabel: int -> string)
    ensures Ids(MapRows(rows, dateLabel)) == set k | 0 <= k < |rows| :: rows[k].id
  {
    var files := MapRows(rows, dateLabel);
    forall x | x in set k | 0 <= k < |rows| :: rows[k].id
      ensures x in Ids(files)
    {
      var k :| 0 <= k < |rows| && rows[k].id == x;
      assert files[k].id == x;
    }
  }

  /** The search filter handed to `.or(...)`, present only for a non-empty search. */
  function SearchFilter(search: Option<string>): (r: Option<string>)
    ensures r.Some? <==> Truthy(search)
    ensures r.Some? ==> Text.Contains(r.value, search.value)
  {
    if Truthy(search) then
      var s := search.value;
      var rest := "%,destination.ilike.%" + s + "%,transcription.ilike.%" + s + "%";
      Text.ContainsInfix("source.ilike.%", s, rest);
      Some("source.ilike.%" + s + rest)
    else None
  }

  /**
   * The request one page makes: the optional filter, the sort column and
   * direction, and the row range.
   */
  datatype PageQuery = PageQuery(filter: Option<string>, orderBy: string, ascending: bool, range: Range)

  /** What the cache answers: an error, or the rows (possibly null) and the exact count (possibly null). */
  datatype CacheAnswer = CacheError(error: Thrown) | CacheRows(rows: Option<seq<CacheRow>>, count: Option<int>)

  datatype CallsPage = CallsPage(data: seq<AudioFile>, total: int)

  /** `count || 0`. */
  function Total(count: Option<int>): (t: int)
    ensures count.Some? && count.value != 0 ==> t == count.value
    ensures count.None? || count.value == 0 ==> t == 0
  {
    if count.Some? && count.value != 0 then count.value else 0
  }

  /** `getExternalCalls`: the request it makes, and what it returns or rethrows for the answer. */
  function GetExternalCalls(page: int, pageSize: int, search: Option<string>, answer: CacheAnswer,
                            dateLabel: int -> string): (r: (PageQuery, Outcome<CallsPage>))
    ensures r.0 == PageQuery(SearchFilter(search), "call_date", false, PageRange(page, pageSize))
    ensures answer.CacheError? ==> r.1 == Threw(answer.error)
    ensures answer.CacheRows? ==> r.1.Done? && r.1.value.total == Total(answer.count)
    ensures answer.CacheRows? && answer.rows.None? ==> r.1.value.data == []
    ensures answer.CacheRows? && answer.rows.Some? ==> r.1.value.data == MapRows(answer.rows.value, dateLabel)
  {
    var query := PageQuery(SearchFilter(search), "call_date", false, PageRange(page, pageSize));
    match answer
    case CacheError(e) => (query, Threw(e))
    case CacheRows(rows, count) =>
      var data := if rows.Some? then rows.value else [];
      (query, Done(CallsPage(MapRows(data, dateLabel), Total(count))))
  }
}
