/**
 * The `sync-external-calls` edge function
 * (project/supabase/functions/sync-external-calls/index.ts): create the
 * client and read the connection settings, each with up to three attempts
 * and exponential back-off; then copy the call records that have a
 * transcription from the telephony database into the cache, one batch of
 * 100 at a time, stopping at an empty batch or once 1000 rows are copied.
 *
 * Every backend is an oracle indexed by attempt or batch number; pauses are
 * recorded as values.
 */
module SyncCalls {
  import opened Types
  import opened Text

  const Attempts: nat := 3
  const BatchSize: nat := 100
  const SyncCap: nat := 1000

  /** `1000 * Math.pow(2, i)`: the pause after failed attempt `i`. */
  function Delay(i: nat): int
  {
    1000 * Pow2(i)
  }

  /** How the retry helpers settle: the first attempt that succeeds, else the last attempt's error. */
  function Retried<T>(attempt: nat -> Outcome<T>, i: nat): Outcome<T>
    requires i < Attempts
    decreases Attempts - i
  {
    if attempt(i).Done? || i == Attempts - 1 then attempt(i) else Retried(attempt, i + 1)
  }

  /** The pauses the retry helpers make: one after each failed attempt but the last. */
  function RetryWaits<T>(attempt: nat -> Outcome<T>, i: nat): seq<int>
    requires i < Attempts
    decreases Attempts - i
  {
    if attempt(i).Done? || i == Attempts - 1 then [] else [Delay(i)] + RetryWaits(attempt, i + 1)
  }

  /**
   * `createClientWithRetry` and `getSettings` share this loop: try, return
   * on success, rethrow on the last attempt, otherwise pause and go on.
   */
  method WithRetry<T>(attempt: nat -> Outcome<T>) returns (r: Outcome<T>, waits: seq<int>)
    ensures r == Retried(attempt, 0)
    ensures waits == RetryWaits(attempt, 0)
  {
    waits := [];
    var i := 0;
    while true
      invariant i < Attempts
      invariant forall k :: 0 <= k < i ==> attempt(k).Threw?
      invariant Retried(attempt, 0) == Retried(attempt, i)
      invariant RetryWaits(attempt, 0) == waits + RetryWaits(attempt, i)
      decreases Attempts - i
    {
      var outcome := attempt(i);
      if outcome.Done? {
        return outcome, waits;
      }
      if i == Attempts - 1 {
        return outcome, waits;
      }
      waits := waits + [Delay(i)];
      i := i + 1;
    }
  }

  /** The helpers succeed exactly when one of the three attempts does, and otherwise rethrow the third error. */
  lemma {:induction false} RetriedSucceeds<T>(attempt: nat -> Outcome<T>, i: nat)
    requires i < Attempts
    ensures Retried(attempt, i).Done? <==> exists k :: i <= k < Attempts && attempt(k).Done?
    ensures Retried(attempt, i).Threw? ==> Retried(attempt, i) == attempt(Attempts - 1)
    ensures Retried(attempt, i).Done? ==> exists k :: i <= k < Attempts && attempt(k) == Retried(attempt, i)
    decreases Attempts - i
  {
    if !(attempt(i).Done? || i == Attempts - 1) {
      RetriedSucceeds(attempt, i + 1);
    }
  }

  /** When every attempt fails the helpers pause one and then two seconds. */
  lemma AllAttemptsFail<T>(attempt: nat -> Outcome<T>)
    requires forall k :: 0 <= k < Attempts ==> attempt(k).Threw?
    ensures RetryWaits(attempt, 0) == [1000, 2000]
    ensures Retried(attempt, 0) == attempt(2)
  {
    assert Pow2(1) == 2;
  }

  /** The number of pauses is one less than the number of attempts made, so at most two. */
  lemma {:induction false} RetryWaitsCount<T>(attempt: nat -> Outcome<T>, i: nat)
    requires i < Attempts
    ensures |RetryWaits(attempt, i)| <= Attempts - 1 - i
    ensures forall k :: i <= k < i + |RetryWaits(attempt, i)| ==> attempt(k).Threw?
    decreases Attempts - i
  {
    if !(attempt(i).Done? || i == Attempts - 1) {
      RetryWaitsCount(attempt, i + 1);
    }
  }

  /** The parts of `external_database_settings` the sync reads. */
  datatype Settings = Settings(id: string, lastSyncAt: Option<string>)

  /** What `.single()` answers: an error, a row, both absent. */
  datatype SettingsAnswer = SettingsAnswer(error: Option<Thrown>, data: Option<Settings>)

  const NoSettingsMessage: string := "No external database settings found"

  /** One attempt of `getSettings`: an error is thrown first, then a missing row is an error too. */
  function SettingsAttempt(a: SettingsAnswer): (r: Outcome<Settings>)
    ensures r.Done? <==> a.error.None? && a.data.Some?
    ensures r.Done? ==> r.value == a.data.value
    ensures a.error.Some? ==> r == Threw(a.error.value)
    ensures a.error.None? && a.data.None? ==> r == Threw(Raise(NoSettingsMessage))
  {
    if a.error.Some? then Threw(a.error.value)
    else if a.data.None? then Threw(Raise(NoSettingsMessage))
    else Done(a.data.value)
  }

  /** A row of the telephony `cdr` table as the query returns it. */
  datatype CdrRow = CdrRow(
    id: string,
    calldate: int,
    src: string,
    dst: string,
    recordingfile: string,
    callTranscription: string)

  /** A row of `external_calls_cache` as the upsert writes it. */
  datatype CacheRecord = CacheRecord(
    id: string,
    callDate: int,
    source: string,
    destination: string,
    recordingFile: string,
    transcription: string)

  function ToCache(row: CdrRow): CacheRecord
  {
    CacheRecord(row.id, row.calldate, row.src, row.dst, row.recordingfile, row.callTranscription)
  }

  function ToCacheAll(rows: seq<CdrRow>): (r: seq<CacheRecord>)
    ensures |r| == |rows|
    ensures forall k :: 0 <= k < |rows| ==> r[k] == ToCache(rows[k])
  {
    if |rows| == 0 then [] else ToCacheAll(rows[..|rows| - 1]) + [ToCache(rows[|rows| - 1])]
  }

  datatype Param = TextParam(text: string) | NumParam(n: int)

  /**
   * One batch query: whether the `calldate > $1` filter is present, which
   * placeholder LIMIT and OFFSET use, and the parameter list.
   */
  datatype Query = Query(filtered: bool, limitRef: nat, offsetRef: nat, params: seq<Param>)

  function BatchQuery(lastSyncAt: Option<string>, offset: int): (q: Query)
    ensures q.filtered <==> Truthy(lastSyncAt)
    ensures 1 <= q.limitRef <= |q.params| && 1 <= q.offsetRef <= |q.params|
    ensures q.params[q.limitRef - 1] == NumParam(BatchSize)
    ensures q.params[q.offsetRef - 1] == NumParam(offset)
    ensures q.filtered ==> |q.params| == 3 && q.params[0] == TextParam(lastSyncAt.value)
    ensures !q.filtered ==> |q.params| == 2
  {
    if Truthy(lastSyncAt) then Query(true, 2, 3, [TextParam(lastSyncAt.value), NumParam(BatchSize), NumParam(offset)])
    else Query(false, 1, 2, [NumParam(BatchSize), NumParam(offset)])
  }

  /** What one batch query returns: rows, or a failure. */
  datatype Batch = Rows(rows: seq<CdrRow>) | QueryFailed(error: Thrown)

  /** The query honours `LIMIT 100`. */
  predicate Fits(b: Batch)
  {
    b.Rows? ==> |b.rows| <= BatchSize
  }

  /**
   * The batch loop from batch `n` on, with `total` rows already copied:
   * the total it ends with, or the error that aborts it.
   */
  function Loop(batches: nat -> Batch, upsertError: nat -> Option<Thrown>, n: nat, total: nat): Outcome<nat>
    requires total < SyncCap
    decreases SyncCap - total
  {
    match batches(n)
    case QueryFailed(e) => Threw(e)
    case Rows(rows) =>
      if |rows| == 0 then Done(total)
      else if upsertError(n).Some? then Threw(upsertError(n).value)
      else if total + |rows| >= SyncCap then Done(total + |rows|)
      else Loop(batches, upsertError, n + 1, total + |rows|)
  }

  /**
   * The loop stops with at least the rows already copied; when every batch
   * honours the limit it stops below 1100, and it reaches the cap only
   * through batches that were all copied.
   */
  lemma {:induction false} LoopBounds(batches: nat -> Batch, upsertError: nat -> Option<Thrown>, n: nat, total: nat)
    requires total < SyncCap
    ensures Loop(batches, upsertError, n, total).Done? ==> Loop(batches, upsertError, n, total).value >= total
    ensures (forall k :: n <= k ==> Fits(batches(k))) && Loop(batches, upsertError, n, total).Done? ==>
      Loop(batches, upsertError, n, total).value < SyncCap + BatchSize
    decreases SyncCap - total
  {
    match batches(n)
    case QueryFailed(e) =>
    case Rows(rows) =>
      if |rows| > 0 && upsertError(n).None? && total + |rows| < SyncCap {
        LoopBounds(batches, upsertError, n + 1, total + |rows|);
        assert (forall k :: n <= k ==> Fits(batches(k))) ==> (forall k :: n + 1 <= k ==> Fits(batches(k)));
      }
  }

  /** With no rows to copy the loop makes one query and copies nothing. */
  lemma EmptySource(batches: nat -> Batch, upsertError: nat -> Option<Thrown>)
    requires batches(0) == Rows([])
    ensures Loop(batches, upsertError, 0, 0) == Done(0)
  {
  }

  /**
   * The `while (hasMore)` loop: the queries it makes (batch `n` at offset
   * `100 * n`), the batches it upserts, and how it ends.
   */
  method SyncBatches(lastSyncAt: Option<string>, batches: nat -> Batch, upsertError: nat -> Option<Thrown>)
    returns (r: Outcome<nat>, queries: seq<Query>, upserts: seq<seq<CacheRecord>>)
    ensures r == Loop(batches, upsertError, 0, 0)
    ensures |upserts| <= |queries| <= |upserts| + 1 && |queries| >= 1
    ensures Queried(queries, lastSyncAt) && Upserted(upserts, batches)
  {
    var totalSynced: nat := 0;
    var offset := 0;
    var hasMore := true;
    var n := 0;
    queries := [];
    upserts := [];
    r := Done(0);
    while hasMore
      invariant hasMore ==> totalSynced < SyncCap && |queries| == |upserts| == n && offset == BatchSize * n
      invariant hasMore ==> Loop(batches, upsertError, 0, 0) == Loop(batches, upsertError, n, totalSynced)
      invariant !hasMore ==> r == Loop(batches, upsertError, 0, 0) && |upserts| <= |queries| <= |upserts| + 1
      invariant !hasMore ==> |queries| >= 1
      invariant Queried(queries, lastSyncAt) && Upserted(upserts, batches)
      decreases if hasMore then SyncCap + 1 - totalSynced else 0
    {
      QueriedNext(queries, lastSyncAt);
      queries := queries + [BatchQuery(lastSyncAt, offset)];
      var batch := batches(n);
      if batch.QueryFailed? {
        return Threw(batch.error), queries, upserts;
      }
      var rows := batch.rows;
      if |rows| == 0 {
        hasMore := false;
        r := Done(totalSynced);
        break;
      }
      UpsertedNext(upserts, batches);
      upserts := upserts + [ToCacheAll(rows)];
      var failure := upsertError(n);
      if failure.Some? {
        return Threw(failure.value), queries, upserts;
      }
      totalSynced := totalSynced + |rows|;
      offset := offset + BatchSize;
      n := n + 1;
      if totalSynced >= SyncCap {
        hasMore := false;
        r := Done(totalSynced);
      }
    }
  }

  /** Query `n` asks for the batch at offset `100 * n`. */
  predicate Queried(queries: seq<Query>, lastSyncAt: Option<string>)
  {
    forall n :: 0 <= n < |queries| ==> queries[n] == BatchQuery(lastSyncAt, BatchSize * n)
  }

  /** Upsert `n` writes batch `n`, converted. */
  predicate Upserted(upserts: seq<seq<CacheRecord>>, batches: nat -> Batch)
  {
    forall n :: 0 <= n < |upserts| ==> batches(n).Rows? && upserts[n] == ToCacheAll(batches(n).rows)
  }

  lemma QueriedNext(queries: seq<Query>, lastSyncAt: Option<string>)
    requires Queried(queries, lastSyncAt)
    ensures Queried(queries + [BatchQuery(lastSyncAt, BatchSize * |queries|)], lastSyncAt)
  {
  }

  lemma UpsertedNext(upserts: seq<seq<CacheRecord>>, batches: nat -> Batch)
    requires Upserted(upserts, batches) && batches(|upserts|).Rows?
    ensures Upserted(upserts + [ToCacheAll(batches(|upserts|).rows)], batches)
  {
  }

  /** The function's answer. */
  datatype Reply =
    | Preflight
    | JsonReply(status: int, success: bool, message: Option<string>, error: Option<string>)

  /** `error.message`, absent from the JSON when the thrown value has none. */
  function ErrorReply(e: Thrown): (r: Reply)
    ensures r.JsonReply? && r.status == 500 && !r.success && r.message.None?
    ensures r.error.Some? <==> !e.OtherValue?
    ensures r.error.Some? ==> r.error.value == e.message
  {
    JsonReply(500, false, None, MessageField(e))
  }

  /** What the function did besides answering. */
  datatype Log = Log(
    waits: seq<int>,
    queries: seq<Query>,
    upserts: seq<seq<CacheRecord>>,
    lastSyncUpdated: bool,
    poolOpened: bool,
    poolEnded: bool,
    connected: bool,
    released: bool)

  const NoLog: Log := Log([], [], [], false, false, false, false, false)

  /** How `getSettings` settles. */
  function SettingsTried(settingsAnswers: nat -> SettingsAnswer): Outcome<Settings>
  {
    Retried((k: nat) => SettingsAttempt(settingsAnswers(k)), 0)
  }

  /** The pipeline up to the pool: the client, then the settings. */
  method Prepare(clientAttempts: nat -> Outcome<()>, settingsAnswers: nat -> SettingsAnswer)
    returns (settings: Outcome<Settings>, waits: seq<int>)
    ensures settings.Done? <==> Retried(clientAttempts, 0).Done? && SettingsTried(settingsAnswers).Done?
    ensures Retried(clientAttempts, 0).Threw? ==> settings == Threw(Retried(clientAttempts, 0).error)
    ensures Retried(clientAttempts, 0).Done? ==> settings == SettingsTried(settingsAnswers)
    ensures |waits| <= 2 * (Attempts - 1)
  {
    var client, w1 := WithRetry(clientAttempts);
    RetryWaitsCount(clientAttempts, 0);
    if client.Threw? {
      return Threw(client.error), w1;
    }
    var w2;
    settings, w2 := WithRetry((k: nat) => SettingsAttempt(settingsAnswers(k)));
    RetryWaitsCount((k: nat) => SettingsAttempt(settingsAnswers(k)), 0);
    waits := w1 + w2;
  }

  /**
   * The request handler.  A pre-flight request is answered at once.
   * Otherwise any error before the pool exists, while connecting, in a
   * query or in an upsert becomes a 500 reply; the client is released and
   * the pool ended on every path that reached them.
   */
  method HandleRequest(isOptions: bool, clientAttempts: nat -> Outcome<()>, settingsAnswers: nat -> SettingsAnswer,
                       connectError: Option<Thrown>, batches: nat -> Batch, upsertError: nat -> Option<Thrown>)
    returns (reply: Reply, log: Log)
    ensures isOptions ==> reply == Preflight && log == NoLog
    ensures !isOptions ==> reply.JsonReply? && (reply.status == 200 <==> reply.success)
    ensures log.poolEnded == log.poolOpened && log.released == log.connected
    ensures log.connected ==> log.poolOpened
    ensures !isOptions ==>
      (log.poolOpened <==> Retried(clientAttempts, 0).Done? && SettingsTried(settingsAnswers).Done?)
    ensures log.connected <==> log.poolOpened && connectError.None?
    ensures log.connected ==> Queried(log.queries, SettingsTried(settingsAnswers).value.lastSyncAt)
                              && Upserted(log.upserts, batches)
    ensures reply.JsonReply? && reply.success ==>
      log.connected && Loop(batches, upsertError, 0, 0).Done?
      && reply.message == Some("Synced " + NatToString(Loop(batches, upsertError, 0, 0).value) + " records")
    ensures log.connected && Loop(batches, upsertError, 0, 0).Done? ==> reply.JsonReply? && reply.success
    ensures log.connected && Loop(batches, upsertError, 0, 0).Threw? ==> reply == ErrorReply(Loop(batches, upsertError, 0, 0).error)
    ensures log.lastSyncUpdated <==> reply.JsonReply? && reply.success && Loop(batches, upsertError, 0, 0).value > 0
  {
    if isOptions {
      return Preflight, NoLog;
    }
    log := NoLog;
    var settings, waits := Prepare(clientAttempts, settingsAnswers);
    log := log.(waits := waits);
    if settings.Threw? {
      return ErrorReply(settings.error), log;
    }
    log := log.(poolOpened := true);
    if connectError.Some? {
      log := log.(poolEnded := true);
      return ErrorReply(connectError.value), log;
    }
    log := log.(connected := true);
    var outcome, queries, upserts := SyncBatches(settings.value.lastSyncAt, batches, upsertError);
    log := log.(queries := queries, upserts := upserts);
    if outcome.Threw? {
      reply := ErrorReply(outcome.error);
    } else {
      var totalSynced := outcome.value;
      if totalSynced > 0 {
        log := log.(lastSyncUpdated := true);
      }
      reply := JsonReply(200, true, Some("Synced " + NatToString(totalSynced) + " records"), None);
    }
    log := log.(released := true, poolEnded := true);
  }
}
