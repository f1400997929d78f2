/**
 * The database helpers of project/src/lib/supabase.ts: the memoised
 * anonymous sign-in `ensureAuth`, and the two bounded-retry writers
 * `logTranscriptionEvent` and `updateFileStatus`.
 *
 * The backend is an oracle.  For the writers, `answers(k)` is what try `k`
 * meets: its `ensureAuth` throws, or it passes and the write returns an
 * error or none.  `clock(k)` is the time read during try `k`.  Waits are
 * recorded as values instead of being slept.
 */
module Supabase {
  import opened Types

  const MaxTries: nat := 3
  const RetryDelay: int := 1000

  /**
   * What one try of a retrying writer meets: `ensureAuth` throws (and no
   * write is sent), or it passes and the write comes back with or without
   * an error.
   */
  datatype TryAnswer = AuthThrew(error: Thrown) | Wrote(writeError: Option<Thrown>)

  /** The error a try ends with, if any: the sign-in's or the write's. */
  function TryError(t: TryAnswer): (e: Option<Thrown>)
    ensures e.None? <==> t == Wrote(None)
    ensures t.AuthThrew? ==> e == Some(t.error)
  {
    match t
    case AuthThrew(e) => Some(e)
    case Wrote(w) => w
  }

  /** Index of the first successful try at or after `i` among the three, or 3. */
  function FirstSuccess(answers: nat -> TryAnswer, i: nat): (j: nat)
    requires i <= MaxTries
    ensures i <= j <= MaxTries
    ensures forall k :: i <= k < j ==> TryError(answers(k)).Some?
    ensures j < MaxTries ==> answers(j) == Wrote(None)
    decreases MaxTries - i
  {
    if i == MaxTries || TryError(answers(i)).None? then i else FirstSuccess(answers, i + 1)
  }

  /** How many tries a retry loop makes: up to and including the first success, at most three. */
  function Tries(answers: nat -> TryAnswer): (n: nat)
    ensures 1 <= n <= MaxTries
  {
    var j := FirstSuccess(answers, 0);
    if j < MaxTries then j + 1 else MaxTries
  }

  /** How a retry loop settles: success if any of the three tries succeeds, else the third try's error. */
  function Settled(answers: nat -> TryAnswer): Option<Thrown>
  {
    if FirstSuccess(answers, 0) < MaxTries then None else TryError(answers(MaxTries - 1))
  }

  function Waits(n: nat): (r: seq<int>)
    ensures |r| == n
    ensures forall k :: 0 <= k < n ==> r[k] == RetryDelay
  {
    if n == 0 then [] else Waits(n - 1) + [RetryDelay]
  }

  /**
   * The tries among the first `n` whose `ensureAuth` passed, in order:
   * exactly these send their write.
   */
  function Passed(answers: nat -> TryAnswer, n: nat): (ks: seq<nat>)
    ensures forall j :: 0 <= j < |ks| ==> ks[j] < n && answers(ks[j]).Wrote?
  {
    if n == 0 then []
    else Passed(answers, n - 1) + (if answers(n - 1).Wrote? then [n - 1] else [])
  }

  /** `Passed` lists every try before `n` whose sign-in passed, each once, in increasing order. */
  lemma {:induction false} PassedExactly(answers: nat -> TryAnswer, n: nat)
    ensures forall k :: 0 <= k < n && answers(k).Wrote? ==> k in Passed(answers, n)
    ensures forall i, j :: 0 <= i < j < |Passed(answers, n)| ==> Passed(answers, n)[i] < Passed(answers, n)[j]
  {
    if n > 0 {
      PassedExactly(answers, n - 1);
    }
  }

  /** A retry loop waits only between failures: one wait fewer than it has tries. */
  lemma RetryShape(answers: nat -> TryAnswer)
    ensures Settled(answers).None? <==> exists k :: 0 <= k < MaxTries && answers(k) == Wrote(None)
    ensures Settled(answers).None? ==> answers(Tries(answers) - 1) == Wrote(None)
    ensures forall k :: 0 <= k < Tries(answers) - 1 ==> TryError(answers(k)).Some?
    ensures Settled(answers).Some? ==> Tries(answers) == MaxTries && Settled(answers) == TryError(answers(2))
  {
  }

  /** A first try that succeeds ends the loop at once, with one write and no wait. */
  lemma FirstAttemptSucceeds(answers: nat -> TryAnswer)
    requires answers(0) == Wrote(None)
    ensures Tries(answers) == 1 && Settled(answers).None? && Waits(Tries(answers) - 1) == []
    ensures Passed(answers, Tries(answers)) == [0]
  {
  }

  /**
   * A try whose sign-in throws sends nothing: when the first sign-in throws
   * and the second try succeeds, two tries are made but only one write is
   * sent, the second try's.
   */
  lemma AuthFailureSendsNothing(answers: nat -> TryAnswer, e: Thrown)
    requires answers(0) == AuthThrew(e) && answers(1) == Wrote(None)
    ensures Tries(answers) == 2 && Settled(answers).None?
    ensures Passed(answers, Tries(answers)) == [1]
  {
  }

  /** A loop that settles without error has sent a write in its last try, the one that succeeded. */
  lemma SuccessSent(answers: nat -> TryAnswer)
    requires Settled(answers).None?
    ensures var ks := Passed(answers, Tries(answers)); |ks| > 0 && ks[|ks| - 1] == Tries(answers) - 1
  {
  }

  /** `sent` holds one write per try among the first `n` whose sign-in passed, built by `row` from that try. */
  ghost predicate SentSoFar<T>(answers: nat -> TryAnswer, n: nat, sent: seq<T>, row: nat -> T)
  {
    var ks := Passed(answers, n);
    |sent| == |ks| && forall j :: 0 <= j < |sent| ==> sent[j] == row(ks[j])
  }

  /** One more try: a write is added exactly when that try's sign-in passed. */
  lemma SentStep<T>(answers: nat -> TryAnswer, n: nat, sent: seq<T>, row: nat -> T)
    requires SentSoFar(answers, n, sent, row)
    ensures SentSoFar(answers, n + 1, if answers(n).Wrote? then sent + [row(n)] else sent, row)
  {
  }

  /**
   * The retry loop both writers share: up to three tries, each sending the
   * write `row(k)` unless its sign-in throws, a one-second pause after each
   * failed try but the last, and the last error thrown after three failures.
   */
  method RetryWrite<T>(row: nat -> T, answers: nat -> TryAnswer)
    returns (r: Option<Thrown>, sent: seq<T>, waits: seq<int>)
    ensures var ks := Passed(answers, Tries(answers));
      |sent| == |ks| && forall j :: 0 <= j < |sent| ==> sent[j] == row(ks[j])
    ensures r == Settled(answers)
    ensures waits == Waits(Tries(answers) - 1)
  {
    var retries := MaxTries;
    sent := [];
    waits := [];
    r := None;
    while retries > 0
      invariant 0 <= retries <= MaxTries
      invariant SentSoFar(answers, MaxTries - retries, sent, row)
      invariant forall k :: 0 <= k < MaxTries - retries ==> TryError(answers(k)).Some?
      invariant waits == Waits(if retries == 0 then MaxTries - 1 else MaxTries - retries)
      invariant r == (if retries == 0 then TryError(answers(MaxTries - 1)) else None)
      decreases retries
    {
      var attempt := MaxTries - retries;
      SentStep(answers, attempt, sent, row);
      match answers(attempt) {
        case AuthThrew(_) =>
        case Wrote(_) =>
          sent := sent + [row(attempt)];
      }
      if answers(attempt) == Wrote(None) {
        SettledAt(answers, attempt);
        return None, sent, waits;
      }
      retries := retries - 1;
      if retries == 0 {
        r := TryError(answers(attempt));
      } else {
        waits := waits + [RetryDelay];
      }
    }
    SettledFailing(answers);
  }

  /** When the tries before `j` all failed, the first success is found from `j` on. */
  lemma {:induction false} FirstSuccessFrom(answers: nat -> TryAnswer, j: nat)
    requires j <= MaxTries
    requires forall k :: 0 <= k < j ==> TryError(answers(k)).Some?
    requires j == MaxTries || answers(j) == Wrote(None)
    ensures FirstSuccess(answers, 0) == j
  {
    FirstSuccessSkip(answers, 0, j);
  }

  /** A loop whose tries before `n` failed and whose try `n` succeeded makes `n + 1` tries and succeeds. */
  lemma SettledAt(answers: nat -> TryAnswer, n: nat)
    requires n < MaxTries && answers(n) == Wrote(None)
    requires forall k :: 0 <= k < n ==> TryError(answers(k)).Some?
    ensures Tries(answers) == n + 1 && Settled(answers).None?
  {
    FirstSuccessFrom(answers, n);
  }

  /** A loop whose three tries all failed makes three tries and throws the third error. */
  lemma SettledFailing(answers: nat -> TryAnswer)
    requires forall k :: 0 <= k < MaxTries ==> TryError(answers(k)).Some?
    ensures Tries(answers) == MaxTries && Settled(answers) == TryError(answers(MaxTries - 1))
  {
    FirstSuccessFrom(answers, MaxTries);
  }

  lemma {:induction false} FirstSuccessSkip(answers: nat -> TryAnswer, i: nat, j: nat)
    requires i <= j <= MaxTries
    requires forall k :: i <= k < j ==> TryError(answers(k)).Some?
    requires j == MaxTries || answers(j) == Wrote(None)
    ensures FirstSuccess(answers, i) == j
    decreases j - i
  {
    if i < j {
      FirstSuccessSkip(answers, i + 1, j);
    }
  }

  /** A row of `transcription_logs`. */
  datatype LogRow = LogRow(fileId: string, level: Level, message: string, createdAt: int)

  /**
   * `logTranscriptionEvent`: insert the row, retrying up to three times with
   * a one-second pause after each failed try but the last.  A try whose
   * sign-in throws inserts nothing; each insert is stamped with the time of
   * its own try.
   */
  method LogTranscriptionEvent(fileId: string, level: Level, message: string, clock: nat -> int,
                               answers: nat -> TryAnswer)
    returns (r: Option<Thrown>, inserts: seq<LogRow>, waits: seq<int>)
    ensures var ks := Passed(answers, Tries(answers));
      |inserts| == |ks| &&
      forall j :: 0 <= j < |inserts| ==> inserts[j] == LogRow(fileId, level, message, clock(ks[j]))
    ensures r == Settled(answers)
    ensures waits == Waits(Tries(answers) - 1)
  {
    r, inserts, waits := RetryWrite((k: nat) => LogRow(fileId, level, message, clock(k)), answers);
  }

  /** The record `updateFileStatus` writes. */
  datatype UpdateData = UpdateData(
    status: Status,
    progress: Option<int>,
    error: Option<string>,
    updatedAt: int,
    processingTime: Option<int>)

  /**
   * `progress ?? null` and `error ?? null` keep every given value, zero and
   * the empty string included; `processing_time` is stamped for a completed
   * file only.
   */
  function BuildUpdate(status: Status, progress: Option<int>, error: Option<string>, now: int): (u: UpdateData)
    ensures u.status == status && u.progress == progress && u.error == error && u.updatedAt == now
    ensures u.processingTime.Some? <==> status == Completed
    ensures u.processingTime.Some? ==> u.processingTime.value == now
  {
    UpdateData(status, progress, error, now, if status == Completed then Some(now) else None)
  }

  /**
   * `updateFileStatus`: the same retry shape around the status update; a
   * try whose sign-in throws sends nothing, and each update is built with
   * the time of its own try.
   */
  method UpdateFileStatus(fileId: string, status: Status, progress: Option<int>, error: Option<string>,
                          clock: nat -> int, answers: nat -> TryAnswer)
    returns (r: Option<Thrown>, updates: seq<UpdateData>, waits: seq<int>)
    ensures var ks := Passed(answers, Tries(answers));
      |updates| == |ks| &&
      forall j :: 0 <= j < |updates| ==> updates[j] == BuildUpdate(status, progress, error, clock(ks[j]))
    ensures r == Settled(answers)
    ensures waits == Waits(Tries(answers) - 1)
  {
    r, updates, waits := RetryWrite((k: nat) => BuildUpdate(status, progress, error, clock(k)), answers);
  }

  /** What the auth backend answers during one sign-in sequence. */
  datatype AuthAnswers = AuthAnswers(
    sessionError: Option<Thrown>,
    hasSession: bool,
    signIn: Option<Thrown>,
    signUp: Option<Thrown>,
    signInAgain: Option<Thrown>)

  datatype AuthCall = GetSession | SignIn | SignUp | Pause(ms: int)

  /** The calls the sign-in sequence makes, in order. */
  function AuthCalls(a: AuthAnswers): seq<AuthCall>
  {
    if a.sessionError.Some? || a.hasSession then [GetSession]
    else if a.signIn.None? then [GetSession, SignIn]
    else if a.signUp.Some? then [GetSession, SignIn, SignUp]
    else [GetSession, SignIn, SignUp, Pause(1000), SignIn]
  }

  /**
   * How the sign-in sequence ends: a rejected `getSession` is rethrown;
   * otherwise a session, a good first sign-in, or sign-up then sign-in.
   */
  function AuthError(a: AuthAnswers): Option<Thrown>
  {
    if a.sessionError.Some? then a.sessionError
    else if a.hasSession || a.signIn.None? then None
    else if a.signUp.Some? then a.signUp
    else a.signInAgain
  }

  /**
   * The module variable `authPromise`, seen sequentially: it is held only
   * by a sign-in that succeeded, since a failure clears it.
   */
  class AuthCache {
    var cached: bool

    constructor ()
      ensures !cached
    {
      cached := false;
    }

    method EnsureAuth(a: AuthAnswers) returns (r: Option<Thrown>, calls: seq<AuthCall>)
      modifies this
      ensures old(cached) ==> r == None && calls == [] && cached
      ensures !old(cached) ==> r == AuthError(a) && calls == AuthCalls(a)
      ensures cached <==> r.None?
    {
      if cached {
        return None, [];
      }
      cached := true;
      calls := [GetSession];
      r := None;
      if a.sessionError.Some? {
        r := a.sessionError;
      } else if !a.hasSession {
        calls := calls + [SignIn];
        if a.signIn.Some? {
          calls := calls + [SignUp];
          if a.signUp.Some? {
            r := a.signUp;
          } else {
            calls := calls + [Pause(1000), SignIn];
            if a.signInAgain.Some? {
              r := a.signInAgain;
            }
          }
        }
      }
      if r.Some? {
        cached := false;
      }
    }
  }

  /** A failed sign-in is retried in full by the next call; a successful one is reused. */
  method AuthTwice(a1: AuthAnswers, a2: AuthAnswers) returns (r1: Option<Thrown>, r2: Option<Thrown>, calls2: seq<AuthCall>)
    ensures r1 == AuthError(a1)
    ensures r1.None? ==> r2.None? && calls2 == []
    ensures r1.Some? ==> r2 == AuthError(a2) && calls2 == AuthCalls(a2)
  {
    var cache := new AuthCache();
    var calls1;
    r1, calls1 := cache.EnsureAuth(a1);
    r2, calls2 := cache.EnsureAuth(a2);
  }

  /** Signing in fails only when the session check is rejected, or the first sign-in failed and a sign-up or second sign-in failed too. */
  lemma AuthFailure(a: AuthAnswers)
    ensures AuthError(a).Some? <==> a.sessionError.Some? || (!a.hasSession && a.signIn.Some? && (a.signUp.Some? || a.signInAgain.Some?))
    ensures AuthError(a).Some? ==> AuthCalls(a)[|AuthCalls(a)| - 1] in {GetSession, SignUp, SignIn}
    ensures a.sessionError.Some? ==> AuthError(a) == a.sessionError && AuthCalls(a) == [GetSession]
  {
  }
}
