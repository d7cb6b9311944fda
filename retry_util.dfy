/**
 * The Python retry helper: `RetryUtil.retry_operation_sync` and
 * `RetryUtil.retry_operation_with_stats_sync`. The operation is an oracle
 * `attempt index -> Outcome`; sleeping is recorded as the list of durations
 * (in seconds) the helper would sleep, in order.
 */
module RetryUtil {
  import opened Optional

  /** What an attempt can raise. Only `WorkflowTerminateError` stops the retries early. */
  datatype Exception =
    | WorkflowTerminateError(reason: string)
    | OtherError(message: string)
    | RuntimeError(message: string)

  /** What one call of the operation does. */
  datatype Outcome<V> = Returned(value: V) | Raised(error: Exception)

  /** `RetryOptions`; the delays are milliseconds, the backoff factor a real number. */
  datatype RetryOptions = RetryOptions(
    maxAttempts: int,
    delayMs: int,
    backoffFactor: real,
    maxDelayMs: int,
    logRetries: bool)

  /** `RetryStats`; `totalDelay` is in seconds. */
  datatype RetryStats<V> = RetryStats(
    attempts: nat,
    totalDelay: real,
    success: bool,
    lastError: Option<Exception>,
    results: Option<V>)

  const DefaultOptions: RetryOptions := RetryOptions(3, 1000, 2.0, 30000, true)

  const NoClearException: string := "Retry operation failed without a clear exception."

  /** `options or RetryOptions()`: an options object is always truthy. */
  function Effective(options: Option<RetryOptions>): RetryOptions {
    options.GetOr(DefaultOptions)
  }

  function Min(a: real, b: real): real {
    if a <= b then a else b
  }

  /** `min(current_delay_ms * backoff_factor, max_delay_ms)`. */
  function NextDelay(o: RetryOptions, d: real): real {
    Min(d * o.backoffFactor, o.maxDelayMs as real)
  }

  /** The delay, in milliseconds, in force before attempt `k`'s retry. */
  function DelayAt(o: RetryOptions, k: nat): real {
    if k == 0 then o.delayMs as real else NextDelay(o, DelayAt(o, k - 1))
  }

  /** The first `n` sleeps, in seconds. */
  function SleepsFor(o: RetryOptions, n: nat): (r: seq<real>)
    ensures |r| == n
  {
    if n == 0 then [] else SleepsFor(o, n - 1) + [DelayAt(o, n - 1) / 1000.0]
  }

  function Sum(xs: seq<real>): real {
    if |xs| == 0 then 0.0 else Sum(xs[..|xs| - 1]) + xs[|xs| - 1]
  }

  /** An outcome after which the helper tries again (if attempts remain). */
  predicate Retryable<V>(o: Outcome<V>) {
    o.Raised? && !o.error.WorkflowTerminateError?
  }

  /** The index of the attempt at which the loop, started at attempt `k`, stops. */
  function LastAttempt<V>(op: nat -> Outcome<V>, k: nat, maxAttempts: int): nat
    requires k < maxAttempts
    decreases maxAttempts - k
  {
    if k == maxAttempts - 1 || !Retryable(op(k)) then k else LastAttempt(op, k + 1, maxAttempts)
  }

  /** How many times the operation is called. */
  function CallCount<V>(op: nat -> Outcome<V>, maxAttempts: int): nat {
    if maxAttempts <= 0 then 0 else LastAttempt(op, 0, maxAttempts) + 1
  }

  /** What `retry_operation_sync` returns or raises. */
  function SyncResult<V>(op: nat -> Outcome<V>, o: RetryOptions): Result<V, Exception> {
    if o.maxAttempts <= 0 then Err(RuntimeError(NoClearException))
    else
      var last := op(CallCount(op, o.maxAttempts) - 1);
      if last.Returned? then Ok(last.value) else Err(last.error)
  }

  /** What `retry_operation_with_stats_sync` returns. */
  function StatsResult<V>(op: nat -> Outcome<V>, o: RetryOptions): RetryStats<V> {
    if o.maxAttempts <= 0 then RetryStats(0, 0.0, false, None, None)
    else
      var c := CallCount(op, o.maxAttempts);
      var last := op(c - 1);
      RetryStats(
        c,
        Sum(SleepsFor(o, c - 1)),
        last.Returned?,
        if last.Raised? then Some(last.error) else if c >= 2 && op(c - 2).Raised? then Some(op(c - 2).error) else None,
        if last.Returned? then Some(last.value) else None)
  }

  /** `retry_operation_sync`. */
  method RetryOperationSync<V>(operation: nat -> Outcome<V>, options: Option<RetryOptions>)
    returns (r: Result<V, Exception>, calls: nat, sleeps: seq<real>)
    ensures calls == CallCount(operation, Effective(options).maxAttempts)
    ensures r == SyncResult(operation, Effective(options))
    ensures sleeps == SleepsFor(Effective(options), if calls == 0 then 0 else calls - 1)
  {
    var o := Effective(options);
    var currentDelayMs: real := o.delayMs as real;
    var lastException: Option<Exception> := None;
    calls := 0;
    sleeps := [];
    var attempt := 0;
    while attempt < o.maxAttempts
      invariant o.maxAttempts > 0 ==> attempt < o.maxAttempts
      invariant o.maxAttempts <= 0 ==> attempt == 0
      invariant calls == attempt
      invariant forall j :: 0 <= j < attempt ==> Retryable(operation(j))
      invariant currentDelayMs == DelayAt(o, attempt)
      invariant sleeps == SleepsFor(o, attempt)
      invariant attempt == 0 ==> lastException == None
    {
      var outcome := operation(attempt);
      calls := calls + 1;
      if outcome.Returned? {
        r := Ok(outcome.value);
        LastAttemptUnique(operation, 0, o.maxAttempts, attempt);
        return;
      }
      if outcome.error.WorkflowTerminateError? {
        r := Err(outcome.error);
        LastAttemptUnique(operation, 0, o.maxAttempts, attempt);
        return;
      }
      lastException := Some(outcome.error);
      if attempt < o.maxAttempts - 1 {
        sleeps := sleeps + [currentDelayMs / 1000.0];
        currentDelayMs := NextDelay(o, currentDelayMs);
      } else {
        r := Err(outcome.error);
        LastAttemptUnique(operation, 0, o.maxAttempts, attempt);
        return;
      }
      attempt := attempt + 1;
    }
    if lastException.Some? {
      // the last attempt raises inside the loop, so no recorded exception reaches this point
      assert false;
    }
    r := Err(RuntimeError(NoClearException));
  }

  /** `retry_operation_with_stats_sync`: never raises, reports what happened instead. */
  method RetryOperationWithStatsSync<V>(operation: nat -> Outcome<V>, options: Option<RetryOptions>)
    returns (stats: RetryStats<V>, calls: nat, sleeps: seq<real>)
    ensures stats == StatsResult(operation, Effective(options))
    ensures stats.attempts == calls
    ensures stats.totalDelay == Sum(sleeps)
    ensures sleeps == SleepsFor(Effective(options), if calls == 0 then 0 else calls - 1)
  {
    var o := Effective(options);
    stats := RetryStats(0, 0.0, false, None, None);
    var currentDelayMs: real := o.delayMs as real;
    calls := 0;
    sleeps := [];
    var attemptNum := 0;
    while attemptNum < o.maxAttempts
      invariant o.maxAttempts > 0 ==> attemptNum < o.maxAttempts
      invariant o.maxAttempts <= 0 ==> attemptNum == 0
      invariant calls == attemptNum
      invariant forall j :: 0 <= j < attemptNum ==> Retryable(operation(j))
      invariant currentDelayMs == DelayAt(o, attemptNum)
      invariant sleeps == SleepsFor(o, attemptNum)
      invariant stats == RetryStats(attemptNum, Sum(sleeps), false,
        if attemptNum == 0 then None else Some(operation(attemptNum - 1).error), None)
    {
      stats := stats.(attempts := attemptNum + 1);
      var outcome := operation(attemptNum);
      calls := calls + 1;
      if outcome.Returned? {
        stats := stats.(success := true, results := Some(outcome.value));
        StatsStoppingAt(operation, o, attemptNum);
        return;
      }
      if outcome.error.WorkflowTerminateError? {
        stats := stats.(lastError := Some(outcome.error));
        StatsStoppingAt(operation, o, attemptNum);
        return;
      }
      stats := stats.(lastError := Some(outcome.error));
      if stats.attempts < o.maxAttempts {
        SumAppend(sleeps, currentDelayMs / 1000.0);
        sleeps := sleeps + [currentDelayMs / 1000.0];
        stats := stats.(totalDelay := stats.totalDelay + currentDelayMs / 1000.0);
        currentDelayMs := NextDelay(o, currentDelayMs);
      } else {
        StatsStoppingAt(operation, o, attemptNum);
        return;
      }
      attemptNum := attemptNum + 1;
    }
  }

  lemma SumAppend(xs: seq<real>, x: real)
    ensures Sum(xs + [x]) == Sum(xs) + x
  {
    assert (xs + [x])[..|xs|] == xs;
  }

  /** The stats record when the loop stops at attempt `k`. */
  lemma StatsStoppingAt<V>(op: nat -> Outcome<V>, o: RetryOptions, k: nat)
    requires k < o.maxAttempts
    requires forall j :: 0 <= j < k ==> Retryable(op(j))
    requires k == o.maxAttempts - 1 || !Retryable(op(k))
    ensures CallCount(op, o.maxAttempts) == k + 1
    ensures StatsResult(op, o) == RetryStats(
      k + 1,
      Sum(SleepsFor(o, k)),
      op(k).Returned?,
      if op(k).Raised? then Some(op(k).error) else if k >= 1 && op(k - 1).Raised? then Some(op(k - 1).error) else None,
      if op(k).Returned? then Some(op(k).value) else None)
  {
    LastAttemptUnique(op, 0, o.maxAttempts, k);
    if k >= 1 {
      assert Retryable(op(k - 1));
    }
  }

  // ---------------------------------------------------------------------
  // Properties of the reference definitions
  // ---------------------------------------------------------------------

  /** The stopping attempt: every earlier attempt was retryable, and this one is the last allowed or not retryable. */
  lemma {:induction false} LastAttemptIsFirstStop<V>(op: nat -> Outcome<V>, k: nat, maxAttempts: int)
    requires k < maxAttempts
    ensures k <= LastAttempt(op, k, maxAttempts) < maxAttempts
    ensures forall j :: k <= j < LastAttempt(op, k, maxAttempts) ==> Retryable(op(j))
    ensures var l := LastAttempt(op, k, maxAttempts); l == maxAttempts - 1 || !Retryable(op(l))
    decreases maxAttempts - k
  {
    if !(k == maxAttempts - 1 || !Retryable(op(k))) {
      LastAttemptIsFirstStop(op, k + 1, maxAttempts);
    }
  }

  /** Any attempt index with all earlier attempts retryable and itself a stop is where the loop stops. */
  lemma {:induction false} LastAttemptUnique<V>(op: nat -> Outcome<V>, k: nat, maxAttempts: int, s: nat)
    requires k <= s < maxAttempts
    requires forall j :: k <= j < s ==> Retryable(op(j))
    requires s == maxAttempts - 1 || !Retryable(op(s))
    ensures LastAttempt(op, k, maxAttempts) == s
    decreases s - k
  {
    if k < s {
      LastAttemptUnique(op, k + 1, maxAttempts, s);
    }
  }

  /** The operation is called at most `max_attempts` times, and never when that is 0 or less. */
  lemma CallsBounded<V>(op: nat -> Outcome<V>, o: RetryOptions)
    ensures o.maxAttempts <= 0 ==> CallCount(op, o.maxAttempts) == 0
    ensures o.maxAttempts > 0 ==> 1 <= CallCount(op, o.maxAttempts) <= o.maxAttempts
  {
    if o.maxAttempts > 0 {
      LastAttemptIsFirstStop(op, 0, o.maxAttempts);
    }
  }

  /** With no attempts allowed the operation is never called and a `RuntimeError` is raised. */
  lemma NoAttemptsRaisesRuntimeError<V>(op: nat -> Outcome<V>, o: RetryOptions)
    requires o.maxAttempts <= 0
    ensures CallCount(op, o.maxAttempts) == 0
    ensures SyncResult(op, o) == Err(RuntimeError(NoClearException))
  {
  }

  /** The first successful call's value is returned, and nothing is called after it. */
  lemma FirstSuccessReturned<V>(op: nat -> Outcome<V>, o: RetryOptions, k: nat, v: V)
    requires k < o.maxAttempts
    requires forall j :: 0 <= j < k ==> Retryable(op(j))
    requires op(k) == Returned(v)
    ensures CallCount(op, o.maxAttempts) == k + 1
    ensures SyncResult(op, o) == Ok(v)
    ensures |SleepsFor(o, CallCount(op, o.maxAttempts) - 1)| == k
  {
    LastAttemptUnique(op, 0, o.maxAttempts, k);
  }

  /** A terminate error is raised on the attempt it occurs, with no sleep after it and no further call. */
  lemma TerminateStopsAtOnce<V>(op: nat -> Outcome<V>, o: RetryOptions, k: nat)
    requires k < o.maxAttempts
    requires forall j :: 0 <= j < k ==> Retryable(op(j))
    requires op(k).Raised? && op(k).error.WorkflowTerminateError?
    ensures CallCount(op, o.maxAttempts) == k + 1
    ensures SyncResult(op, o) == Err(op(k).error)
    ensures StatsResult(op, o).attempts == k + 1 && !StatsResult(op, o).success
    ensures StatsResult(op, o).lastError == Some(op(k).error)
  {
    LastAttemptUnique(op, 0, o.maxAttempts, k);
  }

  /** When every attempt fails, all `max_attempts` calls happen, with one sleep fewer, and the last error is raised. */
  lemma AllFailuresExhaustAttempts<V>(op: nat -> Outcome<V>, o: RetryOptions)
    requires o.maxAttempts > 0
    requires forall j :: 0 <= j < o.maxAttempts ==> Retryable(op(j))
    ensures CallCount(op, o.maxAttempts) == o.maxAttempts
    ensures |SleepsFor(o, CallCount(op, o.maxAttempts) - 1)| == o.maxAttempts - 1
    ensures Retryable(op(o.maxAttempts - 1))
    ensures SyncResult(op, o) == Err(op(o.maxAttempts - 1).error)
  {
    LastAttemptUnique(op, 0, o.maxAttempts, o.maxAttempts - 1);
  }

  /** The first delay is `delay_ms` as given; every later one is at most `max_delay_ms`. */
  lemma DelaysCapped(o: RetryOptions, k: nat)
    ensures DelayAt(o, 0) == o.delayMs as real
    ensures k >= 1 ==> DelayAt(o, k) <= o.maxDelayMs as real
  {
  }

  /** An uncapped first delay: a `delay_ms` above `max_delay_ms` is still used once. */
  lemma FirstDelayNotCapped()
    ensures DelayAt(RetryOptions(3, 5000, 2.0, 1000, true), 0) == 5000.0
    ensures DelayAt(RetryOptions(3, 5000, 2.0, 1000, true), 1) == 1000.0
  {
  }

  /** With a factor of at least 1 and a first delay within the cap, the delays never shrink. */
  lemma MulNonNegative(a: real, b: real)
    requires a >= 0.0 && b >= 0.0
    ensures a * b >= 0.0
  {
  }

  lemma ScaleAtLeast(d: real, f: real)
    requires d >= 0.0 && f >= 1.0
    ensures d * f >= d
  {
    MulNonNegative(d, f - 1.0);
    assert d * f == d + d * (f - 1.0);
  }

  /** One backoff step from a delay within the cap stays within it and does not shrink. */
  lemma NextDelayBounds(o: RetryOptions, d: real)
    requires o.backoffFactor >= 1.0
    requires 0.0 <= d <= o.maxDelayMs as real
    ensures d <= NextDelay(o, d) <= o.maxDelayMs as real
  {
    ScaleAtLeast(d, o.backoffFactor);
  }

  /** With a factor of at least 1 and a first delay within the cap, every delay stays in [0, max_delay_ms]. */
  lemma {:induction false} DelaysWithinCap(o: RetryOptions, k: nat)
    requires o.backoffFactor >= 1.0
    requires 0 <= o.delayMs <= o.maxDelayMs
    ensures 0.0 <= DelayAt(o, k) <= o.maxDelayMs as real
  {
    if k > 0 {
      DelaysWithinCap(o, k - 1);
      NextDelayBounds(o, DelayAt(o, k - 1));
    }
  }

  /** Under the same conditions the delays never shrink. */
  lemma DelaysNonDecreasing(o: RetryOptions, k: nat)
    requires o.backoffFactor >= 1.0
    requires 0 <= o.delayMs <= o.maxDelayMs
    ensures DelayAt(o, k) <= DelayAt(o, k + 1)
  {
    DelaysWithinCap(o, k);
    NextDelayBounds(o, DelayAt(o, k));
  }

  /**
   * `time.sleep` raises `ValueError` for a negative argument. With a
   * non-negative first delay, factor and cap no delay is negative, so every
   * sleep recorded is one Python takes.
   */
  lemma {:induction false} DelaysNonNegative(o: RetryOptions, k: nat)
    requires o.delayMs >= 0 && o.backoffFactor >= 0.0 && o.maxDelayMs >= 0
    ensures DelayAt(o, k) >= 0.0
  {
    if k > 0 {
      DelaysNonNegative(o, k - 1);
      MulNonNegative(DelayAt(o, k - 1), o.backoffFactor);
    }
  }

  /** Under the same conditions every sleep of the first `n` is non-negative. */
  lemma SleepsNonNegative(o: RetryOptions, n: nat)
    requires o.delayMs >= 0 && o.backoffFactor >= 0.0 && o.maxDelayMs >= 0
    ensures forall i :: 0 <= i < n ==> SleepsFor(o, n)[i] >= 0.0
  {
    forall i | 0 <= i < n
      ensures SleepsFor(o, n)[i] >= 0.0
    {
      SleepAt(o, n, i);
      DelaysNonNegative(o, i);
    }
  }

  /** Sleep `i` of the first `n` is the delay in force before retry `i`, in seconds. */
  lemma {:induction false} SleepAt(o: RetryOptions, n: nat, i: nat)
    requires i < n
    ensures SleepsFor(o, n)[i] == DelayAt(o, i) / 1000.0
    decreases n
  {
    if i < n - 1 {
      SleepAt(o, n - 1, i);
    }
  }

  /** A negative `delay_ms` makes the first sleep negative: the call where `time.sleep` would raise. */
  lemma NegativeDelayFirstSleep(o: RetryOptions)
    requires o.delayMs < 0
    ensures SleepsFor(o, 1) == [o.delayMs as real / 1000.0]
    ensures SleepsFor(o, 1)[0] < 0.0
  {
  }

  lemma {:induction false} SumNonNegative(xs: seq<real>)
    requires forall i :: 0 <= i < |xs| ==> xs[i] >= 0.0
    ensures Sum(xs) >= 0.0
  {
    if |xs| > 0 {
      SumNonNegative(xs[..|xs| - 1]);
    }
  }

  /** The stats variant reports exactly what the plain variant does, without raising. */
  lemma StatsAgreeWithSync<V>(op: nat -> Outcome<V>, o: RetryOptions)
    requires o.maxAttempts > 0
    ensures var s := StatsResult(op, o);
      && s.attempts == CallCount(op, o.maxAttempts)
      && (s.success <==> SyncResult(op, o).Ok?)
      && (s.success ==> s.results == Some(SyncResult(op, o).value))
      && (!s.success ==> s.lastError == Some(SyncResult(op, o).error))
      && s.totalDelay == Sum(SleepsFor(o, s.attempts - 1))
  {
    CallsBounded(op, o);
  }
}
