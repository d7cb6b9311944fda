/**
 * `BaseAliyunImageGenerator`: the API-key check of `refresh`, the random
 * seed range, the bounded polling loop of `waitForCompletion`, and
 * `clampValue`. The status check, `getResult` of the concrete generator and
 * the random number are parameters; the HTTP requests are not modelled.
 */
module AliyunImageGenerator {
  import opened Optional

  const ApiKeyName := "DASHSCOPE_API_KEY"
  const ApiKeyMissing := "DASHSCOPE_API_KEY environment variable is not set"
  /** "Image generation task failed". */
  const TaskFailed := "\U{56FE}\U{7247}\U{751F}\U{6210}\U{4EFB}\U{52A1}\U{5931}\U{8D25}"
  /** "Timed out waiting for image generation". */
  const TimedOut := "\U{7B49}\U{5F85}\U{56FE}\U{7247}\U{751F}\U{6210}\U{8D85}\U{65F6}"
  const DefaultMaxAttempts := 30
  const DefaultIntervalMs := 2000
  const SeedRange := 4294967290

  /** What one `checkTaskStatus` call gives: the output of the image task with its `task_status`, or a thrown message. */
  datatype Poll<O> = Output(taskStatus: string, output: O) | Threw(message: string)

  predicate Terminal<O>(p: Poll<O>) {
    p.Threw? || p.taskStatus == "SUCCEEDED" || p.taskStatus == "FAILED"
  }

  /** The status of every check from `k` up to `j` was neither terminal nor a throw. */
  predicate PendingBetween<O>(check: nat -> Poll<O>, k: nat, j: nat) {
    forall i :: k <= i < j ==> !Terminal(check(i))
  }

  /** How the wait ends. */
  datatype Ending = Succeeded(result: string) | Failed | CheckThrew(message: string) | TimedOutEnd

  /** What `waitForCompletion` resolves to or throws for an ending. */
  function ResultOf(e: Ending): (r: Result<string, string>) {
    match e
    case Succeeded(result) => Ok(result)
    case Failed => Err(TaskFailed)
    case CheckThrew(m) => Err(m)
    case TimedOutEnd => Err(TimedOut)
  }

  /**
   * How `waitForCompletion` ends from check number `k` on, and how many
   * checks it has made by then: check `j` gives `check(j)`.
   */
  function WaitFrom<O>(check: nat -> Poll<O>, getResult: O -> string, maxAttempts: int, k: nat): (Ending, nat)
    decreases if k < maxAttempts then maxAttempts - k else 0
  {
    if k >= maxAttempts then (TimedOutEnd, k)
    else match check(k)
      case Threw(m) => (CheckThrew(m), k + 1)
      case Output(status, output) =>
        if status == "SUCCEEDED" then (Succeeded(getResult(output)), k + 1)
        else if status == "FAILED" then (Failed, k + 1)
        else WaitFrom(check, getResult, maxAttempts, k + 1)
  }

  /** The sleeps of a wait: one after every non-terminal status. */
  function Sleeps(e: Ending, checks: nat): nat {
    if e.TimedOutEnd? || checks == 0 then checks else checks - 1
  }

  /** `Math.min(Math.max(value, min), max)`, and the default, unclamped, when `value` is undefined. */
  function ClampValue(value: Option<real>, min: real, max: real, defaultValue: real): (r: real)
    ensures value.None? ==> r == defaultValue
    ensures value.Some? && min <= max ==> min <= r <= max
    ensures value.Some? && min <= value.value <= max ==> r == value.value
    ensures value.Some? && min <= max && value.value < min ==> r == min
    ensures value.Some? && value.value > max ==> r == max
  {
    match value
    case None => defaultValue
    case Some(v) =>
      var atLeast := if v > min then v else min;
      if atLeast < max then atLeast else max
  }

  /** `generateSeed`, given the value of `Math.random()`. */
  function GenerateSeed(random: real): (seed: int)
    requires 0.0 <= random < 1.0
    ensures 1 <= seed <= SeedRange
  {
    (random * SeedRange as real).Floor + 1
  }

  class Generator {
    var apiKey: Option<string>

    constructor ()
      ensures apiKey.None?
    {
      apiKey := None;
    }

    /** `refresh`: `setting` is what the configuration lookup of `DASHSCOPE_API_KEY` gives or throws. */
    method Refresh(setting: Result<string, string>) returns (thrown: Option<string>)
      modifies this
      ensures setting.Err? ==> thrown == Some(setting.error) && apiKey == old(apiKey)
      ensures setting.Ok? && setting.value == "" ==> thrown == Some(ApiKeyMissing) && apiKey == old(apiKey)
      ensures setting.Ok? && setting.value != "" ==> thrown.None? && apiKey == Some(setting.value)
    {
      if setting.Err? {
        return Some(setting.error);
      }
      if setting.value == "" {
        return Some(ApiKeyMissing);
      }
      apiKey := Some(setting.value);
      thrown := None;
    }
  }

  /**
   * `waitForCompletion`: polls until a terminal status or `maxAttempts`
   * checks, sleeping `interval` after every non-terminal one; `waited` is
   * the total time slept.
   */
  method WaitForCompletion<O>(check: nat -> Poll<O>, getResult: O -> string, maxAttempts: int, interval: int)
    returns (r: Result<string, string>, checks: nat, waited: int)
    ensures var (e, n) := WaitFrom(check, getResult, maxAttempts, 0);
      r == ResultOf(e) && checks == n && waited == interval * Sleeps(e, n)
  {
    var attempts: nat := 0;
    waited := 0;
    while attempts < maxAttempts
      invariant WaitFrom(check, getResult, maxAttempts, attempts) == WaitFrom(check, getResult, maxAttempts, 0)
      invariant waited == interval * attempts
      decreases maxAttempts - attempts
    {
      var status := check(attempts);
      if status.Threw? {
        return Err(status.message), attempts + 1, waited;
      }
      if status.taskStatus == "SUCCEEDED" {
        return Ok(getResult(status.output)), attempts + 1, waited;
      }
      if status.taskStatus == "FAILED" {
        return Err(TaskFailed), attempts + 1, waited;
      }
      waited := waited + interval;
      attempts := attempts + 1;
    }
    r, checks := Err(TimedOut), attempts;
  }

  /**
   * The shape of every wait: at most `maxAttempts` checks (none when it is
   * not positive); a timeout follows only non-terminal statuses, and any
   * other ending is decided by the last check, every earlier one being
   * non-terminal.
   */
  lemma {:induction false} WaitShape<O>(check: nat -> Poll<O>, getResult: O -> string, maxAttempts: int, k: nat)
    ensures var (e, n) := WaitFrom(check, getResult, maxAttempts, k);
      k <= n && (n <= maxAttempts || n == k)
      && (e.TimedOutEnd? ==> n == (if k < maxAttempts then maxAttempts else k) && PendingBetween(check, k, n))
      && (!e.TimedOutEnd? ==> k < n <= maxAttempts && Terminal(check(n - 1)) && PendingBetween(check, k, n - 1))
      && (e.Succeeded? ==> check(n - 1).Output? && check(n - 1).taskStatus == "SUCCEEDED"
                           && e.result == getResult(check(n - 1).output))
      && (e == Failed ==> check(n - 1).Output? && check(n - 1).taskStatus == "FAILED")
      && (e.CheckThrew? ==> check(n - 1) == Threw(e.message))
    decreases if k < maxAttempts then maxAttempts - k else 0
  {
    if k < maxAttempts && !Terminal(check(k)) {
      WaitShape(check, getResult, maxAttempts, k + 1);
    }
  }

  /** Non-terminal checks from `k` to `j` are passed over. */
  lemma {:induction false} WaitSkipsPending<O>(check: nat -> Poll<O>, getResult: O -> string, maxAttempts: int, k: nat, j: nat)
    requires k <= j <= maxAttempts && PendingBetween(check, k, j)
    ensures WaitFrom(check, getResult, maxAttempts, k) == WaitFrom(check, getResult, maxAttempts, j)
    decreases j - k
  {
    if k < j {
      WaitSkipsPending(check, getResult, maxAttempts, k + 1, j);
    }
  }

  /** The first SUCCEEDED within the allowed checks is returned, through `getResult`, and nothing more is checked. */
  lemma FirstSuccessReturned<O>(check: nat -> Poll<O>, getResult: O -> string, maxAttempts: int, j: nat, output: O)
    requires j < maxAttempts && PendingBetween(check, 0, j) && check(j) == Output("SUCCEEDED", output)
    ensures WaitFrom(check, getResult, maxAttempts, 0) == (Succeeded(getResult(output)), j + 1)
  {
    WaitSkipsPending(check, getResult, maxAttempts, 0, j);
  }

  /** A FAILED status throws at once. */
  lemma FailureThrowsAtOnce<O>(check: nat -> Poll<O>, getResult: O -> string, maxAttempts: int, j: nat, output: O)
    requires j < maxAttempts && PendingBetween(check, 0, j) && check(j) == Output("FAILED", output)
    ensures WaitFrom(check, getResult, maxAttempts, 0) == (Failed, j + 1)
  {
    WaitSkipsPending(check, getResult, maxAttempts, 0, j);
  }

  /** `maxAttempts` non-terminal statuses end in the timeout, after `maxAttempts` sleeps. */
  lemma AllPendingTimesOut<O>(check: nat -> Poll<O>, getResult: O -> string, maxAttempts: nat)
    requires PendingBetween(check, 0, maxAttempts)
    ensures WaitFrom(check, getResult, maxAttempts, 0) == (TimedOutEnd, maxAttempts)
    ensures Sleeps(TimedOutEnd, maxAttempts) == maxAttempts
  {
    WaitSkipsPending(check, getResult, maxAttempts, 0, maxAttempts);
  }

  /** With the defaults, thirty pending statuses time out after a minute of sleeping. */
  lemma DefaultTimeout<O>(check: nat -> Poll<O>, getResult: O -> string)
    requires PendingBetween(check, 0, DefaultMaxAttempts)
    ensures var (e, n) := WaitFrom(check, getResult, DefaultMaxAttempts, 0);
      ResultOf(e) == Err(TimedOut) && n == 30 && DefaultIntervalMs * Sleeps(e, n) == 60000
  {
    AllPendingTimesOut(check, getResult, DefaultMaxAttempts);
  }

  /** `clampValue` with an empty range gives `max`, whatever the value. */
  lemma ClampEmptyRange(v: real, min: real, max: real, defaultValue: real)
    requires max < min
    ensures ClampValue(Some(v), min, max, defaultValue) == max
  {
  }

  /** Clamping is idempotent on a non-empty range. */
  lemma ClampIdempotent(v: real, min: real, max: real, d: real)
    requires min <= max
    ensures ClampValue(Some(ClampValue(Some(v), min, max, d)), min, max, d) == ClampValue(Some(v), min, max, d)
  {
  }
}
