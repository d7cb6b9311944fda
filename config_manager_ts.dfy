/**
 * The TypeScript `ConfigManager`: configuration sources kept in ascending
 * priority order, a per-source retry loop, and a lookup that returns the first
 * non-null value. A source's answers to `get` are an oracle
 * `(source, key, attempt number) -> Reply`; waiting is recorded as the list of
 * delays the loop would wait, in milliseconds.
 */
module ConfigManagerTs {
  import opened Optional
  import JsText
  import opened PriorityOrder

  /** An `IConfigSource`; only its priority matters to the manager. */
  class ConfigSource {
    const priority: int

    constructor (priority: int)
      ensures this.priority == priority
    {
      this.priority := priority;
    }
  }

  /** What one call of `source.get(key)` does: resolve to a value or `null`, or throw. */
  datatype Reply<V> = Value(value: Option<V>) | Throws(message: string)

  datatype RetryOptions = RetryOptions(maxAttempts: int, delayMs: int)

  /** A `Partial<RetryOptions>`: the fields a caller chose to give. */
  datatype RetryOverrides = RetryOverrides(maxAttempts: Option<int>, delayMs: Option<int>)

  datatype ConfigurationError = ConfigurationError(message: string)

  const DefaultRetryOptions: RetryOptions := RetryOptions(3, 1000)

  /** `{ ...defaultRetryOptions, ...retryOptions }`. */
  function MergeOptions(defaults: RetryOptions, overrides: Option<RetryOverrides>): (o: RetryOptions)
    ensures overrides.None? ==> o == defaults
    ensures overrides.Some? ==> o.maxAttempts == overrides.value.maxAttempts.GetOr(defaults.maxAttempts)
    ensures overrides.Some? ==> o.delayMs == overrides.value.delayMs.GetOr(defaults.delayMs)
  {
    match overrides
    case None => defaults
    case Some(p) => RetryOptions(p.maxAttempts.GetOr(defaults.maxAttempts), p.delayMs.GetOr(defaults.delayMs))
  }

  function NotFoundMessage(key: string, maxAttempts: int): string {
    "Configuration key \"" + key + "\" not found in any source after " + JsText.IntToString(maxAttempts) + " attempts"
  }

  /** The sort key of `addSource`. */
  function Priority(s: ConfigSource): int {
    s.priority
  }

  // ---------------------------------------------------------------------
  // Lookups
  // ---------------------------------------------------------------------

  /** The value `getWithRetry` resolves to, starting at attempt `attempt`. */
  function RetryValue<V>(answer: (ConfigSource, string, nat) -> Reply<V>, source: ConfigSource, key: string,
                         attempt: nat, maxAttempts: int): Option<V>
    decreases maxAttempts - attempt
  {
    if attempt > maxAttempts then None
    else match answer(source, key, attempt)
      case Value(v) => v
      case Throws(_) => RetryValue(answer, source, key, attempt + 1, maxAttempts)
  }

  /** How many times `getWithRetry` calls `source.get`, starting at attempt `attempt`. */
  function RetryCalls<V>(answer: (ConfigSource, string, nat) -> Reply<V>, source: ConfigSource, key: string,
                         attempt: nat, maxAttempts: int): nat
    decreases maxAttempts - attempt
  {
    if attempt > maxAttempts then 0
    else match answer(source, key, attempt)
      case Value(_) => 1
      case Throws(_) => 1 + RetryCalls(answer, source, key, attempt + 1, maxAttempts)
  }

  /** The index of the first source, from `i` on, whose retried lookup is not null. */
  function FirstFound<V>(sources: seq<ConfigSource>, answer: (ConfigSource, string, nat) -> Reply<V>,
                         key: string, maxAttempts: int, i: nat): Option<nat>
    requires i <= |sources|
    decreases |sources| - i
  {
    if i == |sources| then None
    else if RetryValue(answer, sources[i], key, 1, maxAttempts).Some? then Some(i)
    else FirstFound(sources, answer, key, maxAttempts, i + 1)
  }

  /** What `get` resolves to or throws. */
  function GetResult<V>(sources: seq<ConfigSource>, answer: (ConfigSource, string, nat) -> Reply<V>,
                        key: string, o: RetryOptions): Result<V, ConfigurationError>
  {
    match FirstFound(sources, answer, key, o.maxAttempts, 0)
    case Some(i) =>
      if i < |sources| && RetryValue(answer, sources[i], key, 1, o.maxAttempts).Some?
      then Ok(RetryValue(answer, sources[i], key, 1, o.maxAttempts).value)
      else Err(ConfigurationError(NotFoundMessage(key, o.maxAttempts)))
    case None => Err(ConfigurationError(NotFoundMessage(key, o.maxAttempts)))
  }

  class ConfigManager {
    var configSources: seq<ConfigSource>
    const defaultRetryOptions: RetryOptions

    constructor ()
      ensures configSources == [] && defaultRetryOptions == DefaultRetryOptions
    {
      configSources := [];
      defaultRetryOptions := DefaultRetryOptions;
    }

    /** `addSource`: push, then stable sort by ascending priority. */
    method AddSource(source: ConfigSource)
      modifies this
      ensures configSources == SortBy(old(configSources) + [source], Priority)
      ensures Sorted(configSources, Priority)
      ensures multiset(configSources) == multiset(old(configSources)) + multiset{source}
      ensures Sorted(old(configSources), Priority) ==> configSources == Insert(old(configSources), Priority, source)
    {
      configSources := configSources + [source];
      configSources := SortBy(configSources, Priority);
      SortByCorrect(old(configSources) + [source], Priority);
      if Sorted(old(configSources), Priority) {
        AppendThenSortIsInsert(old(configSources), Priority, source);
      }
    }

    /** `getWithRetry`: one source, retried only while it throws. */
    method GetWithRetry<V>(source: ConfigSource, key: string, options: RetryOptions,
                           answer: (ConfigSource, string, nat) -> Reply<V>)
      returns (value: Option<V>, calls: nat, waits: seq<int>)
      ensures value == RetryValue(answer, source, key, 1, options.maxAttempts)
      ensures calls == RetryCalls(answer, source, key, 1, options.maxAttempts)
      ensures |waits| == if calls == 0 then 0 else calls - 1
      ensures forall i :: 0 <= i < |waits| ==> waits[i] == options.delayMs
    {
      var lastError: Option<string> := None;
      calls := 0;
      waits := [];
      var attempt := 1;
      while attempt <= options.maxAttempts
        invariant 1 <= attempt
        invariant calls == attempt - 1
        invariant |waits| == if attempt <= options.maxAttempts || calls == 0 then calls else calls - 1
        invariant forall i :: 0 <= i < |waits| ==> waits[i] == options.delayMs
        invariant RetryValue(answer, source, key, 1, options.maxAttempts)
                  == RetryValue(answer, source, key, attempt, options.maxAttempts)
        invariant RetryCalls(answer, source, key, 1, options.maxAttempts)
                  == calls + RetryCalls(answer, source, key, attempt, options.maxAttempts)
        decreases options.maxAttempts - attempt
      {
        var reply := answer(source, key, attempt);
        calls := calls + 1;
        match reply {
          case Value(v) =>
            value := v;
            return;
          case Throws(message) =>
            lastError := Some(message);
            if attempt < options.maxAttempts {
              waits := waits + [options.delayMs];
            }
        }
        attempt := attempt + 1;
      }
      // the source threw on every attempt (the warning is not modelled)
      value := None;
    }

    /** `get`: the first non-null value in priority order, else `ConfigurationError`. */
    method Get<V>(key: string, retryOptions: Option<RetryOverrides>,
                  answer: (ConfigSource, string, nat) -> Reply<V>)
      returns (r: Result<V, ConfigurationError>, consulted: nat)
      ensures r == GetResult(configSources, answer, key, MergeOptions(defaultRetryOptions, retryOptions))
      ensures consulted == match FirstFound(configSources, answer, key,
                                            MergeOptions(defaultRetryOptions, retryOptions).maxAttempts, 0)
                           case Some(i) => i + 1
                           case None => |configSources|
    {
      var options := MergeOptions(defaultRetryOptions, retryOptions);
      consulted := 0;
      var n := 0;
      while n < |configSources|
        invariant n <= |configSources| && consulted == n
        invariant FirstFound(configSources, answer, key, options.maxAttempts, 0)
                  == FirstFound(configSources, answer, key, options.maxAttempts, n)
      {
        var source := configSources[n];
        var value, _, _ := GetWithRetry(source, key, options, answer);
        consulted := consulted + 1;
        if value.Some? {
          r := Ok(value.value);
          return;
        }
        n := n + 1;
      }
      r := Err(ConfigurationError(NotFoundMessage(key, options.maxAttempts)));
    }

    /** `getSources`: the registered sources, in priority order. */
    method GetSources() returns (sources: seq<ConfigSource>)
      ensures sources == configSources
    {
      sources := configSources;
    }

    /** `clearSources`. */
    method ClearSources()
      modifies this
      ensures configSources == []
    {
      configSources := [];
    }
  }

  // ---------------------------------------------------------------------
  // Properties
  // ---------------------------------------------------------------------

  /** `getWithRetry` calls `source.get` at most `maxAttempts` times, and once more only after a throw. */
  lemma {:induction false} RetryCallsBounded<V>(answer: (ConfigSource, string, nat) -> Reply<V>, source: ConfigSource,
                                                key: string, attempt: nat, maxAttempts: int)
    ensures attempt <= maxAttempts + 1 ==> RetryCalls(answer, source, key, attempt, maxAttempts) <= maxAttempts + 1 - attempt
    ensures attempt <= maxAttempts ==> RetryCalls(answer, source, key, attempt, maxAttempts) >= 1
    decreases maxAttempts - attempt
  {
    if attempt <= maxAttempts && answer(source, key, attempt).Throws? {
      RetryCallsBounded(answer, source, key, attempt + 1, maxAttempts);
    }
  }

  /** A value returned on attempt `a`, even `null`, ends the loop with that value after `a` calls. */
  lemma {:induction false} ReturnedValueEndsRetry<V>(answer: (ConfigSource, string, nat) -> Reply<V>, source: ConfigSource,
                                                     key: string, maxAttempts: int, a: nat, v: Option<V>)
    requires 1 <= a <= maxAttempts
    requires forall j :: 1 <= j < a ==> answer(source, key, j).Throws?
    requires answer(source, key, a) == Value(v)
    ensures RetryValue(answer, source, key, 1, maxAttempts) == v
    ensures RetryCalls(answer, source, key, 1, maxAttempts) == a
  {
    var k := a;
    while k > 1
      invariant 1 <= k <= a
      invariant RetryValue(answer, source, key, k, maxAttempts) == v
      invariant RetryCalls(answer, source, key, k, maxAttempts) == a - k + 1
    {
      k := k - 1;
    }
  }

  /** When every attempt throws, the result is null after exactly `maxAttempts` calls. */
  lemma {:induction false} AllThrowsGiveNull<V>(answer: (ConfigSource, string, nat) -> Reply<V>, source: ConfigSource,
                                                key: string, attempt: nat, maxAttempts: int)
    requires 1 <= attempt
    requires forall j :: attempt <= j <= maxAttempts ==> answer(source, key, j).Throws?
    ensures RetryValue(answer, source, key, attempt, maxAttempts) == None
    ensures RetryCalls(answer, source, key, attempt, maxAttempts) == if attempt <= maxAttempts then maxAttempts - attempt + 1 else 0
    decreases maxAttempts - attempt
  {
    if attempt <= maxAttempts {
      AllThrowsGiveNull(answer, source, key, attempt + 1, maxAttempts);
    }
  }

  /** `FirstFound` names the first source with a non-null value; `get` returns that value. */
  lemma {:induction false} FirstFoundIsFirst<V>(sources: seq<ConfigSource>, answer: (ConfigSource, string, nat) -> Reply<V>,
                                                key: string, maxAttempts: int, i: nat)
    requires i <= |sources|
    ensures match FirstFound(sources, answer, key, maxAttempts, i)
      case Some(k) =>
        && i <= k < |sources|
        && RetryValue(answer, sources[k], key, 1, maxAttempts).Some?
        && forall j :: i <= j < k ==> RetryValue(answer, sources[j], key, 1, maxAttempts).None?
      case None =>
        forall j :: i <= j < |sources| ==> RetryValue(answer, sources[j], key, 1, maxAttempts).None?
    decreases |sources| - i
  {
    if i < |sources| && RetryValue(answer, sources[i], key, 1, maxAttempts).None? {
      FirstFoundIsFirst(sources, answer, key, maxAttempts, i + 1);
    }
  }

  /** `get` returns a value iff some source yields one, and then it is the first such source's value. */
  lemma GetReturnsFirstNonNull<V>(sources: seq<ConfigSource>, answer: (ConfigSource, string, nat) -> Reply<V>,
                                  key: string, o: RetryOptions)
    ensures GetResult(sources, answer, key, o).Ok? <==>
            exists j :: 0 <= j < |sources| && RetryValue(answer, sources[j], key, 1, o.maxAttempts).Some?
    ensures GetResult(sources, answer, key, o).Ok? ==>
            exists k :: 0 <= k < |sources|
              && RetryValue(answer, sources[k], key, 1, o.maxAttempts).Some?
              && GetResult(sources, answer, key, o).value == RetryValue(answer, sources[k], key, 1, o.maxAttempts).value
              && forall j :: 0 <= j < k ==> RetryValue(answer, sources[j], key, 1, o.maxAttempts).None?
    ensures GetResult(sources, answer, key, o).Err? ==>
            GetResult(sources, answer, key, o).error == ConfigurationError(NotFoundMessage(key, o.maxAttempts))
  {
    FirstFoundIsFirst(sources, answer, key, o.maxAttempts, 0);
  }

  /** With no sources registered, `get` always throws. */
  lemma NoSourcesAlwaysThrows<V>(answer: (ConfigSource, string, nat) -> Reply<V>, key: string, o: RetryOptions)
    ensures GetResult([], answer, key, o) == Err(ConfigurationError(NotFoundMessage(key, o.maxAttempts)))
  {
  }
}
