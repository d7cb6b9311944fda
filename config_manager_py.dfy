/**
 * The Python `ConfigManager`: de-duplicated sources kept sorted by priority,
 * a lookup that scans every source round by round, a default value, and the
 * default source set-up that reads `ENABLE_DB` from the environment source.
 * Each source's `get` is an oracle `(source, key, round) -> Reply`; sleeping is
 * recorded as the number of `delay_s` sleeps.
 */
module ConfigManagerPy {
  import opened Optional
  import JsText
  import opened PriorityOrder

  /** A Python value as the manager sees it. */
  datatype PyValue = PyNone | PyBool(b: bool) | PyInt(i: int) | PyStr(s: string) | PyOther

  /** What one call of `source.get(key)` does. */
  datatype Reply = Returns(value: PyValue) | Raises(message: string)

  datatype SourceKind = EnvSource | DbSource | CustomSource

  /** An `IConfigSource` instance; `in` on a list of sources compares instances. */
  class ConfigSource {
    const kind: SourceKind
    const priority: int

    constructor (kind: SourceKind, priority: int)
      ensures this.kind == kind && this.priority == priority
    {
      this.kind := kind;
      this.priority := priority;
    }
  }

  /** The argument of `add_source`: a source, or some other object. */
  datatype Candidate = SourceObject(source: ConfigSource) | NotASource

  datatype TypeError = TypeError(message: string)

  const NotASourceMessage: string := "Source must implement IConfigSource"

  /** The guard that makes `init_default_config_sources` a no-op. */
  predicate AlreadySetUp(initialized: bool, sources: seq<ConfigSource>) {
    initialized && exists s :: s in sources && s.kind == EnvSource
  }

  function Priority(s: ConfigSource): int {
    s.priority
  }

  predicate NoDuplicates(s: seq<ConfigSource>) {
    forall i, j :: 0 <= i < j < |s| ==> s[i] != s[j]
  }

  /** How `init_default_config_sources` reads `ENABLE_DB`. */
  function EnableDb(v: PyValue): bool {
    match v
    case PyStr(s) => JsText.ToLower(s) in ["true", "1", "yes"]
    case PyBool(b) => b
    case _ => false
  }

  /** A DB source is enabled iff the value is one of the accepted strings, in any ASCII case, or `True`. */
  lemma EnableDbCases(v: PyValue)
    ensures EnableDb(v) <==> (v.PyStr? && JsText.ToLower(v.s) in ["true", "1", "yes"]) || v == PyBool(true)
    ensures v.PyInt? || v.PyNone? || v.PyOther? ==> !EnableDb(v)
  {
  }

  lemma EnableDbExamples()
    ensures EnableDb(PyStr("TRUE")) && EnableDb(PyStr("Yes"))
    ensures !EnableDb(PyInt(1)) && !EnableDb(PyStr("on"))
  {
    assert JsText.ToLower("TRUE") == "true";
    assert JsText.ToLower("Yes") == "yes";
    assert |JsText.ToLower("on")| == 2;
  }

  // ---------------------------------------------------------------------
  // The lookup, as reference definitions
  // ---------------------------------------------------------------------

  /** The first non-None value in round `round`, scanning sources from index `i`; a raise is skipped. */
  function FoundInRound(sources: seq<ConfigSource>, answer: (ConfigSource, string, nat) -> Reply,
                        key: string, round: nat, i: nat): Option<PyValue>
    requires i <= |sources|
    decreases |sources| - i
  {
    if i == |sources| then None
    else match answer(sources[i], key, round)
      case Returns(v) => if v != PyNone then Some(v) else FoundInRound(sources, answer, key, round, i + 1)
      case Raises(_) => FoundInRound(sources, answer, key, round, i + 1)
  }

  /** The first round, from `round` on and below `retries`, in which some source has a value, with that value. */
  function FoundFromRound(sources: seq<ConfigSource>, answer: (ConfigSource, string, nat) -> Reply,
                          key: string, round: nat, retries: int): Option<(nat, PyValue)>
    decreases retries - round
  {
    if round >= retries then None
    else match FoundInRound(sources, answer, key, round, 0)
      case Some(v) => Some((round, v))
      case None => FoundFromRound(sources, answer, key, round + 1, retries)
  }

  /** What the scanning part of `get` returns. */
  function LookupValue(sources: seq<ConfigSource>, answer: (ConfigSource, string, nat) -> Reply,
                       key: string, defaultValue: PyValue, retries: int): PyValue
  {
    match FoundFromRound(sources, answer, key, 0, retries)
    case Some((_, v)) => v
    case None => if defaultValue != PyNone then defaultValue else PyNone
  }

  /** How many times the scanning part of `get` sleeps. */
  function LookupSleeps(sources: seq<ConfigSource>, answer: (ConfigSource, string, nat) -> Reply,
                        key: string, retries: int): nat
  {
    match FoundFromRound(sources, answer, key, 0, retries)
    case Some((r, _)) => r
    case None => if retries >= 1 then retries - 1 else 0
  }

  class ConfigManager {
    var sources: seq<ConfigSource>
    var initializedDefaultSources: bool

    /** The class invariant `add_source` maintains. */
    predicate Valid()
      reads this
    {
      Sorted(sources, Priority) && NoDuplicates(sources)
    }

    constructor ()
      ensures sources == [] && !initializedDefaultSources && Valid()
    {
      sources := [];
      initializedDefaultSources := false;
    }

    /** `add_source`. */
    method AddSource(candidate: Candidate) returns (r: Result<(), TypeError>)
      requires Valid()
      modifies this
      ensures Valid()
      ensures initializedDefaultSources == old(initializedDefaultSources)
      ensures candidate.NotASource? ==> r == Err(TypeError(NotASourceMessage)) && sources == old(sources)
      ensures candidate.SourceObject? ==> r == Ok(())
      ensures candidate.SourceObject? && candidate.source in old(sources) ==> sources == old(sources)
      ensures candidate.SourceObject? && candidate.source !in old(sources) ==>
                sources == Insert(old(sources), Priority, candidate.source)
      ensures candidate.SourceObject? ==>
                multiset(sources) == multiset(old(sources)) + (if candidate.source in old(sources) then multiset{} else multiset{candidate.source})
    {
      if candidate.NotASource? {
        return Err(TypeError(NotASourceMessage));
      }
      var source := candidate.source;
      if source !in sources {
        sources := sources + [source];
        sources := SortBy(sources, Priority);
        AppendThenSortIsInsert(old(sources), Priority, source);
        InsertKeepsSorted(old(sources), Priority, source);
        InsertNoDuplicates(old(sources), source);
      }
      r := Ok(());
    }

    /** `get_sources`. */
    method GetSources() returns (r: seq<ConfigSource>)
      ensures r == sources
    {
      r := sources;
    }

    /** `clear_sources`: no sources, and the default set-up may run again. */
    method ClearSources()
      modifies this
      ensures sources == [] && !initializedDefaultSources && Valid()
    {
      sources := [];
      initializedDefaultSources := false;
    }

    /**
     * `init_default_config_sources`; `enableDbReply` is what the new environment
     * source answers for `ENABLE_DB`, and `created` lists the sources it creates.
     */
    method InitDefaultConfigSources(envPriority: int, dbPriority: int, enableDbReply: Reply)
      returns (ghost created: seq<ConfigSource>)
      requires Valid()
      modifies this
      ensures Valid() && initializedDefaultSources
      ensures AlreadySetUp(old(initializedDefaultSources), old(sources)) ==> sources == old(sources) && created == []
      ensures !AlreadySetUp(old(initializedDefaultSources), old(sources)) ==>
                && |created| == (if enableDbReply.Returns? && EnableDb(enableDbReply.value) then 2 else 1)
                && created[0].kind == EnvSource && created[0].priority == envPriority
                && (|created| == 2 ==> created[1].kind == DbSource && created[1].priority == dbPriority)
                && multiset(sources) == multiset(old(sources)) + multiset(created)
      ensures forall c :: c in created ==> fresh(c)
    {
      if initializedDefaultSources && exists s :: s in sources && s.kind == EnvSource {
        return [];
      }
      var envSource := AddNewSource(EnvSource, envPriority);
      created := [envSource];
      assert multiset(sources) == multiset(old(sources)) + multiset(created);
      match enableDbReply {
        case Returns(enableDbValue) =>
          if EnableDb(enableDbValue) {
            var dbSource := AddNewSource(DbSource, dbPriority);
            assert multiset(created + [dbSource]) == multiset(created) + multiset{dbSource};
            created := created + [dbSource];
          }
        case Raises(_) =>
          // the error is logged and the set-up goes on without a DB source
      }
      initializedDefaultSources := true;
    }

    /** `add_source` of a newly created source of the given kind and priority. */
    method AddNewSource(kind: SourceKind, priority: int) returns (source: ConfigSource)
      requires Valid()
      modifies this
      ensures Valid() && initializedDefaultSources == old(initializedDefaultSources)
      ensures fresh(source) && source.kind == kind && source.priority == priority
      ensures multiset(sources) == multiset(old(sources)) + multiset{source}
    {
      source := new ConfigSource(kind, priority);
      assert source !in sources;
      var _ := AddSource(SourceObject(source));
    }

    /** `get`: set-up on first use when nothing is registered, then the round-by-round scan. */
    method Get(key: string, defaultValue: PyValue, retries: int, delayS: int,
               answer: (ConfigSource, string, nat) -> Reply, envPriority: int, dbPriority: int, enableDbReply: Reply)
      returns (value: PyValue, sleeps: nat, ghost created: seq<ConfigSource>)
      requires Valid()
      modifies this
      ensures Valid()
      ensures !old(initializedDefaultSources) && old(sources) == [] ==>
                && initializedDefaultSources
                && |created| == (if enableDbReply.Returns? && EnableDb(enableDbReply.value) then 2 else 1)
                && created[0].kind == EnvSource && created[0].priority == envPriority
                && (|created| == 2 ==> created[1].kind == DbSource && created[1].priority == dbPriority)
                && multiset(sources) == multiset(created)
      ensures forall c :: c in created ==> fresh(c)
      ensures old(initializedDefaultSources) || old(sources) != [] ==>
                sources == old(sources) && initializedDefaultSources == old(initializedDefaultSources) && created == []
      ensures value == LookupValue(sources, answer, key, defaultValue, retries)
      ensures sleeps == LookupSleeps(sources, answer, key, retries)
    {
      created := [];
      if !initializedDefaultSources {
        if sources == [] {
          created := InitDefaultConfigSources(envPriority, dbPriority, enableDbReply);
        }
      }
      value, sleeps := Scan(key, defaultValue, retries, delayS, answer);
    }

    /** The nested round and source loops of `get`. */
    method Scan(key: string, defaultValue: PyValue, retries: int, delayS: int,
                answer: (ConfigSource, string, nat) -> Reply)
      returns (value: PyValue, sleeps: nat)
      ensures value == LookupValue(sources, answer, key, defaultValue, retries)
      ensures sleeps == LookupSleeps(sources, answer, key, retries)
    {
      var lastException: Option<string> := None;
      sleeps := 0;
      var attempt := 0;
      while attempt < retries
        invariant 0 <= attempt && (retries >= 0 ==> attempt <= retries)
        invariant retries < 0 ==> attempt == 0
        invariant sleeps == if attempt == retries && retries >= 1 then attempt - 1 else attempt
        invariant FoundFromRound(sources, answer, key, 0, retries) == FoundFromRound(sources, answer, key, attempt, retries)
      {
        var i := 0;
        while i < |sources|
          invariant i <= |sources|
          invariant FoundInRound(sources, answer, key, attempt, 0) == FoundInRound(sources, answer, key, attempt, i)
        {
          match answer(sources[i], key, attempt) {
            case Returns(v) =>
              if v != PyNone {
                value := v;
                assert FoundInRound(sources, answer, key, attempt, i) == Some(v);
                assert FoundFromRound(sources, answer, key, attempt, retries) == Some((attempt, v));
                return;
              }
            case Raises(e) =>
              lastException := Some(e);
          }
          i := i + 1;
        }
        assert FoundFromRound(sources, answer, key, attempt, retries) == FoundFromRound(sources, answer, key, attempt + 1, retries);
        if attempt < retries - 1 {
          sleeps := sleeps + 1;
        }
        // after the last round nothing is slept; a recorded exception is only logged
        attempt := attempt + 1;
      }
      if defaultValue != PyNone {
        value := defaultValue;
        return;
      }
      value := PyNone;
    }
  }

  lemma InsertNoDuplicates(xs: seq<ConfigSource>, s: ConfigSource)
    requires NoDuplicates(xs) && s !in xs
    ensures NoDuplicates(Insert(xs, Priority, s))
  {
    var k := InsertionPoint(xs, Priority, s.priority);
    assert xs == xs[..k] + xs[k..];
  }

  // ---------------------------------------------------------------------
  // Properties of the lookup
  // ---------------------------------------------------------------------

  /** A reply that does not end the scan: None, or a swallowed exception. */
  predicate Misses(reply: Reply) {
    reply == Returns(PyNone) || reply.Raises?
  }

  /** The value found in a round is a non-None answer of some source, and every earlier source gave None or raised. */
  lemma {:induction false} FoundInRoundIsFirst(sources: seq<ConfigSource>, answer: (ConfigSource, string, nat) -> Reply,
                                               key: string, round: nat, i: nat)
    requires i <= |sources|
    ensures match FoundInRound(sources, answer, key, round, i)
      case Some(v) =>
        && v != PyNone
        && exists k :: i <= k < |sources| && answer(sources[k], key, round) == Returns(v)
             && forall j :: i <= j < k ==> Misses(answer(sources[j], key, round))
      case None =>
        forall j :: i <= j < |sources| ==> Misses(answer(sources[j], key, round))
    decreases |sources| - i
  {
    if i < |sources| {
      FoundInRoundIsFirst(sources, answer, key, round, i + 1);
    }
  }

  /** A key never found gives exactly `retries - 1` sleeps and the default value when it is not None. */
  lemma {:induction false} NotFoundUsesDefault(sources: seq<ConfigSource>, answer: (ConfigSource, string, nat) -> Reply,
                                               key: string, defaultValue: PyValue, retries: int)
    requires forall r: nat :: r < retries ==> FoundInRound(sources, answer, key, r, 0).None?
    ensures LookupValue(sources, answer, key, defaultValue, retries) == defaultValue
    ensures LookupSleeps(sources, answer, key, retries) == if retries >= 1 then retries - 1 else 0
  {
    NoRoundFinds(sources, answer, key, 0, retries);
  }

  lemma {:induction false} NoRoundFinds(sources: seq<ConfigSource>, answer: (ConfigSource, string, nat) -> Reply,
                                        key: string, round: nat, retries: int)
    requires forall r: nat :: round <= r < retries ==> FoundInRound(sources, answer, key, r, 0).None?
    ensures FoundFromRound(sources, answer, key, round, retries).None?
    decreases retries - round
  {
    if round < retries {
      NoRoundFinds(sources, answer, key, round + 1, retries);
    }
  }

  /** A value found in round `r` is returned after `r` sleeps; the default is not consulted. */
  lemma {:induction false} FoundInRoundReturned(sources: seq<ConfigSource>, answer: (ConfigSource, string, nat) -> Reply,
                                                key: string, defaultValue: PyValue, retries: int, r: nat, v: PyValue)
    requires r < retries
    requires forall q: nat :: q < r ==> FoundInRound(sources, answer, key, q, 0).None?
    requires FoundInRound(sources, answer, key, r, 0) == Some(v)
    ensures LookupValue(sources, answer, key, defaultValue, retries) == v
    ensures LookupSleeps(sources, answer, key, retries) == r
  {
    var q: nat := r;
    while q > 0
      invariant q <= r
      invariant FoundFromRound(sources, answer, key, q, retries) == Some((r, v))
    {
      q := q - 1;
    }
  }

  /** With no sources, the result is the default value (or None) after `retries - 1` sleeps. */
  lemma EmptyGivesDefault(answer: (ConfigSource, string, nat) -> Reply, key: string, defaultValue: PyValue, retries: int)
    ensures LookupValue([], answer, key, defaultValue, retries) == defaultValue
    ensures LookupSleeps([], answer, key, retries) == if retries >= 1 then retries - 1 else 0
  {
    NotFoundUsesDefault([], answer, key, defaultValue, retries);
  }
}
