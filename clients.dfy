/** The cache configuration of DSPy's client package: the module-level defaults read
    from the environment, the state set up when the package is imported, the
    `configure_cache` entry point with its exclusivity guard and its fail-soft LiteLLM
    disk-cache setup, the LiteLLM cache-hit callback and the logging toggles.

    The engine behind `Cache(...)` is not part of this model: a DSPy cache is the record
    of the five arguments it was built from. Calls into LiteLLM whose outcome the code
    cannot see (building its cache, reading and resetting its size limit) are parameters. */
module Clients {
  import opened Wrappers

  /** Environment variable that overrides the on-disk cache directory. */
  const CacheDirVariable := "DSPY_CACHEDIR"
  /** Environment variable that overrides the on-disk cache size limit. */
  const CacheLimitVariable := "DSPY_CACHE_LIMIT"
  /** Environment variable LiteLLM reads to use its bundled model cost map. */
  const CostMapVariable := "LITELLM_LOCAL_MODEL_COST_MAP"
  /** `int(3e10)`: the size limit used when `DSPY_CACHE_LIMIT` is unset (30 GB). */
  const DefaultDiskCacheLimit := 30_000_000_000
  /** Default `memory_max_entries`. */
  const DefaultMemoryMaxEntries := 1_000_000
  /** The message of the `ValueError` raised by the exclusivity guard. */
  const ExclusivityMessage := "Cannot enable both LiteLLM and DSPy on-disk cache, please set at most one of `enable_disk_cache` or `enable_litellm_cache` to True."
  /** The logged warning, before the text of the caught exception. */
  const LitellmWarningPrefix := "Failed to initialize LiteLLM cache: "

  /** The result of a foreign call: what it returned, or the text of what it raised. */
  datatype Attempt<T> = Ok(value: T) | Raises(error: string)

  /** A DSPy `Cache`, recorded as the five arguments it was constructed with, in order.
      `None` in a field stands for an argument passed as Python `None`. */
  datatype CacheRecord = CacheRecord(
    enableDiskCache: Option<bool>,
    enableMemoryCache: Option<bool>,
    diskCacheDir: Option<string>,
    diskSizeLimitBytes: Option<int>,
    memoryMaxEntries: Option<int>)

  /** The arguments of `configure_cache`. */
  datatype CacheOptions = CacheOptions(
    enableDiskCache: Option<bool>,
    enableMemoryCache: Option<bool>,
    diskCacheDir: Option<string>,
    diskSizeLimitBytes: Option<int>,
    memoryMaxEntries: Option<int>,
    enableLitellmCache: bool)

  /** A LiteLLM cache as DSPy builds it: its directory, its type, and the size limit
      found at `.cache.disk_cache.size_limit` (`None` when that attribute chain
      cannot be read, as with the stand-in class used when LiteLLM has no cache). */
  datatype LitellmCache = LitellmCache(diskCacheDir: string, cacheType: string, sizeLimit: Option<int>)

  /** What the three LiteLLM calls made while enabling its cache turn out to do:
      the constructor raises; or it returns a cache whose size limit can be read (or
      raises when read) and whose `reset("size_limit", ...)` succeeds or raises. */
  datatype LitellmSetup =
    | ConstructorRaises(error: string)
    | Constructed(sizeLimit: Attempt<int>, reset: Attempt<()>)

  /** The callbacks DSPy registers with LiteLLM. */
  datatype Callback = TrackCacheHit

  /** How a call to `configure_cache` ends: normally, or with a raised `ValueError`. */
  datatype ConfigureResult = Configured | ValueError(message: string)

  /** Python truthiness of a `bool | None` argument. */
  predicate Truthy(flag: Option<bool>) {
    flag == Some(true)
  }

  /** `DISK_CACHE_DIR`: `DSPY_CACHEDIR` unless it is unset or empty, and otherwise the
      `.dspy_cache` directory under the user's home (`homeCacheDir`, the result of
      `os.path.join(Path.home(), ".dspy_cache")`). */
  function DiskCacheDir(env: map<string, string>, homeCacheDir: string): (dir: string)
    ensures CacheDirVariable in env && env[CacheDirVariable] != "" ==> dir == env[CacheDirVariable]
    ensures CacheDirVariable !in env || env[CacheDirVariable] == "" ==> dir == homeCacheDir
    ensures dir != "" || homeCacheDir == ""
  {
    if CacheDirVariable in env && env[CacheDirVariable] != "" then env[CacheDirVariable] else homeCacheDir
  }

  /** `DISK_CACHE_LIMIT`: the integer parse of `DSPY_CACHE_LIMIT`, or 30,000,000,000 when
      it is unset. `parse` is Python's `int(str)`; `None` means it raises, and then
      importing the package fails. */
  function DiskCacheLimit(env: map<string, string>, parse: string -> Option<int>): (limit: Option<int>)
    ensures CacheLimitVariable !in env ==> limit == Some(DefaultDiskCacheLimit)
    ensures CacheLimitVariable in env ==> limit == parse(env[CacheLimitVariable])
  {
    if CacheLimitVariable in env then parse(env[CacheLimitVariable]) else Some(DefaultDiskCacheLimit)
  }

  /** A set-if-absent write into the environment: an existing value is never replaced. */
  function SetIfAbsent(env: map<string, string>, key: string, value: string): (r: map<string, string>)
    ensures r.Keys == env.Keys + {key}
    ensures r[key] == if key in env then env[key] else value
    ensures forall k :: k in env ==> r[k] == env[k]
  {
    if key in env then env else env[key := value]
  }

  lemma SetIfAbsentIdempotent(env: map<string, string>, key: string, value: string, other: string)
    ensures SetIfAbsent(SetIfAbsent(env, key, value), key, other) == SetIfAbsent(env, key, value)
  {
  }

  /** The exclusivity guard of `configure_cache`: the error it raises, if any. It tests
      truthiness, so `enable_disk_cache=None` never trips it. */
  function ExclusivityGuard(opts: CacheOptions): (err: Option<string>)
    ensures err.Some? <==> opts.enableDiskCache == Some(true) && opts.enableLitellmCache
    ensures err.Some? ==> err.value == ExclusivityMessage
  {
    if Truthy(opts.enableDiskCache) && opts.enableLitellmCache then Some(ExclusivityMessage) else None
  }

  /** The text of the exception caught while enabling the LiteLLM cache, if one is.
      The size limit is reset only when it differs from `limit`, so a reset that would
      raise is harmless when the limit already matches. */
  function LitellmSetupError(setup: LitellmSetup, limit: int): (err: Option<string>)
    ensures err.None? <==> setup.Constructed? && setup.sizeLimit.Ok?
                           && (setup.sizeLimit.value == limit || setup.reset.Ok?)
    ensures setup.Constructed? && setup.sizeLimit == Ok(limit) ==> err.None?
  {
    match setup
    case ConstructorRaises(e) => Some(e)
    case Constructed(Raises(e), _) => Some(e)
    case Constructed(Ok(current), reset) =>
      if current == limit then None
      else if reset.Raises? then Some(reset.error)
      else None
  }

  /** `litellm.cache` after `configure_cache` passes its guard: `None` unless the LiteLLM
      cache is requested and its setup raises nothing, and then a disk cache at
      `DISK_CACHE_DIR` whose size limit is `DISK_CACHE_LIMIT`. */
  function LitellmCacheAfter(enable: bool, setup: LitellmSetup, dir: string, limit: int): (c: Option<LitellmCache>)
    ensures !enable ==> c == None
    ensures enable ==> (c.Some? <==> LitellmSetupError(setup, limit).None?)
    ensures c.Some? ==> c.value == LitellmCache(dir, "disk", Some(limit))
  {
    if enable && LitellmSetupError(setup, limit).None? then Some(LitellmCache(dir, "disk", Some(limit))) else None
  }

  /** The warnings `configure_cache` logs after passing its guard: one, carrying the
      exception's text, exactly when enabling the LiteLLM cache raised. */
  function LitellmWarnings(enable: bool, setup: LitellmSetup, limit: int): (w: seq<string>)
    ensures |w| <= 1
    ensures |w| == 1 <==> enable && LitellmSetupError(setup, limit).Some?
    ensures |w| == 1 ==> w[0] == LitellmWarningPrefix + LitellmSetupError(setup, limit).value
  {
    if enable && LitellmSetupError(setup, limit).Some? then [LitellmWarningPrefix + LitellmSetupError(setup, limit).value] else []
  }

  /** The DSPy cache `configure_cache` builds: its first five arguments, in order. */
  function CacheFor(opts: CacheOptions): CacheRecord {
    CacheRecord(opts.enableDiskCache, opts.enableMemoryCache, opts.diskCacheDir,
                opts.diskSizeLimitBytes, opts.memoryMaxEntries)
  }

  /** The default arguments of `configure_cache`, bound when the package is imported. */
  function DefaultOptions(dir: string, limit: int): CacheOptions {
    CacheOptions(Some(true), Some(true), Some(dir), Some(limit), Some(DefaultMemoryMaxEntries), false)
  }

  /** Whenever the LiteLLM cache ends active, its directory and limit come from the
      environment defaults, whatever DSPy directory and limit were passed. */
  lemma LitellmIgnoresDiskArguments(opts: CacheOptions, setup: LitellmSetup, dir: string, limit: int)
    requires ExclusivityGuard(opts).None?
    ensures var c := LitellmCacheAfter(opts.enableLitellmCache, setup, dir, limit);
            c.Some? ==> c.value.diskCacheDir == dir && c.value.sizeLimit == Some(limit)
                        && !Truthy(CacheFor(opts).enableDiskCache)
  {
  }

  /** The guard lets `enable_disk_cache=None` through together with the LiteLLM cache. */
  lemma GuardUsesTruthiness(opts: CacheOptions)
    requires opts.enableDiskCache == None && opts.enableLitellmCache
    ensures ExclusivityGuard(opts).None?
  {
  }

  /** The size-limit reset is attempted only when the limit differs: when it already
      equals the target, the outcome of a reset does not matter. */
  lemma ResetOnlyWhenLimitDiffers(limit: int, reset1: Attempt<()>, reset2: Attempt<()>, dir: string)
    ensures LitellmCacheAfter(true, Constructed(Ok(limit), reset1), dir, limit)
         == LitellmCacheAfter(true, Constructed(Ok(limit), reset2), dir, limit)
         == Some(LitellmCache(dir, "disk", Some(limit)))
  {
  }

  /** The response object LiteLLM hands to its success callbacks; only the attribute
      DSPy writes is modelled. `None` stands for Python `None`. */
  class CompletionResponse {
    var cacheHit: Option<bool>

    constructor (cacheHit: Option<bool>)
      ensures this.cacheHit == cacheHit
    {
      this.cacheHit := cacheHit;
    }
  }

  /** `_litellm_track_cache_hit_callback`: copies `kwargs["cache_hit"]` onto the response,
      or `False` when the key is absent. The start and end times are unused. */
  method TrackCacheHitCallback(kwargs: map<string, Option<bool>>, response: CompletionResponse, startTime: int, endTime: int)
    modifies response
    ensures response.cacheHit == if "cache_hit" in kwargs then kwargs["cache_hit"] else Some(false)
  {
    response.cacheHit := if "cache_hit" in kwargs then kwargs["cache_hit"] else Some(false);
  }

  /** The process-wide state the package reads and writes: LiteLLM's module globals,
      the `dspy.cache` global, the environment and the log of warnings. The constants
      are the module-level `DISK_CACHE_DIR`, `DISK_CACHE_LIMIT` and `DSPY_CACHE`. */
  class ClientsModule {
    const diskCacheDir: string
    const diskCacheLimit: int
    const defaultCache: CacheRecord
    /** `litellm.cache`. */
    var litellmCache: Option<LitellmCache>
    /** `dspy.cache`; `None` until `configure_cache` assigns it (the package's own
        `__init__` binds it to `DSPY_CACHE`, which is outside this module). */
    var dspyCache: Option<CacheRecord>
    /** `litellm.success_callback`. */
    var successCallbacks: seq<Callback>
    /** `litellm.telemetry`. */
    var telemetry: bool
    /** `litellm.suppress_debug_info`. */
    var suppressDebugInfo: bool
    /** `os.environ`. */
    var env: map<string, string>
    /** The messages passed to `logger.warning`, in order. */
    var warnings: seq<string>

    /** The invariant the package keeps: `DSPY_CACHE` is built from the defaults, the
        callback stays registered and telemetry stays off; an active LiteLLM cache is always the disk
        cache at `DISK_CACHE_DIR` limited to `DISK_CACHE_LIMIT`, and it never coexists
        with a DSPy cache whose on-disk tier is enabled. */
    ghost predicate Valid()
      reads this
    {
      && defaultCache == CacheRecord(Some(true), Some(true), Some(diskCacheDir), Some(diskCacheLimit), Some(DefaultMemoryMaxEntries))
      && successCallbacks == [TrackCacheHit]
      && !telemetry
      && (litellmCache.Some? ==> litellmCache.value == LitellmCache(diskCacheDir, "disk", Some(diskCacheLimit)))
      && (litellmCache.Some? ==> dspyCache.Some? && !Truthy(dspyCache.value.enableDiskCache))
    }

    /** Importing the package, given an environment in which `DSPY_CACHE_LIMIT` parses. */
    constructor Import(environ: map<string, string>, homeCacheDir: string, parse: string -> Option<int>)
      requires DiskCacheLimit(environ, parse).Some?
      ensures Valid()
      ensures diskCacheDir == DiskCacheDir(environ, homeCacheDir)
      ensures diskCacheLimit == DiskCacheLimit(environ, parse).value
      ensures defaultCache == CacheRecord(Some(true), Some(true), Some(diskCacheDir), Some(diskCacheLimit), Some(DefaultMemoryMaxEntries))
      ensures litellmCache == None && dspyCache == None
      ensures suppressDebugInfo
      ensures env == SetIfAbsent(environ, CostMapVariable, "True")
      ensures warnings == []
    {
      var dir := DiskCacheDir(environ, homeCacheDir);
      var limit := DiskCacheLimit(environ, parse).value;
      diskCacheDir := dir;
      diskCacheLimit := limit;
      successCallbacks := [TrackCacheHit];
      telemetry := false;
      litellmCache := None;
      defaultCache := CacheRecord(Some(true), Some(true), Some(dir), Some(limit), Some(DefaultMemoryMaxEntries));
      dspyCache := None;
      suppressDebugInfo := true;
      env := environ;
      warnings := [];
      new;
      if CostMapVariable !in env {
        env := env[CostMapVariable := "True"];
      }
    }

    /** `configure_cache`. The guard runs before any assignment; a failure while enabling
        the LiteLLM cache is logged and leaves `litellm.cache` at `None`; and whenever
        the guard passes, `dspy.cache` is replaced by a cache built from the arguments.
        Nothing else changes. */
    method ConfigureCache(opts: CacheOptions, setup: LitellmSetup) returns (r: ConfigureResult)
      requires Valid()
      modifies this`litellmCache, this`dspyCache, this`warnings
      ensures Valid()
      ensures ExclusivityGuard(opts).Some? ==>
                && r == ValueError(ExclusivityMessage)
                && litellmCache == old(litellmCache)
                && dspyCache == old(dspyCache)
                && warnings == old(warnings)
      ensures ExclusivityGuard(opts).None? ==>
                && r == Configured
                && litellmCache == LitellmCacheAfter(opts.enableLitellmCache, setup, diskCacheDir, diskCacheLimit)
                && warnings == old(warnings) + LitellmWarnings(opts.enableLitellmCache, setup, diskCacheLimit)
                && dspyCache == Some(CacheFor(opts))
    {
      var guard := ExclusivityGuard(opts);
      if guard.Some? {
        return ValueError(guard.value);
      }
      if opts.enableLitellmCache {
        match setup
        case ConstructorRaises(e) =>
          warnings := warnings + [LitellmWarningPrefix + e];
          litellmCache := None;
        case Constructed(limitRead, reset) =>
          litellmCache := Some(LitellmCache(diskCacheDir, "disk", if limitRead.Ok? then Some(limitRead.value) else None));
          if limitRead.Raises? {
            warnings := warnings + [LitellmWarningPrefix + limitRead.error];
            litellmCache := None;
          } else if limitRead.value != diskCacheLimit {
            if reset.Ok? {
              litellmCache := Some(litellmCache.value.(sizeLimit := Some(diskCacheLimit)));
            } else {
              warnings := warnings + [LitellmWarningPrefix + reset.error];
              litellmCache := None;
            }
          }
      } else {
        litellmCache := None;
      }
      dspyCache := Some(CacheFor(opts));
      r := Configured;
    }

    /** `configure_cache()` with every argument left at its default rebuilds exactly the
        cache made at import time and leaves the LiteLLM cache off. */
    method ConfigureCacheDefaults(setup: LitellmSetup) returns (r: ConfigureResult)
      requires Valid()
      modifies this`litellmCache, this`dspyCache, this`warnings
      ensures Valid()
      ensures r == Configured
      ensures litellmCache == None && dspyCache == Some(defaultCache) && warnings == old(warnings)
    {
      r := ConfigureCache(DefaultOptions(diskCacheDir, diskCacheLimit), setup);
    }

    /** `enable_litellm_logging`: idempotent, since it sets the flag whatever it was. */
    method EnableLitellmLogging()
      requires Valid()
      modifies this`suppressDebugInfo
      ensures Valid() && !suppressDebugInfo
    {
      suppressDebugInfo := false;
    }

    /** `disable_litellm_logging`: idempotent, since it sets the flag whatever it was. */
    method DisableLitellmLogging()
      requires Valid()
      modifies this`suppressDebugInfo
      ensures Valid() && suppressDebugInfo
    {
      suppressDebugInfo := true;
    }
  }

  /** Importing the package: `null` when `int(DSPY_CACHE_LIMIT)` raises
      (the import fails), and otherwise the freshly initialised state. */
  method ImportClients(environ: map<string, string>, homeCacheDir: string, parse: string -> Option<int>)
    returns (m: ClientsModule?)
    ensures m == null <==> DiskCacheLimit(environ, parse).None?
    ensures m != null ==> fresh(m) && m.Valid() && m.litellmCache == None && m.suppressDebugInfo
                          && m.diskCacheDir == DiskCacheDir(environ, homeCacheDir)
                          && m.diskCacheLimit == DiskCacheLimit(environ, parse).value
                          && m.env == SetIfAbsent(environ, CostMapVariable, "True")
                          && m.dspyCache == None && m.warnings == []
  {
    if DiskCacheLimit(environ, parse).None? {
      return null;
    }
    m := new ClientsModule.Import(environ, homeCacheDir, parse);
  }

  /** A rejected call between two accepted ones leaves no trace: it raises, the state
      it finds is the state it leaves, and the final state, warnings included, is the
      one the two accepted calls alone produce. */
  method ReconfigureScenario(m: ClientsModule, bad: CacheOptions, good: CacheOptions, setup: LitellmSetup)
    returns (first: ConfigureResult, rejected: ConfigureResult, second: ConfigureResult)
    requires m.Valid()
    requires ExclusivityGuard(bad).Some? && ExclusivityGuard(good).None?
    modifies m`litellmCache, m`dspyCache, m`warnings
    ensures m.Valid()
    ensures first == second == Configured && rejected == ValueError(ExclusivityMessage)
    ensures m.dspyCache == Some(CacheFor(good))
    ensures m.litellmCache == LitellmCacheAfter(good.enableLitellmCache, setup, m.diskCacheDir, m.diskCacheLimit)
    ensures var w := LitellmWarnings(good.enableLitellmCache, setup, m.diskCacheLimit);
            m.warnings == old(m.warnings) + w + w
  {
    first := m.ConfigureCache(good, setup);
    ghost var litellmAfterFirst, dspyAfterFirst, warningsAfterFirst := m.litellmCache, m.dspyCache, m.warnings;
    rejected := m.ConfigureCache(bad, setup);
    assert m.litellmCache == litellmAfterFirst && m.dspyCache == dspyAfterFirst && m.warnings == warningsAfterFirst;
    second := m.ConfigureCache(good, setup);
  }
}
