# DSPy cache configuration and pydantic compatibility, modelled in Dafny

This project models two parts of DSPy's client support code.

- `clients.dfy` (module `Clients`) models `dspy/clients/__init__.py`. It covers:
  - the on-disk cache defaults read from the environment (`DISK_CACHE_DIR`, `DISK_CACHE_LIMIT`);
  - the state set up when the package is imported;
  - `configure_cache`, with its exclusivity guard between the DSPy on-disk cache and the LiteLLM cache, its fail-soft LiteLLM disk-cache setup and its replacement of `dspy.cache`;
  - the LiteLLM cache-hit callback, the logging toggles and the set-if-absent write of `LITELLM_LOCAL_MODEL_COST_MAP`.

  The process-wide globals are the fields of a class, `ClientsModule`. Its invariant `Valid()` says that:
  - an active LiteLLM cache is always the disk cache at `DISK_CACHE_DIR`, limited to `DISK_CACHE_LIMIT`;
  - an active LiteLLM cache never coexists with a DSPy cache whose on-disk tier is enabled.
- `pydantic_compat.dfy` (module `PydanticCompat`) models `dspy/utils/pydantic_compat.py`. It covers:
  - the `PYDANTIC_V2` version test, the v2 `get_model_config` default and the last-writer-wins v2 `set_model_config`;
  - the decision logic of the pydantic v1 branch: the `TypeAdapter` stand-in (`validate_python`, `dump_python`, `json_schema`), `get_model_config`, first-writer-wins `set_model_config`, the validator mode test, and `get_field_info` / `FieldInfoCompat`.

  Python values are a `Value` datatype. An object value carries the map from its attribute names to their values and the set of names `dir()` lists for it. A model class is a `ModelClass` object holding its own attributes and its bases, nearest first; `hasattr` and `getattr` on it look through both.
- `wrappers.dfy` holds the `Option` datatype both modules use.

Calls whose outcome the code cannot see are parameters of the model. These are the LiteLLM cache constructor, reading and resetting its size limit, `parse_obj`, calling a type, `.dict()`, `.schema()`, `str(type_)` and `int()` on `DSPY_CACHE_LIMIT`. The DSPy `Cache` engine is not part of this model. A DSPy cache is the record of the five arguments it was built from.

Behaviour of the code worth noting:
- the exclusivity guard raises `ValueError`;
- the guard tests truthiness, so `enable_disk_cache=None` passes it;
- the LiteLLM cache always uses `DISK_CACHE_DIR` and `DISK_CACHE_LIMIT` and ignores the `disk_cache_dir` and `disk_size_limit_bytes` arguments;
- the warning-and-continue path belongs to the LiteLLM cache setup.

## Model

| member | source | states |
|---|---|---|
| Clients.DiskCacheDir | dspy/clients/__init__.py:32 | `DISK_CACHE_DIR` is `DSPY_CACHEDIR` when set and non-empty, otherwise the home `.dspy_cache` directory; it is never empty when that directory is not |
| Clients.DiskCacheLimit | dspy/clients/__init__.py:33 | `DISK_CACHE_LIMIT` is 30,000,000,000 when `DSPY_CACHE_LIMIT` is unset, otherwise the integer parse of its value (which may fail) |
| Clients.SetIfAbsent | dspy/clients/__init__.py:107-109 | the cost-map variable ends present; an existing value is kept; every other variable is unchanged |
| Clients.SetIfAbsentIdempotent | dspy/clients/__init__.py:107-109 | a second set-if-absent write changes nothing |
| Clients.ExclusivityGuard | dspy/clients/__init__.py:62-66 | `ValueError` with the source's message exactly when `enable_disk_cache` is `True` and `enable_litellm_cache` is true |
| Clients.GuardUsesTruthiness | dspy/clients/__init__.py:45-62 | `enable_disk_cache=None` with `enable_litellm_cache=True` passes the guard |
| Clients.LitellmSetupError | dspy/clients/__init__.py:69-78 | enabling the LiteLLM cache raises nothing exactly when the constructor returns, the size limit is readable, and the limit already matches or its reset succeeds |
| Clients.ResetOnlyWhenLimitDiffers | dspy/clients/__init__.py:72-73 | when the size limit already equals `DISK_CACHE_LIMIT`, the outcome of a reset does not matter, because no reset happens |
| Clients.LitellmCacheAfter | dspy/clients/__init__.py:68-80 | `litellm.cache` is `None` when not requested or when setup raised, and otherwise the disk cache at `DISK_CACHE_DIR` with limit `DISK_CACHE_LIMIT` |
| Clients.LitellmWarnings | dspy/clients/__init__.py:74-78 | exactly one warning, carrying the exception text, is logged exactly when the requested setup raised |
| Clients.LitellmIgnoresDiskArguments | dspy/clients/__init__.py:70-73 | an active LiteLLM cache takes its directory and limit from the environment defaults, and the DSPy cache built beside it has its disk tier off |
| Clients.TrackCacheHitCallback | dspy/clients/__init__.py:36-38 | `completion_response.cache_hit` becomes `kwargs["cache_hit"]`, or `False` when the key is absent |
| Clients.ClientsModule.Import | dspy/clients/__init__.py:32-109 | import-time state: the success callback registered, telemetry off, `litellm.cache` `None`, `DSPY_CACHE` built from the defaults, debug info suppressed, cost-map variable set if absent |
| Clients.ImportClients | dspy/clients/__init__.py:33 | importing fails exactly when `DSPY_CACHE_LIMIT` does not parse, and otherwise yields the initial state: no LiteLLM cache, `dspy.cache` unbound, no warnings, debug info suppressed, cost-map variable set if absent |
| Clients.ClientsModule.ConfigureCache | dspy/clients/__init__.py:44-90 | a rejected call changes nothing; an accepted call sets `litellm.cache` per `LitellmCacheAfter`, logs per `LitellmWarnings`, and replaces `dspy.cache` with a cache built from the five arguments in order; the invariant is kept |
| Clients.ClientsModule.ConfigureCacheDefaults | dspy/clients/__init__.py:44-102 | `configure_cache()` with default arguments rebuilds exactly `DSPY_CACHE` and leaves the LiteLLM cache off |
| Clients.ReconfigureScenario | dspy/clients/__init__.py:62-90 | a rejected call between two accepted ones raises and leaves the state it found; the final caches and warnings are those of the two accepted calls alone |
| Clients.ClientsModule.EnableLitellmLogging | dspy/clients/__init__.py:112-113 | `suppress_debug_info` ends false whatever it was |
| Clients.ClientsModule.DisableLitellmLogging | dspy/clients/__init__.py:116-117 | `suppress_debug_info` ends true whatever it was |
| PydanticCompat.IsPydanticV2 | dspy/utils/pydantic_compat.py:14 | the v2 branch is taken exactly when a version string exists and its first two characters are `2.` |
| PydanticCompat.PydanticVersionExamples | dspy/utils/pydantic_compat.py:14 | "2.11.7" and "2." select v2; "1.10.13", "20.1", "2" and a missing version do not |
| PydanticCompat.FirstPresent | dspy/utils/pydantic_compat.py:72-85 | the attribute probe chain takes the first capability present, having found every earlier one absent |
| PydanticCompat.TypeAdapter.ValidatePython | dspy/utils/pydantic_compat.py:70-85 | dispatch on the first of `__origin__`, `parse_obj`, `__call__` the type has: generic → data unchanged; `parse_obj` → its outcome; call → its outcome, or data unchanged on `ValueError`/`TypeError`; none → data unchanged |
| PydanticCompat.ValidationRaisesOnlyForeignErrors | dspy/utils/pydantic_compat.py:78-83 | validation raises only what `parse_obj` raised, or an exception other than `ValueError`/`TypeError` from calling the type |
| PydanticCompat.GenericAliasPassesThrough | dspy/utils/pydantic_compat.py:72-74 | a generic type returns the data unchanged, whatever else it offers |
| PydanticCompat.TypeAdapter.DumpPython | dspy/utils/pydantic_compat.py:87-94 | `.dict()` when present, else `__dict__`, else the data unchanged |
| PydanticCompat.DumpIgnoresMode | dspy/utils/pydantic_compat.py:87 | the `mode` argument never changes the result |
| PydanticCompat.TypeAdapter.JsonSchema | dspy/utils/pydantic_compat.py:96-116 | the type's own `schema()` when present; otherwise a one-key dict `{"type": t}` with `t` a JSON schema type given by the type's name |
| PydanticCompat.SchemaTypeFor | dspy/utils/pydantic_compat.py:102-116 | the fallback always yields one of the six JSON schema types |
| PydanticCompat.SchemaTypeMatchesTable | dspy/utils/pydantic_compat.py:103-116 | str→string, int→integer, float→number, bool→boolean, list→array, dict→object, and every other name→string |
| PydanticCompat.GetTypeAdapter | dspy/utils/pydantic_compat.py:153-155 | the adapter wraps exactly the given type |
| PydanticCompat.LayeredAttrsHas | dspy/utils/pydantic_compat.py:134 | `hasattr` on a class finds a name set on the class or on any of its bases |
| PydanticCompat.LayeredAttrsSource | dspy/utils/pydantic_compat.py:120 | `getattr` on a class yields the value from the nearest class in the resolution order that holds the name |
| PydanticCompat.GetModelConfigV1 | dspy/utils/pydantic_compat.py:118-128 | `{}` without `Config` (own or inherited); otherwise exactly the names `dir(Config)` lists that do not start with `_`, each with its `getattr` value |
| PydanticCompat.GetModelConfigV2 | dspy/utils/pydantic_compat.py:20-22 | `model_config`, own or inherited, or `{}` when the class has none |
| PydanticCompat.WithPendingConfig | dspy/utils/pydantic_compat.py:130-135 | the config is parked only when `_pending_config` is absent; every other attribute is kept |
| PydanticCompat.FirstWriterWins | dspy/utils/pydantic_compat.py:134-135 | after any sequence of `set_model_config` calls, the parked config is the first one |
| PydanticCompat.ParkAllAfterFirst | dspy/utils/pydantic_compat.py:134-135 | once a config is parked, further calls change nothing |
| PydanticCompat.WithModelConfig | dspy/utils/pydantic_compat.py:24-26 | the v2 `set_model_config` overwrites `model_config` unconditionally and keeps every other attribute |
| PydanticCompat.LastWriterWinsV2 | dspy/utils/pydantic_compat.py:24-26 | in v2 a second `set_model_config` replaces the first |
| PydanticCompat.SetModelConfigV2 | dspy/utils/pydantic_compat.py:24-26 | the class's own attributes and the attributes it shows change as `WithModelConfig` says, and `get_model_config` then returns the new config |
| PydanticCompat.SetModelConfigV1 | dspy/utils/pydantic_compat.py:130-135 | the config is written on the class itself exactly when no `_pending_config` is visible, own or inherited; the attributes the class shows change as `WithPendingConfig` says |
| PydanticCompat.ParkOnBaseThenSubclass | dspy/utils/pydantic_compat.py:130-135 | after `set_model_config` on a base class, the call on a subclass writes nothing and the subclass sees a pending config |
| PydanticCompat.ModelValidatorOptionsV1 | dspy/utils/pydantic_compat.py:137-143 | `pre` holds exactly for mode "before"; `allow_reuse` is always set |
| PydanticCompat.DefaultValidatorIsPre | dspy/utils/pydantic_compat.py:137 | `create_model_validator()` without a mode uses "before" and so builds a reusable pre-validator |
| PydanticCompat.SchemaExtra | dspy/utils/pydantic_compat.py:189-202 | `json_schema_extra` is the nested entry of `extra` when present, otherwise the whole of `extra`; it is `{}` without `extra` or when the candidate is not a dict |
| PydanticCompat.NestedExtraTakesPrecedence | dspy/utils/pydantic_compat.py:194-195 | with a nested `json_schema_extra`, the sibling entries of `extra` do not matter |
| PydanticCompat.FieldInfoCompat.constructor | dspy/utils/pydantic_compat.py:181-202 | annotation and default are copied from the field; `json_schema_extra` is always a dict, equal to `SchemaExtra` |
| PydanticCompat.GetFieldInfoV1 | dspy/utils/pydantic_compat.py:173-205 | a `ModelField` yields a fresh `FieldInfoCompat`; any other argument is returned unchanged |

## Left out

- The DSPy `Cache` engine (memory LRU, disk eviction, promotion, hit telemetry): its source is not part of this model. A cache is the record of its constructor arguments.
- The import-fallback chain that finds LiteLLM's cache class (dspy/clients/__init__.py:8-22) is module resolution. Its stand-in class has no `.cache` attribute chain, and that case is the "size limit unreadable" outcome of `LitellmSetup`.
- `Path.home()` and `os.path.join` are foreign calls. Their result is the `homeCacheDir` parameter, which always exists. `Path.home()` itself raises `RuntimeError` when no home directory can be found; it runs only when `DSPY_CACHEDIR` is unset or empty, and the import then fails. That failure is not modelled.
- Python's `int()` string grammar is not modelled. The parse of `DSPY_CACHE_LIMIT` is an abstract partial function.
- `logger.warning` output is modelled as a list of messages. The exception text is abstract.
- Binding `dspy.cache` to `DSPY_CACHE` happens in the package's top-level `__init__`, which is not part of this model. `dspyCache` is unbound until `configure_cache` runs.
- Clients.TrackCacheHitCallback: `kwargs` values are modelled as `bool | None` only, not arbitrary Python values.
- The pydantic v2 branch apart from `get_model_config`, `set_model_config` and `get_field_info` only forwards to pydantic methods (dspy/utils/pydantic_compat.py:28-54).
- The v2 `get_field_info` (dspy/utils/pydantic_compat.py:56-58) returns its argument unchanged and decides nothing, so it has no member.
- The model copies values where the code shares objects. The v1 `set_model_config` parks the caller's own dict, and `FieldInfoCompat.json_schema_extra` is the same dict object as `field_info.extra` or its nested entry. Later in-place changes through one of these aliases, which the code relies on when it keeps `json_schema_extra` mutable, are not captured.
- The effects of `root_validator` and `model_validator` are library-defined. The v1 `create_model_validator` is modelled by the arguments it passes to `root_validator`.
- `create_model_serializer` returns its function unchanged. `model_dump`, `model_validate`, the module-level `json_schema` and `get_model_fields` of the v1 branch only forward to pydantic methods.
- Attributes of built-in values (`None`, booleans, ints, strings, lists, dicts) are not modelled; they have no attributes here. Functions and classes are objects whose attribute map holds `__call__` (and `__dict__` for Python-defined functions).
- `dir()` order is not modelled. `get_model_config` visits the listed names as a set, and its result is the same in any order. A name `dir()` lists but `getattr` cannot read (possible with a custom `__dir__`) would raise `AttributeError`; the model leaves such names out.
- The method resolution order of a class is given as its `bases` sequence, nearest first; how Python computes it (C3 linearisation) is not modelled.
- Reconfiguration has no synchronization in the source. Concurrency is not modelled.
