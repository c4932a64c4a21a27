# yaml_config cache and reload core, in Dafny

This project models the core of `yaml_config`, a Go library that puts a typed,
cached accessor layer over a YAML configuration read by viper and watched by
fsnotify. The core has two parts:

- **The namespaced cache container** (`container.go`). One process-wide table
  (`sMap`) is shared by every `containers` value, and each container holds only
  a namespace prefix. Keys are qualified by prepending the prefix unless they
  already start with it. `Set` is write-once. `Get` and `KeyIsExists` look keys
  up. `Delete` removes one key. `FuzzyDelete` removes every key of the table that
  starts with the prefix.
- **The reload coordinator** (`yml_config.go`, type `ymlLoader`). Its typed
  getters read through the cache: on a miss they ask the raw source and cache
  the value; on a hit they return the cached value. A change handler purges the
  namespace on a plain write notification, but only once at least 10 ms have
  passed since the last accepted change (the package-level `lastChangeTime`). A
  factory and `Clone` derive the file name, the search directory and the
  namespace prefix.

Files and modules:

| file | module | models |
|---|---|---|
| `wrappers.dfy` | `Wrappers` | `Option`, `Result` |
| `text.dfy` | `Text` | `strings.HasPrefix`, `strings.Index` |
| `values.dfy` | `Values` | the cached `interface{}` values as a tagged variant, getter kinds, faults, type assertions |
| `cache.dfy` | `Cache` | `sMap` as class `Table`; `containers` as class `Container`; `Qualify`, `Purge`, `Apply` |
| `cache_laws.dfy` | `CacheLaws` | write-once, delete, purge, persistence and isolation lemmas |
| `events.dfy` | `Events` | fsnotify `Op` and `Op.String()`, the debounce rule, traces of notifications |
| `paths.dfy` | `Paths` | `BasePath`, the directory logic of `CreateYamlFactory`, config name and prefix |
| `loader.dfy` | `Loader` | the raw source, `lastChangeTime`, `ymlLoader` as class `YmlLoader`, `CreateYamlFactory` |
| `loader_laws.dfy` | `LoaderLaws` | read-through lemmas over sequences of gets; clone and factory namespaces |
| `scenario.dfy` | `Scenario` | a client following `test/yml_config_test.go` (`TestConfig3`): factory, two gets, clone, reload, echo |

How the entities are modelled:

- The three package-level variables are shared objects that the caller passes in:
  - `sMap` is `Cache.Table`.
  - `lastChangeTime` is `Loader.ChangeClock`.
  - `basePath` is `Paths.PathState`.

  Every container created over one `Table` sees the same entries. Every loader
  holding one `ChangeClock` shares the debounce state, as the package globals do.
- The raw source (a viper instance) is `Loader.RawSource`.
  - Its lookups are an abstract function from a getter kind and a key to a value.
    The function is restricted to answer each typed getter with a value of its
    own Go type, as the getters' return types guarantee.
  - A counter records how many times it was queried.
  - Reading the file from disk (`ReadInConfig`) is a function `Disk` from the
    search paths and the config name to the parsed file, or to failure.
- Time is an integer number of milliseconds. The handler reads the clock twice:
  - `now` is compared with `lastChangeTime`.
  - `later` is stored into `lastChangeTime` after the purge.

  `later` is not earlier than `now`.
- The fsnotify operation is a set of five flags. `Op.String()` is modelled as
  fsnotify renders it: the names CREATE, REMOVE, WRITE, RENAME, CHMOD of the flags
  that are set, joined with `|`.
- The nine getters (`Get`, `GetString`, …, `GetStringSlice`) share one body
  shape. The model has one method, `YmlLoader.GetAs`, that takes the getter's
  kind.
  - A cached value of the wrong type makes the Go type assertion panic. Here it
    gives `Err(TypeMismatch)`.
  - The fatal paths (`log.Fatalf`) give `Err(NoWorkingDir)` or
    `Err(ConfigUnreadable)`.

Points where the code behaves in ways that are easy to miss:

- `Get` on an absent key returns nil (`Nil`), not a separate "not found" signal.
- `FuzzyDelete` matches a plain string prefix. A purge therefore removes the keys
  of every namespace whose prefix extends the purged one (see
  `PurgeReachesExtendedNamespace`).
- `Clone` uses the bare file name as its namespace, without the underscore the
  factory appends. Reloading a clone of `f` therefore purges the cache of a
  factory loader for `f`, or for any file name extending `f`
  (`CloneReloadPurgesFactory`).
- The debounce test is `>= 10` ms, and the threshold is one process-wide
  timestamp. A change to one file can suppress the reload of another within the
  window.
- The comment above `lastChangeTime` (yml_config.go:15-18) says a second callback
  within one second counts as the duplicate. The code tests 10 ms
  (yml_config.go:89). The model follows the code.
- A relative path starting with "./" is replaced by the file name without its
  first character (yml_config.go:50-51). The factory is modelled that way; see
  Findings.

## Model

| member | source | states |
|---|---|---|
| `Text.Index` | yml_config.go:251 | `strings.Index`. The result is -1 exactly when the project name occurs nowhere; otherwise it is the position of the first occurrence |
| `Values.AssertionsExclusive` | yml_config.go:145-242 | The untyped `Get` accepts every cached value. No value passes the assertions of two different typed getters. Nil and other raw values fail every typed assertion, and every other value passes exactly one |
| `Cache.Qualify` | container.go:25-27 | The stored key always starts with the prefix. It is the key itself when the key starts with the prefix, and prefix + key otherwise |
| `Cache.Table.constructor` | container.go:11 | The shared table starts empty |
| `Cache.Container.constructor` | container.go:14-16 | A container carries the given prefix and the one shared table |
| `Cache.Container.KeyIsExists` | container.go:57-62 | Reports presence exactly when the qualified key is in the table. It returns the stored value when present and nil when absent. The table is not changed |
| `Cache.Container.Set` | container.go:24-35 | Returns true exactly when the qualified key was absent, and then adds that one entry. When the key was present, the table, old value included, is unchanged |
| `Cache.Container.Delete` | container.go:38-43 | The table loses the qualified key and nothing else |
| `Cache.Container.Get` | container.go:46-54 | Returns the value stored under the qualified key, or nil when there is none. The table is not changed |
| `Cache.Container.FuzzyDelete` | container.go:65-74 | The loop over all keys leaves exactly the purge of the prefix: keys starting with it are gone, all others keep their values |
| `CacheLaws.QualifyIdempotent` | container.go:24-28 | Qualifying twice equals qualifying once. This is why `Set` can pass its qualified key to `KeyIsExists` |
| `CacheLaws.QualifiedAlias` | container.go:25-27 | A key not starting with the prefix and prefix + key name the same entry |
| `CacheLaws.StoreWriteOnce` | container.go:28-34 | A store on an absent key adds exactly that entry and keeps all others. A store on a present key leaves the whole table, and the old value, unchanged |
| `CacheLaws.RemoveExactly` | container.go:38-43 | A delete removes exactly the qualified key, keeps every other value, and is a no-op when the key is absent |
| `CacheLaws.PurgeLaws` | container.go:65-74 | After a purge no key starts with the prefix, every other key keeps its value, nothing is added, and purging again changes nothing |
| `CacheLaws.StoredValuePersists` | container.go:24-74 | After a successful `Set(k, v)`, reading `k` gives `v` after any sequence of sets, deletes and purges, from any container, that neither deletes that stored key nor purges a prefix of it |
| `CacheLaws.Isolated` | container.go:25-27 | If neither prefix extends the other, two namespaces never produce the same stored key, and a purge by one spares every key of the other |
| `CacheLaws.DisjointSpares` | container.go:24-74 | Every set, delete or purge through a disjoint namespace spares this namespace's keys |
| `CacheLaws.StoreInvisibleAcross` | container.go:24-35 | A store through one namespace does not change what a disjoint namespace reads |
| `CacheLaws.PurgeReachesExtendedNamespace` | container.go:68-69 | A purge by prefix `p` removes the keys of any namespace whose prefix extends `p` |
| `Events.OpString` | yml_config.go:90 | The rendering of the fsnotify operation that the handler compares. It is empty exactly when no flag is set |
| `Events.Accepts` | yml_config.go:89-90 | The handler's filter holds exactly when at least 10 ms have passed since the last accepted change and the operation is a plain write |
| `Events.OpStringIsWrite` | yml_config.go:90 | The comparison `Op.String() == "WRITE"` holds exactly for a plain write with no other flag set |
| `Events.AcceptedSpaced` | yml_config.go:89-93 | Over any sequence of notifications, every accepted one comes at least 10 ms after the starting time, and any two accepted ones are at least 10 ms apart |
| `Events.EchoSuppressed` | yml_config.go:89-93 | A notification less than 10 ms after an accepted one is dropped: two such writes purge once |
| `Events.SpacedWritesBothAccepted` | yml_config.go:89-93 | Two plain writes, each at least 10 ms after the previous accepted stamp, both purge |
| `Events.NonWriteIgnored` | yml_config.go:90 | Notifications that are not plain writes never purge and never move `lastChangeTime` |
| `Paths.ResolvedBase` | yml_config.go:249-257 | The new `basePath` is the working directory outside a test run. In a test run it is either the previous value or a start of the working directory that ends with the project name |
| `Paths.BaseOutsideTests` | yml_config.go:255-256 | Outside a test run the base path is the working directory |
| `Paths.BaseInsideTests` | yml_config.go:250-253 | In a test run where the project name occurs past position 0, the base path is the shortest start of the working directory that ends with the project name |
| `Paths.BaseRetained` | yml_config.go:250-254 | In a test run where the project name is missing, or occurs only at position 0, the previous `basePath` is kept |
| `Paths.PathState.constructor` | yml_config.go:244 | The package-level `basePath` starts empty |
| `Paths.BasePath` | yml_config.go:246-263 | A failing `os.Getwd` is fatal and changes nothing. Otherwise `basePath` becomes the resolved base and the result is that base followed by "/" |
| `Paths.ConfigDirAsWritten` | yml_config.go:49-54 | The directory as the factory computes it. It fails (the slice panic) exactly for a "./" relative path with an empty file name. Otherwise it starts with the base, and it is the base when the relative path is empty, "." or "./" |
| `Paths.ConfigDir` | yml_config.go:49-54 | The corrected directory starts with the base, and is the base when the relative path is empty, "." or "./" |
| `Paths.ConfigDirAsWrittenDropsPath` | yml_config.go:49-53 | As written, a relative path "./conf" with file name "app" yields directory base + "pp", and with an empty file name it panics |
| `Paths.ConfigDirExtendsBase` | yml_config.go:49-54 | The directory always starts with the base. It differs from the base exactly when the relative path is non-empty and neither "." nor "./" |
| `Paths.ConfigDirDotSlash` | yml_config.go:50-51 | With the correction, "./x" and "x" give the same directory |
| `Paths.ConfigName` | yml_config.go:58-62 | The config name is never empty: it is the file name when one is given, and "config" otherwise |
| `Paths.FactoryPrefix` | yml_config.go:56-64 | A factory namespace is the config name ("config" by default) followed by "_" |
| `Loader.RawSource.Query` | yml_config.go:149 | One raw query returns the source's answer for the kind and key, and counts one call |
| `Loader.ChangeClock.constructor` | yml_config.go:36-38 | `lastChangeTime` starts at the start-up clock reading |
| `Loader.YmlLoader.constructor` | yml_config.go:73-77 | A loader holds its raw source, its container and the shared clock |
| `Loader.YmlLoader.KeyIsCache` | yml_config.go:101-107 | True exactly when the key is cached in this loader's namespace |
| `Loader.YmlLoader.Cache` | yml_config.go:110-118 | Always returns true, and stores the value only when the key is absent, so it never overwrites an entry |
| `Loader.YmlLoader.GetValueFromCache` | yml_config.go:121-123 | Returns the cached value, or nil |
| `Loader.YmlLoader.ClearCache` | yml_config.go:126-128 | Purges exactly this loader's namespace by prefix |
| `Loader.YmlLoader.GetAs` | yml_config.go:145-242 | A hit returns the type-checked cached value; the table and the raw source's call count are unchanged. A miss returns the raw value, caches it under the qualified key, and counts one query |
| `Loader.YmlLoader.OnConfigChange` | yml_config.go:88-96 | Purges exactly when at least 10 ms have passed since `lastChangeTime` and the op string is "WRITE", and then stores the later clock reading. A rejected event changes neither the table nor `lastChangeTime` |
| `Loader.YmlLoader.Clone` | yml_config.go:131-142 | A failed re-read is fatal. Otherwise the result is a fresh loader with a fresh container whose prefix is the bare file name, the same table and clock, and a fresh source switched to the file name and read afresh. The original is not modified |
| `Loader.CreateYamlFactory` | yml_config.go:44-78 | Fails when the working directory cannot be read, when the "./" replacement slices an empty file name, or when the file cannot be read. Otherwise the result is a fresh loader with namespace `FactoryPrefix(fileName)` over the shared table, a source searching the directory `ConfigDirAsWritten` gives for the config name as "yaml", and the new `basePath` |
| `Loader.ReadThrough` | yml_config.go:145-153 | A get queries the source exactly on a miss. Afterwards the table holds the qualified key and keeps every earlier entry unchanged. A successful get returns what the table now holds for that key |
| `LoaderLaws.ReadThroughCases` | yml_config.go:145-153 | A miss returns the raw value and stores it as a write-once `Set` would. A hit leaves the table and the source alone and returns the cached value exactly when its type matches |
| `LoaderLaws.UntypedGetNeverFails` | yml_config.go:145-153 | The untyped `Get` never fails, cached or not |
| `LoaderLaws.UntypedThenTyped` | yml_config.go:145-164 | The getters share cache keys. After `Get` caches a raw value, a typed get of that key is that value's type check, and it fails on a cached nil |
| `LoaderLaws.HitsRepeat` | yml_config.go:146-147 | Once cached, every later get of the key is the same hit, and neither the table nor the source is touched |
| `LoaderLaws.RepeatedGetsStable` | yml_config.go:145-164 | Repeated gets return what the first returned, even when the raw source changes in between, and only the first may query the source |
| `LoaderLaws.ReloadRefreshes` | yml_config.go:126-153 | After a purge of its namespace, the next get queries the source, whatever it now holds, and caches that value |
| `LoaderLaws.CloneReloadPurgesFactory` | yml_config.go:137 | Purging the namespace of a clone of `f` removes the cached keys of every factory loader whose config name extends `f`: the one for `f`, any longer file name, and the default one for a clone of "config" |
| `LoaderLaws.DefaultFactoryPurgedByConfigClone` | yml_config.go:56-64 | Reloading a clone named "config" purges the cache of the default-name factory loader ("config_") |
| `LoaderLaws.CloneIndependent` | yml_config.go:131-142 | If the namespaces of a clone and its original are disjoint, the clone's gets and purges never change what the original reads |

## Left out

- Viper itself: YAML parsing, search-path resolution, case-insensitive keys and the type coercion of `GetString`, `GetInt` and the other typed getters. The raw source is an abstract lookup, and reading the file is an abstract `Disk` function.
- The registration part of `ConfigFileChangeListen` (`OnConfigChange`, `WatchConfig`), fsnotify's event delivery, and viper's re-read of the file before it calls the handler. These are callbacks and I/O in foreign code. The handler body is `YmlLoader.OnConfigChange`, and `LoaderLaws.ReloadRefreshes` covers the next get after any source change.
- Concurrency. The model covers neither the `sync.Map` internals nor the mutex in `cache` and the pointer to it that `Clone` copies. All operations are sequential; the lock is only the check-then-set bracket of `YmlLoader.Cache`.
- Logging (`log.Infof`, `log.Warnf`). `log.Fatalf` becomes an `Err` result.
- Float and duration arithmetic: `Float64` is an opaque bit pattern, and `Duration` is an opaque count of nanoseconds.
- The `YmlConfig` interface as a separate type. Its methods are the methods of `YmlLoader`, and the nine getters are one method taking the kind.
- `os.Getwd`, `os.Args` and `time.Now` are parameters. Time is whole milliseconds. Go takes the difference in nanoseconds and truncates it to milliseconds, which gives the same 10 ms test.
- Go measures string length in bytes; here strings are sequences of characters.
- The call counter is part of the model's raw source, not of viper. A clone's counter starts at 0.
- test/yml_config_test.go: its checks depend on YAML files that are not part of this model. `Scenario.FactoryThenClone` follows `TestConfig3` over a made-up disk, and `Scenario.WriteThenEcho` shows a reload and its dropped echo.

## Findings

| source | as written | input that shows it | evidently intended | confidence | as-written member | corrected member |
|---|---|---|---|---|---|---|
| yml_config.go:50-51 | a relative path starting with "./" is replaced by `fileName[1:]` | relativePath "./conf", fileName "app": the directory is base + "pp"; with fileName "" it panics | drop the leading "./" of the relative path: base + "conf" | not executed; the use of `fileName` is evidently a slip, and removing the whole "./" is a judgement | `Paths.ConfigDirAsWritten`, shown by `Paths.ConfigDirAsWrittenDropsPath` | `Paths.ConfigDir`, proved by `Paths.ConfigDirExtendsBase` and `Paths.ConfigDirDotSlash`. The factory keeps the behaviour as written |
