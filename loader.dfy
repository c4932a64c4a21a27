/**
 * The reload coordinator of yml_config.go (`ymlLoader`): typed getters
 * that read through the cache container, the debounced change handler,
 * the factory and `Clone`. The raw configuration source (viper) is an
 * abstract lookup plus a call counter; the disk is a function from search
 * paths and a config name to the parsed file, or to failure.
 */
module Loader {
  import opened Wrappers
  import opened Text
  import opened Values
  import opened Cache
  import opened Events
  import opened Paths

  /**
   * What the raw source answers for a getter of a kind and a key, coercion
   * included; a typed getter always answers with a value of its own type.
   */
  type Lookup = f: (Kind, string) -> Value | forall k: Kind, s: string :: HasKind(f(k, s), k)
    witness (k: Kind, s: string) => ZeroOf(k)

  /** `ReadInConfig`: the parsed file found under the search paths and the config name, or None. */
  type Disk = (seq<string>, string) -> Option<Lookup>

  /** A viper instance, seen only through its settings and its lookups. */
  class RawSource {
    const configPaths: seq<string>
    const configName: string
    const configType: string
    const read: Lookup
    var calls: nat

    constructor (configPaths: seq<string>, configName: string, configType: string, read: Lookup)
      ensures this.configPaths == configPaths && this.configName == configName
      ensures this.configType == configType && this.read == read && calls == 0
    {
      this.configPaths := configPaths;
      this.configName := configName;
      this.configType := configType;
      this.read := read;
      calls := 0;
    }

    /** One raw query: `viper.Get` for AnyKind, `viper.GetString` for StringKind, and so on. */
    method Query(kind: Kind, key: string) returns (v: Value)
      modifies this`calls
      ensures v == read(kind, key) && calls == old(calls) + 1
    {
      v := read(kind, key);
      calls := calls + 1;
    }
  }

  /** The package-level `lastChangeTime`, shared by every loader; set to the clock at start-up. */
  class ChangeClock {
    var lastChangeTime: int

    constructor (start: int)
      ensures lastChangeTime == start
    {
      lastChangeTime := start;
    }
  }

  /** One typed get: its result, the table afterwards, and whether the raw source was asked. */
  datatype Fetched = Fetched(result: Result<Value, Fault>, entries: map<string, Value>, queried: bool)

  /**
   * The read-through rule: a cached entry is returned after the getter's
   * type assertion, with the raw source left alone; on a miss the raw
   * value is returned and cached under the qualified key.
   */
  function ReadThrough(m: map<string, Value>, prefix: string, read: Lookup, kind: Kind, key: string): (f: Fetched)
    ensures f.queried <==> Qualify(prefix, key) !in m
    ensures f.entries.Keys == m.Keys + {Qualify(prefix, key)}
    ensures forall k :: k in m ==> f.entries[k] == m[k]
    ensures f.result.Ok? ==> Read(f.entries, Qualify(prefix, key)) == f.result.value
  {
    var q := Qualify(prefix, key);
    if q in m then Fetched(Checked(kind, m[q]), m, false)
    else Fetched(Ok(read(kind, key)), m[q := read(kind, key)], true)
  }

  class YmlLoader {
    const source: RawSource
    const c: Container
    const clock: ChangeClock

    constructor (source: RawSource, c: Container, clock: ChangeClock)
      ensures this.source == source && this.c == c && this.clock == clock
    {
      this.source := source;
      this.c := c;
      this.clock := clock;
    }

    /** `keyIsCache`: whether the key is cached in this loader's namespace. */
    method KeyIsCache(key: string) returns (cached: bool)
      ensures cached <==> Qualify(c.prefix, key) in c.table.entries
    {
      var _, found := c.KeyIsExists(key);
      cached := found;
    }

    /** `cache`: check, then store; it always succeeds and never overwrites an entry. */
    method Cache(key: string, value: Value) returns (ok: bool)
      modifies c.table
      ensures ok
      ensures c.table.entries == Apply(old(c.table.entries), Store(c.prefix, key, value))
    {
      var _, found := c.KeyIsExists(key);
      if found {
        return true;
      }
      ok := c.Set(key, value);
    }

    /** `getValueFromCache`: the cached value, or nil. */
    method GetValueFromCache(key: string) returns (v: Value)
      ensures v == Read(c.table.entries, Qualify(c.prefix, key))
    {
      v := c.Get(key);
    }

    /** `clearCache`: purge this loader's namespace. */
    method ClearCache()
      modifies c.table
      ensures c.table.entries == Apply(old(c.table.entries), PurgeAll(c.prefix))
    {
      c.FuzzyDelete();
    }

    /**
     * `Get`, `GetString`, `GetBool`, `GetInt`, `GetInt32`, `GetInt64`,
     * `GetFloat64`, `GetDuration` and `GetStringSlice`: one read-through
     * get for the getter of kind `kind`.
     */
    method GetAs(kind: Kind, key: string) returns (r: Result<Value, Fault>)
      modifies c.table, source
      ensures var f := ReadThrough(old(c.table.entries), c.prefix, source.read, kind, key);
        && r == f.result
        && c.table.entries == f.entries
        && source.calls == old(source.calls) + (if f.queried then 1 else 0)
    {
      var cached := KeyIsCache(key);
      if cached {
        var v := GetValueFromCache(key);
        r := Checked(kind, v);
      } else {
        var v := source.Query(kind, key);
        var _ := Cache(key, v);
        r := Ok(v);
      }
    }

    /**
     * The handler `ConfigFileChangeListen` registers. `now` is the clock
     * reading it compares with the last accepted change, `later` the
     * reading it stores after purging.
     */
    method OnConfigChange(now: int, later: int, op: Op) returns (reloaded: bool)
      requires now <= later
      modifies clock, c.table
      ensures reloaded == Accepts(old(clock.lastChangeTime), now, op)
      ensures clock.lastChangeTime == if reloaded then later else old(clock.lastChangeTime)
      ensures c.table.entries == if reloaded then Apply(old(c.table.entries), PurgeAll(c.prefix)) else old(c.table.entries)
    {
      reloaded := false;
      if now - clock.lastChangeTime >= DebounceMillis {
        if OpString(op) == "WRITE" {
          ClearCache();
          clock.lastChangeTime := later;
          reloaded := true;
        }
      }
    }

    /**
     * `Clone(fileName)`: a copy of the raw source switched to `fileName` and
     * read afresh, a new container whose namespace is `fileName` itself, the
     * same table and clock. A failed read is fatal.
     */
    method Clone(fileName: string, disk: Disk) returns (r: Result<YmlLoader, Fault>)
      ensures disk(source.configPaths, fileName).None? ==> r == Err(ConfigUnreadable(fileName))
      ensures disk(source.configPaths, fileName).Some? ==>
        && r.Ok? && fresh(r.value) && fresh(r.value.c) && fresh(r.value.source)
        && r.value.c.prefix == fileName && r.value.c.table == c.table && r.value.clock == clock
        && r.value.source.configPaths == source.configPaths && r.value.source.configName == fileName
        && r.value.source.configType == source.configType
        && r.value.source.read == disk(source.configPaths, fileName).value
        && r.value.source.calls == 0
    {
      var container := new Container(fileName, c.table);
      var loaded := disk(source.configPaths, fileName);
      if loaded.None? {
        return Err(ConfigUnreadable(fileName));
      }
      var copy := new RawSource(source.configPaths, fileName, source.configType, loaded.value);
      var y := new YmlLoader(copy, container, clock);
      r := Ok(y);
    }
  }

  /**
   * `CreateYamlFactory(relativePath, fileName, project)`: resolve the base
   * directory, extend it by the relative path as the source does (a "./"
   * path becomes `fileName[1:]`, which panics on an empty name), name the file ("config" by
   * default), read it (fatal on failure) and return a loader whose
   * namespace is the config name and an underscore. `wd` and `args` stand
   * for `os.Getwd` and `os.Args`, `paths` for the package-level `basePath`.
   */
  method CreateYamlFactory(relativePath: string, fileName: string, project: string,
                           wd: Option<string>, args: seq<string>, paths: PathState,
                           table: Table, clock: ChangeClock, disk: Disk)
    returns (r: Result<YmlLoader, Fault>)
    modifies paths
    ensures wd.None? ==> r == Err(NoWorkingDir)
    ensures wd.Some? ==> paths.basePath == ResolvedBase(project, wd.value, args, old(paths.basePath))
    ensures wd.Some? ==>
      var d := ConfigDirAsWritten(ResolvedBase(project, wd.value, args, old(paths.basePath)) + "/", relativePath, fileName);
      d.Err? ==> r == Err(SliceOutOfRange)
    ensures wd.Some? ==>
      var d := ConfigDirAsWritten(ResolvedBase(project, wd.value, args, old(paths.basePath)) + "/", relativePath, fileName);
      var name := ConfigName(fileName);
      d.Ok? ==>
      var dir := d.value;
      && (disk([dir], name).None? ==> r == Err(ConfigUnreadable(name)))
      && (disk([dir], name).Some? ==>
           && r.Ok? && fresh(r.value) && fresh(r.value.c) && fresh(r.value.source)
           && r.value.c.prefix == FactoryPrefix(fileName) && r.value.c.table == table
           && r.value.clock == clock
           && r.value.source.configPaths == [dir] && r.value.source.configName == name
           && r.value.source.configType == "yaml"
           && r.value.source.read == disk([dir], name).value
           && r.value.source.calls == 0)
  {
    var base := BasePath(paths, project, wd, args);
    if base.Err? {
      return Err(base.error);
    }
    var d := ConfigDirAsWritten(base.value, relativePath, fileName);
    if d.Err? {
      return Err(d.error);
    }
    var dir := d.value;
    var name, prefix;
    if |fileName| == 0 {
      name, prefix := "config", "config_";
    } else {
      name, prefix := fileName, fileName + "_";
    }
    var loaded := disk([dir], name);
    if loaded.None? {
      return Err(ConfigUnreadable(name));
    }
    var source := new RawSource([dir], name, "yaml", loaded.value);
    var container := new Container(prefix, table);
    var y := new YmlLoader(source, container, clock);
    r := Ok(y);
  }
}
