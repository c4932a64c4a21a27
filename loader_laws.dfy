/**
 * What the read-through getters promise over many calls: cache
 * transparency on a miss, stability on hits whatever the raw source does,
 * a fresh read after a purge, and how clone namespaces interact with
 * factory namespaces.
 */
module LoaderLaws {
  import opened Wrappers
  import opened Text
  import opened Values
  import opened Cache
  import opened CacheLaws
  import opened Paths
  import opened Loader

  /**
   * A miss returns the raw value and caches it under the qualified key; a
   * hit returns the cached entry through the type assertion and leaves
   * both the table and the raw source alone.
   */
  lemma ReadThroughCases(m: map<string, Value>, prefix: string, read: Lookup, kind: Kind, key: string)
    ensures var q := Qualify(prefix, key);
      var f := ReadThrough(m, prefix, read, kind, key);
      && (q !in m ==> f.result == Ok(read(kind, key)) && f.queried
                      && f.entries == Apply(m, Store(prefix, key, read(kind, key))))
      && (q in m ==> !f.queried && f.entries == m
                     && (f.result.Ok? <==> HasKind(m[q], kind))
                     && (f.result.Ok? ==> f.result.value == m[q]))
  {
  }

  /** The untyped `Get` never fails, whatever is cached. */
  lemma UntypedGetNeverFails(m: map<string, Value>, prefix: string, read: Lookup, key: string)
    ensures ReadThrough(m, prefix, read, AnyKind, key).result.Ok?
  {
  }

  /**
   * All getters share one cache key per name: after an untyped `Get` caches
   * the raw value, a typed getter on the same key fails unless that value
   * has the asserted type (nil for a missing key never has).
   */
  lemma UntypedThenTyped(m: map<string, Value>, prefix: string, read: Lookup, kind: Kind, key: string)
    requires Qualify(prefix, key) !in m
    ensures var f := ReadThrough(m, prefix, read, AnyKind, key);
      var g := ReadThrough(f.entries, prefix, read, kind, key);
      && g.result == Checked(kind, read(AnyKind, key))
      && (read(AnyKind, key) == Nil && kind != AnyKind ==> g.result.Err?)
  {
  }

  /** Successive gets of one key and kind while the raw source answers with the lookups `sources` in turn. */
  function Gets(m: map<string, Value>, prefix: string, sources: seq<Lookup>, kind: Kind, key: string): (fs: seq<Fetched>)
    decreases |sources|
  {
    if sources == [] then []
    else
      var f := ReadThrough(m, prefix, sources[0], kind, key);
      [f] + Gets(f.entries, prefix, sources[1..], kind, key)
  }

  /** Once the key is cached, every get is the same hit and nothing changes. */
  lemma {:induction false} HitsRepeat(m: map<string, Value>, prefix: string, sources: seq<Lookup>, kind: Kind, key: string)
    requires Qualify(prefix, key) in m
    ensures |Gets(m, prefix, sources, kind, key)| == |sources|
    ensures forall i :: 0 <= i < |sources| ==>
      Gets(m, prefix, sources, kind, key)[i] == Fetched(Checked(kind, m[Qualify(prefix, key)]), m, false)
    decreases |sources|
  {
    if sources != [] {
      HitsRepeat(m, prefix, sources[1..], kind, key);
      var g := Gets(m, prefix, sources, kind, key);
      assert g == [ReadThrough(m, prefix, sources[0], kind, key)] + Gets(m, prefix, sources[1..], kind, key);
      forall i | 0 <= i < |sources|
        ensures g[i] == Fetched(Checked(kind, m[Qualify(prefix, key)]), m, false)
      {
        if i > 0 {
          assert g[i] == Gets(m, prefix, sources[1..], kind, key)[i - 1];
        }
      }
    }
  }

  /**
   * Cache transparency: repeated gets of a key return what the first one
   * returned even when the raw source changes in between, and only the
   * first may query it.
   */
  lemma RepeatedGetsStable(m: map<string, Value>, prefix: string, sources: seq<Lookup>, kind: Kind, key: string)
    requires |sources| > 0
    requires ReadThrough(m, prefix, sources[0], kind, key).result.Ok?
    ensures |Gets(m, prefix, sources, kind, key)| == |sources|
    ensures forall i :: 0 <= i < |sources| ==>
      Gets(m, prefix, sources, kind, key)[i].result == Gets(m, prefix, sources, kind, key)[0].result
    ensures forall i :: 1 <= i < |sources| ==> !Gets(m, prefix, sources, kind, key)[i].queried
  {
    var f := ReadThrough(m, prefix, sources[0], kind, key);
    var q := Qualify(prefix, key);
    assert q in f.entries && HasKind(f.entries[q], kind) && f.result == Ok(f.entries[q]);
    HitsRepeat(f.entries, prefix, sources[1..], kind, key);
    var g := Gets(m, prefix, sources, kind, key);
    assert g == [f] + Gets(f.entries, prefix, sources[1..], kind, key);
    forall i | 1 <= i < |sources|
      ensures g[i].result == g[0].result && !g[i].queried
    {
      assert g[i] == Gets(f.entries, prefix, sources[1..], kind, key)[i - 1];
    }
  }

  /**
   * After a purge of this namespace, the next get sources the raw source,
   * whatever it now holds, and caches that value.
   */
  lemma ReloadRefreshes(m: map<string, Value>, prefix: string, read: Lookup, kind: Kind, key: string)
    ensures var f := ReadThrough(Apply(m, PurgeAll(prefix)), prefix, read, kind, key);
      && f.queried && f.result == Ok(read(kind, key))
      && Read(f.entries, Qualify(prefix, key)) == read(kind, key)
  {
    PurgeLaws(m, prefix);
  }

  /**
   * A clone's namespace is its bare file name, so reloading a clone of `f`
   * purges the cache of a factory loader whose config name extends `f`:
   * the factory loader for `f` itself, one for any longer file name, and
   * the default-name factory ("config_") for a clone of "config".
   */
  lemma CloneReloadPurgesFactory(m: map<string, Value>, f: string, g: string, key: string)
    requires HasPrefix(ConfigName(g), f)
    ensures Qualify(FactoryPrefix(g), key) !in Apply(m, PurgeAll(f))
  {
    var name := ConfigName(g);
    var ext := name[|f|..] + "_";
    assert FactoryPrefix(g) == f + ext by {
      assert name == f + name[|f|..];
    }
    PurgeReachesExtendedNamespace(m, f, ext, key);
  }

  /** The default-name factory is purged by reloading a clone named "config". */
  lemma DefaultFactoryPurgedByConfigClone(m: map<string, Value>, key: string)
    ensures Qualify(FactoryPrefix(""), key) !in Apply(m, PurgeAll("config"))
  {
    PrefixOfConcat("config", "");
    CloneReloadPurgesFactory(m, "config", "", key);
  }

  /**
   * A clone and its original with disjoint namespaces stay independent: a
   * value cached by either get is invisible to, and never purged by, the other.
   */
  lemma CloneIndependent(m: map<string, Value>, original: string, clone: string, kind: Kind, key: string, read: Lookup, other: string)
    requires Disjoint(original, clone)
    ensures Read(ReadThrough(m, clone, read, kind, key).entries, Qualify(original, other)) == Read(m, Qualify(original, other))
    ensures Read(Apply(m, PurgeAll(clone)), Qualify(original, other)) == Read(m, Qualify(original, other))
  {
    Isolated(original, other, clone, key);
  }
}
