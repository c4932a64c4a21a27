/**
 * The namespaced cache container of container.go: one process-wide table
 * (`sMap`) shared by every container, each container holding only its
 * namespace prefix.
 */
module Cache {
  import opened Text
  import opened Values

  /**
   * The key under which a container with namespace `prefix` stores `key`:
   * the key itself when it already starts with the prefix, the prefix
   * prepended otherwise.
   */
  function Qualify(prefix: string, key: string): (q: string)
    ensures HasPrefix(q, prefix)
    ensures HasPrefix(key, prefix) ==> q == key
    ensures !HasPrefix(key, prefix) ==> q == prefix + key
  {
    if HasPrefix(key, prefix) then key
    else
      PrefixOfConcat(prefix, key);
      prefix + key
  }

  /** The table with every key that starts with `prefix` removed. */
  function Purge(m: map<string, Value>, prefix: string): (m': map<string, Value>)
  {
    map k | k in m && !HasPrefix(k, prefix) :: m[k]
  }

  /** The value a lookup of the stored key `q` reads: the entry, or nil. */
  function Read(m: map<string, Value>, q: string): (v: Value)
  {
    if q in m then m[q] else Nil
  }

  /** A change one container makes to the shared table. */
  datatype Mutation =
    | Store(prefix: string, key: string, value: Value)   // Set
    | Remove(prefix: string, key: string)                // Delete
    | PurgeAll(prefix: string)                           // FuzzyDelete

  /** The table after `op`: a store never overwrites, a purge drops the namespace. */
  function Apply(m: map<string, Value>, op: Mutation): (m': map<string, Value>)
  {
    match op
    case Store(p, k, v) =>
      var q := Qualify(p, k);
      if q in m then m else m[q := v]
    case Remove(p, k) => m - {Qualify(p, k)}
    case PurgeAll(p) => Purge(m, p)
  }

  /** The process-wide table `sMap`. */
  class Table {
    var entries: map<string, Value>

    constructor ()
      ensures entries == map[]
    {
      entries := map[];
    }
  }

  /** A `containers` value: a namespace over the shared table. */
  class Container {
    const prefix: string
    const table: Table

    /** `CreateContainer(prefix)`; every container is handed the one shared table. */
    constructor (prefix: string, table: Table)
      ensures this.prefix == prefix && this.table == table
    {
      this.prefix := prefix;
      this.table := table;
    }

    /** Reports whether the qualified key is stored, and its value (nil when it is not). */
    method KeyIsExists(key: string) returns (value: Value, found: bool)
      ensures found <==> Qualify(prefix, key) in table.entries
      ensures found ==> value == table.entries[Qualify(prefix, key)]
      ensures !found ==> value == Nil
    {
      var k := key;
      if !HasPrefix(k, prefix) {
        k := prefix + k;
      }
      found := k in table.entries;
      value := if found then table.entries[k] else Nil;
    }

    /** Stores `value` only when the qualified key is absent; reports whether it stored. */
    method Set(key: string, value: Value) returns (res: bool)
      modifies table
      ensures res <==> Qualify(prefix, key) !in old(table.entries)
      ensures table.entries == Apply(old(table.entries), Store(prefix, key, value))
    {
      var k := key;
      if !HasPrefix(k, prefix) {
        k := prefix + k;
      }
      var _, found := KeyIsExists(k);
      if !found {
        table.entries := table.entries[k := value];
        res := true;
      } else {
        res := false;
      }
    }

    /** Removes the qualified key, if present. */
    method Delete(key: string)
      modifies table
      ensures table.entries == Apply(old(table.entries), Remove(prefix, key))
    {
      var k := key;
      if !HasPrefix(k, prefix) {
        k := prefix + k;
      }
      table.entries := table.entries - {k};
    }

    /** The value stored under the qualified key, or nil when there is none. */
    method Get(key: string) returns (value: Value)
      ensures Qualify(prefix, key) in table.entries ==> value == table.entries[Qualify(prefix, key)]
      ensures Qualify(prefix, key) !in table.entries ==> value == Nil
    {
      var k := key;
      if !HasPrefix(k, prefix) {
        k := prefix + k;
      }
      var v, found := KeyIsExists(k);
      if found {
        return v;
      }
      return Nil;
    }

    /**
     * Walks every key of the shared table and deletes those that start with
     * this container's prefix, whichever container stored them.
     */
    method FuzzyDelete()
      modifies table
      ensures table.entries == Apply(old(table.entries), PurgeAll(prefix))
    {
      ghost var before := table.entries;
      var pending := table.entries.Keys;
      while pending != {}
        invariant pending <= before.Keys
        invariant forall k :: k in table.entries <==> k in before && (k in pending || !HasPrefix(k, prefix))
        invariant forall k :: k in table.entries ==> table.entries[k] == before[k]
        decreases pending
      {
        var k :| k in pending;
        if HasPrefix(k, prefix) {
          table.entries := table.entries - {k};
        }
        pending := pending - {k};
      }
      assert table.entries.Keys == Purge(before, prefix).Keys;
    }
  }
}
