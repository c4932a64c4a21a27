/**
 * What the container operations promise, stated over the shared table:
 * key qualification, write-once stores, deletes, prefix purges, and how
 * namespaces do or do not interfere with each other.
 */
module CacheLaws {
  import opened Text
  import opened Values
  import opened Cache

  /** Qualifying an already qualified key changes nothing. */
  lemma QualifyIdempotent(prefix: string, key: string)
    ensures Qualify(prefix, Qualify(prefix, key)) == Qualify(prefix, key)
  {
  }

  /** A key not starting with the prefix and the prefixed key name one entry. */
  lemma QualifiedAlias(prefix: string, key: string)
    requires !HasPrefix(key, prefix)
    ensures Qualify(prefix, prefix + key) == Qualify(prefix, key)
  {
    PrefixOfConcat(prefix, key);
  }

  /**
   * A store on an absent key adds exactly that entry; on a present key it
   * leaves the whole table unchanged, the old value included.
   */
  lemma StoreWriteOnce(m: map<string, Value>, prefix: string, key: string, v: Value)
    ensures var q := Qualify(prefix, key);
      var m' := Apply(m, Store(prefix, key, v));
      && (q !in m ==> q in m' && m'[q] == v && m'.Keys == m.Keys + {q}
                      && forall k :: k in m && k != q ==> m'[k] == m[k])
      && (q in m ==> m' == m)
  {
  }

  /** A delete removes exactly the qualified key, and is a no-op when it is absent. */
  lemma RemoveExactly(m: map<string, Value>, prefix: string, key: string)
    ensures var q := Qualify(prefix, key);
      var m' := Apply(m, Remove(prefix, key));
      && m'.Keys == m.Keys - {q}
      && (forall k :: k in m' ==> m'[k] == m[k])
      && (q !in m ==> m' == m)
  {
  }

  /**
   * After a purge no key starts with the prefix, every other key keeps its
   * value, and purging again changes nothing.
   */
  lemma PurgeLaws(m: map<string, Value>, prefix: string)
    ensures var m' := Apply(m, PurgeAll(prefix));
      && (forall k :: k in m' ==> !HasPrefix(k, prefix))
      && (forall k :: k in m && !HasPrefix(k, prefix) ==> k in m' && m'[k] == m[k])
      && m'.Keys <= m.Keys
      && Apply(m', PurgeAll(prefix)) == m'
  {
  }

  /** Applies the mutations left to right. */
  function ApplyAll(m: map<string, Value>, ops: seq<Mutation>): (m': map<string, Value>)
    decreases |ops|
  {
    if ops == [] then m else ApplyAll(Apply(m, ops[0]), ops[1..])
  }

  /** `op` cannot remove the stored key `q`: it is no delete of `q` and no purge of a prefix of `q`. */
  predicate Spares(op: Mutation, q: string)
  {
    match op
    case Store(_, _, _) => true
    case Remove(p, k) => Qualify(p, k) != q
    case PurgeAll(p) => !HasPrefix(q, p)
  }

  /**
   * After a successful `Set(key, v)`, reading `key` through the same
   * namespace yields `v` after any later mutations, from any container,
   * that delete neither that entry nor a namespace containing it: stores
   * never overwrite it.
   */
  lemma {:induction false} StoredValuePersists(m: map<string, Value>, prefix: string, key: string, v: Value, ops: seq<Mutation>)
    requires Qualify(prefix, key) !in m
    requires forall i :: 0 <= i < |ops| ==> Spares(ops[i], Qualify(prefix, key))
    ensures Read(ApplyAll(Apply(m, Store(prefix, key, v)), ops), Qualify(prefix, key)) == v
  {
    KeptThrough(Apply(m, Store(prefix, key, v)), Qualify(prefix, key), v, ops);
  }

  lemma {:induction false} KeptThrough(m: map<string, Value>, q: string, v: Value, ops: seq<Mutation>)
    requires q in m && m[q] == v
    requires forall i :: 0 <= i < |ops| ==> Spares(ops[i], q)
    ensures q in ApplyAll(m, ops) && ApplyAll(m, ops)[q] == v
    decreases |ops|
  {
    if ops != [] {
      assert Spares(ops[0], q);
      var m1 := Apply(m, ops[0]);
      assert q in m1 && m1[q] == v;
      forall i | 0 <= i < |ops[1..]|
        ensures Spares(ops[1..][i], q)
      {
        assert ops[1..][i] == ops[i + 1];
      }
      KeptThrough(m1, q, v, ops[1..]);
    }
  }

  /** Neither namespace prefix extends the other. */
  predicate Disjoint(p1: string, p2: string)
  {
    !HasPrefix(p1, p2) && !HasPrefix(p2, p1)
  }

  /**
   * Namespace isolation: with prefixes neither of which extends the other,
   * the two containers never name the same stored key, and a purge of one
   * spares every key of the other.
   */
  lemma Isolated(p1: string, k1: string, p2: string, k2: string)
    requires Disjoint(p1, p2)
    ensures Qualify(p1, k1) != Qualify(p2, k2)
    ensures !HasPrefix(Qualify(p1, k1), p2)
  {
    var q := Qualify(p1, k1);
    if HasPrefix(q, p2) {
      if |p1| <= |p2| {
        PrefixesComparable(q, p1, p2);
      } else {
        PrefixesComparable(q, p2, p1);
      }
    }
  }

  /** Every mutation made through a disjoint namespace spares this namespace's keys. */
  lemma DisjointSpares(p1: string, k1: string, op: Mutation)
    requires Disjoint(p1, op.prefix)
    ensures Spares(op, Qualify(p1, k1))
  {
    match op
    case Store(_, _, _) =>
    case Remove(p, k) => Isolated(p1, k1, p, k);
    case PurgeAll(p) => Isolated(p1, k1, p, "");
  }

  /**
   * A store through one namespace is invisible through a disjoint one:
   * reading there gives what it gave before.
   */
  lemma StoreInvisibleAcross(m: map<string, Value>, p1: string, k1: string, p2: string, k2: string, v: Value)
    requires Disjoint(p1, p2)
    ensures Read(Apply(m, Store(p2, k2, v)), Qualify(p1, k1)) == Read(m, Qualify(p1, k1))
  {
    Isolated(p1, k1, p2, k2);
  }

  /**
   * The failure mode of prefix matching: a purge by prefix `p` removes the
   * keys of every namespace whose prefix extends `p`.
   */
  lemma PurgeReachesExtendedNamespace(m: map<string, Value>, p: string, ext: string, key: string)
    ensures Qualify(p + ext, key) !in Apply(m, PurgeAll(p))
  {
    PrefixOfConcat(p, ext);
    PrefixTransitive(Qualify(p + ext, key), p + ext, p);
  }
}
