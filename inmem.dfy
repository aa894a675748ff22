/**
 * The in-memory LRU cache with per-entry expiry (package inmem).
 *
 * `Cache` is the unsynchronized cache: a capacity, a recency list (most
 * recently used first) and an index from each key to its list entry. Its
 * methods update those fields in place and are specified against the
 * functions of `CacheSpec`. `LockedCache` forwards every call to a `Cache`;
 * the mutex around each call is not modelled.
 */
module Inmem {
  import opened Wrappers
  import opened CacheSpec

  /** The panic message of both constructors. */
  const SizeError := "inmem: must provide a positive size"

  class Cache<K(==), V> {
    const size: int
    var lru: seq<Entry<K, V>>
    var items: map<K, Entry<K, V>>

    /** The index and the list agree, keys are unique and the count is within capacity. */
    ghost predicate Valid()
      reads this
    {
      Wf(lru, size) && items == View(lru)
    }

    /** The index and the list agree (the capacity bound may be exceeded by one, during `Add`). */
    ghost predicate Indexed()
      reads this
    {
      UniqueKeys(lru) && items == View(lru)
    }

    /** An empty cache of the given capacity. */
    constructor (size: int)
      requires 0 < size
      ensures Valid() && this.size == size && lru == []
    {
      this.size := size;
      lru := [];
      items := map[];
    }

    /**
     * Inserts or replaces the entry for `key`. An existing entry is overwritten
     * and moved to the front; a new entry is pushed at the front and, when that
     * makes the list longer than `size`, the back entry is evicted.
     */
    method Add(key: K, value: V, expiresAt: int)
      requires Valid()
      modifies this
      ensures Valid()
      ensures lru == AfterAdd(old(lru), size, key, value, expiresAt)
    {
      if key in items {
        // update the existing entry and move it to the front
        var updated := items[key].(value := value, expiresAt := expiresAt);
        RemoveWf(lru, size, key);
        ConsUnique(updated, Without(lru, key));
        lru := [updated] + Without(lru, key);
        items := items[key := updated];
        assert lru[1..] == Without(old(lru), key);
        return;
      }

      // push a new entry at the front
      var e := Entry(key, value, expiresAt);
      ConsUnique(e, lru);
      lru := [e] + lru;
      items := items[key := e];
      assert lru[1..] == old(lru);

      // evict the least recently used entry
      if |lru| > size {
        var back := lru[|lru| - 1];
        WithoutBack(lru);
        ViewAt(lru, |lru| - 1);
        RemoveElement(back);
      }
    }

    /**
     * Looks `key` up at instant `now`. A live entry is moved to the front and
     * its value returned; an expired one is removed and reported as not found.
     */
    method Get(key: K, now: int) returns (r: Option<V>)
      requires Valid()
      modifies this
      ensures Valid()
      ensures (lru, r) == AfterGet(old(lru), key, now)
    {
      if key in items {
        var ent := items[key];
        if Live(ent, now) {
          // found a usable entry
          RemoveWf(lru, size, key);
          WithoutLength(lru, key);
          ConsUnique(ent, Without(lru, key));
          lru := [ent] + Without(lru, key);
          assert lru[1..] == Without(old(lru), key);
          return Some(ent.value);
        }
        // expired
        RemoveWf(lru, size, key);
        RemoveElement(ent);
      }
      return None;
    }

    /** Deletes the entry for `key`, if there is one. */
    method Remove(key: K)
      requires Valid()
      modifies this
      ensures Valid()
      ensures lru == Without(old(lru), key)
    {
      if key in items {
        RemoveWf(lru, size, key);
        RemoveElement(items[key]);
      }
    }

    /** The number of entries, expired ones that were not yet reaped included. */
    method Len() returns (n: int)
      requires Valid()
      ensures n == |lru| && n <= size
    {
      n := |lru|;
    }

    /** Unlinks an entry from the list and deletes its key from the index. */
    method RemoveElement(e: Entry<K, V>)
      requires Indexed() && e.key in items && items[e.key] == e
      modifies this
      ensures Indexed()
      ensures lru == Without(old(lru), e.key)
      ensures items == old(items) - {e.key}
    {
      WithoutUnique(lru, e.key);
      ViewWithout(lru, e.key);
      lru := Without(lru, e.key);
      items := items - {e.key};
    }
  }

  /** Constructs a cache that is not safe for concurrent use; fails unless `size` is positive. */
  method NewUnlocked<K(==), V>(size: int) returns (r: Result<Cache<K, V>, string>)
    ensures r.Failure? <==> size <= 0
    ensures r.Failure? ==> r.error == SizeError
    ensures r.Success? ==> fresh(r.value) && r.value.Valid() && r.value.size == size && r.value.lru == []
  {
    if size <= 0 {
      return Failure(SizeError);
    }
    var c := new Cache(size);
    return Success(c);
  }

  /** A cache whose operations each run under one lock; here they only forward. */
  class LockedCache<K(==), V> {
    const c: Cache<K, V>

    ghost predicate Valid()
      reads this, c
    {
      c.Valid()
    }

    constructor (size: int)
      requires 0 < size
      ensures Valid() && fresh(c) && c.size == size && c.lru == []
    {
      c := new Cache(size);
    }

    method Add(key: K, value: V, expiresAt: int)
      requires Valid()
      modifies c
      ensures Valid()
      ensures c.lru == AfterAdd(old(c.lru), c.size, key, value, expiresAt)
    {
      c.Add(key, value, expiresAt);
    }

    method Get(key: K, now: int) returns (r: Option<V>)
      requires Valid()
      modifies c
      ensures Valid()
      ensures (c.lru, r) == AfterGet(old(c.lru), key, now)
    {
      r := c.Get(key, now);
    }

    method Remove(key: K)
      requires Valid()
      modifies c
      ensures Valid()
      ensures c.lru == Without(old(c.lru), key)
    {
      c.Remove(key);
    }

    method Len() returns (n: int)
      requires Valid()
      ensures n == |c.lru| && n <= c.size
    {
      n := c.Len();
    }
  }

  /** Constructs a cache that is safe for concurrent use; fails unless `size` is positive. */
  method NewLocked<K(==), V>(size: int) returns (r: Result<LockedCache<K, V>, string>)
    ensures r.Failure? <==> size <= 0
    ensures r.Failure? ==> r.error == SizeError
    ensures r.Success? ==> fresh(r.value) && fresh(r.value.c) && r.value.Valid() && r.value.c.size == size && r.value.c.lru == []
  {
    if size <= 0 {
      return Failure(SizeError);
    }
    var l := new LockedCache(size);
    return Success(l);
  }
}
