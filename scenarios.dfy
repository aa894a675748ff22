/**
 * Client scenarios: call sequences written against the contracts of `Inmem`
 * alone, with the outcomes the cache promises for them.
 */
module Scenarios {
  import opened Wrappers
  import opened CacheSpec
  import opened Inmem

  /** Empty, add, replace, remove: found values and counts at each step. */
  method ManyThings(now: int)
  {
    var r := NewUnlocked<int, int>(10);
    assert r.Success?;
    var c := r.value;
    var n := c.Len();
    assert n == 0;

    var found := c.Get(1, now);
    assert found == None;

    c.Add(1, 2, now + 3600);
    found := c.Get(1, now);
    assert found == Some(2);
    n := c.Len();
    assert n == 1;

    c.Add(1, 3, now + 3600);
    found := c.Get(1, now);
    assert found == Some(3);
    n := c.Len();
    assert n == 1;

    c.Remove(1);
    found := c.Get(1, now);
    assert found == None;
    n := c.Len();
    assert n == 0;
  }

  /** Both constructors refuse a capacity of zero. */
  method SizeZero()
  {
    var u := NewUnlocked<int, int>(0);
    assert u == Failure(SizeError);
    var l := NewLocked<int, int>(0);
    assert l == Failure(SizeError);
  }

  /** Capacity 2, keys 1, 2, 3 added: key 1 is evicted. */
  method CacheSize(now: int)
  {
    var c := new Cache<int, int>(2);
    c.Add(1, 1, now + 3600);
    c.Add(2, 2, now + 3600);
    c.Add(3, 3, now + 3600);
    var n := c.Len();
    assert n == 2;
    var found := c.Get(1, now);
    assert found == None;
  }

  /** A `Get` in between promotes key 1, so adding key 3 evicts key 2 instead. */
  method Promotion(now: int)
  {
    var c := new Cache<int, int>(2);
    c.Add(1, 1, now + 3600);
    c.Add(2, 2, now + 3600);
    var found := c.Get(1, now);
    assert found == Some(1);
    c.Add(3, 3, now + 3600);
    assert c.lru == [Entry(3, 3, now + 3600), Entry(1, 1, now + 3600)];
    KeysAt(c.lru, 2);
    found := c.Get(2, now);
    assert found == None;
    ViewAt(c.lru, 1);
    found := c.Get(1, now);
    assert found == Some(1);
  }

  /** An entry added already expired is still counted, then reaped by `Get`. */
  method Expired(now: int)
  {
    var c := new Cache<int, int>(2);
    c.Add(1, 1, now - 3600);
    var n := c.Len();
    assert n == 1;
    var found := c.Get(1, now);
    assert found == None;
    n := c.Len();
    assert n == 0;
  }

  /** Removing an absent key changes nothing. */
  method RemoveAbsent(now: int)
  {
    var c := new LockedCache<int, int>(3);
    c.Add(1, 1, now + 3600);
    c.Remove(2);
    var n := c.Len();
    assert n == 1;
  }

  /** Miss, hit, replace, replace with an expired entry, re-add, remove: the outcome of each lookup. */
  method BenchmarkOutcomes(now: int)
  {
    var c := new LockedCache<int, int>(10);
    var found := c.Get(7, now);
    assert found == None;

    c.Add(7, 1, now + 3600);
    found := c.Get(7, now);
    assert found == Some(1);

    c.Add(7, 2, now + 3600);
    found := c.Get(7, now);
    assert found == Some(2);

    c.Add(7, 3, now - 3600);
    found := c.Get(7, now);
    assert found == None;

    c.Add(7, 3, now + 3600);
    c.Remove(7);
    found := c.Get(7, now);
    assert found == None;

    c.Add(7, 3, now + 3600);
    var n := c.Len();
    assert n == 1;
  }
}
