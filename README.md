# inmem — an LRU cache with per-entry expiry, in Dafny

Package `inmem` is a fixed-capacity, least-recently-used cache. Every entry
carries an expiry instant. `Add` inserts an entry or overwrites one, and moves
it to the front of a recency list. When a new key pushes the list past its
capacity, the entry at the back is evicted, whatever its expiry. `Get` returns
a live entry's value and moves it to the front. It deletes an expired entry
and reports it as not found. `Remove` deletes a key. `Len` counts the entries,
including expired ones that no `Get` has reaped yet. The cache comes in two
flavours: an unsynchronized one and a locked one that forwards every call to
the first under a mutex.

The project has four files:

- `wrappers.dfy`: `Option` and `Result`.
- `cache_spec.dfy` (module `CacheSpec`): the cache state as a value.
  - The recency list is a `seq<Entry>`, most recently used first.
  - The index is the map `View(s)` from each key to its entry.
  - `AfterAdd` and `AfterGet` give the state, and the result, that each operation leaves.
  - `Without` is the list with one key unlinked.
  - The lemmas state what the package promises of these operations.
  - `Run` and `RunWf` extend that to whole sequences of calls.
- `inmem.dfy` (module `Inmem`): the package itself.
  - Class `Cache` has the Go `cache` struct's fields `size`, `lru` and `items` and updates them in place. Its `Valid()` invariant says four things: the capacity is positive, the index is exactly `View(lru)`, keys are unique, and the count is within capacity.
  - `NewUnlocked`, `NewLocked` and `LockedCache` are modelled too.
  - Each method's postcondition ties the new state to the `CacheSpec` functions.
- `scenarios.dfy`: client methods whose assertions are checked statically. Four follow the tests in `inmem_test.go`:
  - `ManyThings`: many operations on one key (inmem_test.go:11-58);
  - `SizeZero`: the size-zero failure of both constructors (inmem_test.go:68-76);
  - `CacheSize`: eviction at capacity (inmem_test.go:78-87);
  - `Expired`: an entry that has already expired (inmem_test.go:89-97).
- `BenchmarkOutcomes` follows the checked lookups of `benchmarkManyThings` in `inmem_benchmark_test.go` (lines 40-94): a miss, a hit, a hit after a replacing `Add`, a miss after replacing with an entry already expired, and a miss after `Remove`.
- Two more scenarios illustrate rules of `inmem.go` that no test exercises:
  - `Promotion`: a live `Get` moves the entry to the front (inmem.go:77), which protects it from the next eviction;
  - `RemoveAbsent`: `Remove` of an absent key changes nothing (inmem.go:88).

Time is an integer count of instants. Go's `expiresAt.After(time.Now())` becomes `now < expiresAt` (`CacheSpec.Live`), where `now` is a parameter of `Get`.

## Model

| member | source | states |
|---|---|---|
| CacheSpec.View | inmem.go:19-23 | the index built from a list holds exactly the list's keys, and each key maps to an entry carrying that key |
| CacheSpec.ViewAt | inmem.go:56-60 | in a list with unique keys, the index maps every element's key to that very element |
| CacheSpec.Without | inmem.go:98-102 | unlinking a key leaves exactly the other keys, never lengthens the list, and is a no-op when the key is absent |
| CacheSpec.WithoutAt | inmem.go:99 | with unique keys, unlinking a key removes its single position and keeps every other entry in its order |
| CacheSpec.WithoutLength | inmem.go:98-102 | unlinking a present key shortens the list by exactly one |
| CacheSpec.WithoutUnique | inmem.go:98-102 | unlinking keeps keys unique |
| CacheSpec.ViewWithout | inmem.go:101 | the index of the unlinked list is the old index with that key deleted |
| CacheSpec.WithoutBack | inmem.go:63-66 | unlinking the key of the back element drops exactly the last element |
| CacheSpec.ConsUnique | inmem.go:56 | pushing an entry at the front keeps keys unique iff its key is not already present |
| CacheSpec.KeysAt | inmem.go:22 | a key is in the list iff some position holds it |
| CacheSpec.AddWf | inmem.go:45-69 | after Add the invariant holds, so the length is at most size; the list is non-empty and the new or updated entry is at the front |
| CacheSpec.AddExisting | inmem.go:46-53 | Add on a present key keeps the length, moves the overwritten entry from its position to the front, and keeps the other entries in order |
| CacheSpec.AddNew | inmem.go:55-68 | Add on a new key pushes it at the front; below capacity nothing is dropped; at capacity exactly the back entry is evicted, whether or not it has expired |
| CacheSpec.AddIndex | inmem.go:45-69 | the index after Add is the old index, minus the evicted key if there is one, with the key mapped to its new entry |
| CacheSpec.GetCases | inmem.go:71-85 | Get of an absent key changes nothing and finds nothing; of a live entry, returns its value, keeps the length and moves it to the front with the others in order; of an expired entry, finds nothing and removes it, shortening the list by one; the invariant holds afterwards |
| CacheSpec.AddThenGet | inmem.go:45-85 | a Get right after Add of the same key finds the added value iff now is before the expiry; live, the list is unchanged; expired, the key is gone and the length drops by one |
| CacheSpec.RemoveWf | inmem.go:87-91 | Remove keeps the invariant, deletes the key from the index, and shortens the list by one when the key was present |
| CacheSpec.RunWf | inmem.go:45-102 | any sequence of Add, Get and Remove calls from a valid state leaves a valid state, so the length never exceeds size |
| Inmem.Cache.constructor | inmem.go:38-42 | a new cache is empty, valid and has the requested capacity |
| Inmem.NewUnlocked | inmem.go:34-43 | fails with "inmem: must provide a positive size" iff size <= 0, else returns a fresh empty valid cache of that size |
| Inmem.Cache.Add | inmem.go:45-69 | updates list and index in place to AfterAdd of the old list and keeps the invariant |
| Inmem.Cache.Get | inmem.go:71-85 | updates list and index in place to AfterGet of the old list and returns its result, keeping the invariant |
| Inmem.Cache.Remove | inmem.go:87-91 | the list becomes the old list with the key unlinked, the index follows, the invariant holds |
| Inmem.Cache.Len | inmem.go:93-95 | returns the list's length, expired entries included, which is at most size, and changes nothing |
| Inmem.Cache.RemoveElement | inmem.go:98-102 | unlinks the entry from the list and deletes its key from the index, keeping the two in agreement |
| Inmem.NewLocked | inmem.go:111-122 | fails with "inmem: must provide a positive size" iff size <= 0, else returns a fresh locked cache around a fresh empty cache of that size |
| Inmem.LockedCache.constructor | inmem.go:115-121 | the wrapped cache is fresh, empty, valid and of the requested size |
| Inmem.LockedCache.Add | inmem.go:124-128 | same state change as Cache.Add on the wrapped cache |
| Inmem.LockedCache.Get | inmem.go:130-135 | same state change and result as Cache.Get on the wrapped cache |
| Inmem.LockedCache.Remove | inmem.go:137-141 | same state change as Cache.Remove on the wrapped cache |
| Inmem.LockedCache.Len | inmem.go:143-148 | same result as Cache.Len on the wrapped cache |

## Left out

- The mutex of `lockedCache` and concurrency in general: the locked methods only forward, so mutual exclusion is not modelled.
- `time.Now()` is not called: `Get` takes the current instant `now` as a parameter, and instants are integers rather than `time.Time`.
- `container/list` internals: the doubly linked list of elements is modelled as a sequence of entries. The index from keys to `*list.Element` is a map from keys to entries, kept equal to `View(lru)`. Pointer identity of list elements is not modelled.
- `*entry` is an immutable value here. The in-place update of `value` and `expiresAt` in `Add` becomes one replacement of the entry in both the list and the index.
- The `interface{}` keys and values and their type assertions: keys are any type with equality and values any type.
- Keys are assumed to have reflexive equality that never panics (the `K(==)` bound). In Go this does not hold for every `interface{}` key:
  - a key whose dynamic type is not comparable (a slice, say) makes the map operations at inmem.go:46, inmem.go:72 and inmem.go:88 panic;
  - a floating-point NaN key is never found by `c.items[key]`, so each `Add` of it pushes a new element and a new map entry, and `delete` at inmem.go:101 later removes nothing. `items` then keeps stale elements and drifts from `lru`, so the invariant `items == View(lru)` does not hold for such keys.
- The constructors' panic is a `Failure` carrying the panic message rather than an abort of the program.
- Inmem.Cache.Get: returns `None` where Go returns `(nil, false)`, and `Some(v)` for `(v, true)`.
- The `ent != nil` test before eviction (inmem.go:65) always passes when the list is over capacity, so the model drops it.
- The exported `Cache` interface (inmem.go:11-16) is not modelled as a type: both classes provide the same four operations with the same contracts.
- From `inmem_benchmark_test.go`, `RandString` (lines 22-38) and the timing loops (lines 96-132) are not modelled. The file also checks lookup outcomes in `benchmarkManyThings` (lines 40-94); those outcomes are what `CacheSpec.AddThenGet` and `CacheSpec.GetCases` state, and the `BenchmarkOutcomes` scenario follows that sequence.
