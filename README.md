# In-memory `CacheManager` of prices-mcp, in Dafny

`cache.py` gives the supermarket price server one process-wide cache, the
`CacheManager` singleton. This project models that cache's in-memory
backend:

- The cache keeps two dictionaries. `cache` maps a key to a `CacheEntry`
  (payload, insertion time, TTL, own key). `access_order` maps a key to
  the time it was last read or written.
- Keys are `namespace:identifier`. When request parameters are given, the
  key also gets `:` plus the MD5 of their key-sorted JSON.
- An entry expires strictly after `timestamp + ttl`. A read of an expired
  entry deletes it.
- A write when the cache is at capacity first evicts `max(1, n // 10)`
  least recently accessed keys.
- `invalidate` deletes one key. With no identifier, it deletes every key
  under `namespace + ":"`.
- The first construction's configuration wins until `reset_instance`.

Modules:

- `Wrappers` (`wrappers.dfy`): `Option`.
- `Lexicographic` (`lexicographic.dfy`): Python's string order, which
  `sort_keys` uses.
- `KeyCodec` (`key_codec.dfy`): `_generate_key`, and sorting the
  parameters by key.
- `Entries` (`entries.dfy`): `CacheEntry`, `is_expired`, and the TTL
  fallback of `set`.
- `Eviction` (`eviction.dfy`): the LRU policy, meaning the sort by access
  time, the count, and which keys may be removed.
- `Cache` (`cache_manager.dfy`): the `CacheManager` class with its two
  dictionaries as fields, and the `Singleton` class holding `_instance`.
  The invariant `Consistent` says three things:
  - both dictionaries hold the same keys;
  - every entry records its own key;
  - the entry count stays within `max(1, max_size)`.
- `Scenarios` (`scenarios.dfy`): the repository's test scripts, as
  callers whose outcomes follow from the contracts.

The clock is passed in. Every operation that reads `time.time()` takes
`now: int`, in whole seconds. `md5(json.dumps(params, sort_keys=True))` is
the class's `digest` function, applied to the key-sorted parameters.

## Model

| member | source | states |
|---|---|---|
| Lexicographic.BelowIrreflexive | cache.py:126 | no string sorts before itself in Python's string order (`sort_keys`) |
| Lexicographic.BelowTransitive | cache.py:126 | that order is transitive |
| Lexicographic.BelowTotal | cache.py:126 | any two distinct strings are ordered one way or the other |
| Lexicographic.BelowAsymmetric | cache.py:126 | two strings are never each below the other |
| KeyCodec.Insert | cache.py:126 | placing one item among sorted items keeps exactly the same items plus that one |
| KeyCodec.SortByKey | cache.py:126 | sorting the parameters by key keeps exactly the same items (a permutation) |
| KeyCodec.InsertSorted | cache.py:126 | inserting an item with a new key into key-sorted items leaves them key-sorted |
| KeyCodec.SortByKeySorted | cache.py:126 | the parameters of a dictionary (distinct keys) come out strictly ascending by key |
| KeyCodec.SortedHeadsEqual | cache.py:126 | two key-sorted arrangements of the same items start with the same item |
| KeyCodec.SortedUnique | cache.py:126 | two key-sorted arrangements of the same items are equal, so `sort_keys` output depends only on the item set |
| KeyCodec.GenerateKey | cache.py:122-128 | the key starts with `namespace:identifier`; it is exactly that when there are no parameters, and longer otherwise |
| KeyCodec.ParamOrderIrrelevant | cache.py:122-128 | the same parameters in any order give the same key |
| KeyCodec.PlainKeyInjective | cache.py:124 | without parameters, colon-free namespaces give equal keys only for equal namespace and identifier |
| KeyCodec.ColonCollision | cache.py:124 | namespace `products` with identifier `shufersal:3` and namespace `products:shufersal` with identifier `3` share one key |
| KeyCodec.NamespaceIsolation | cache.py:308 | a key of one colon-free namespace never starts with another colon-free namespace's `namespace:` prefix |
| KeyCodec.NestedNamespaceIncluded | cache.py:308 | a key of a namespace that starts with `namespace:` falls under that namespace's prefix |
| Entries.ExpiryBoundary | cache.py:36-37 | an entry is live up to and including `timestamp + ttl` and expired one second later; live exactly when `now <= timestamp + ttl`; once expired, it stays expired |
| Entries.EffectiveTtl | cache.py:149 | `ttl or default_ttl`: no TTL or a zero TTL gives the default; any other value, negative included, is kept |
| Eviction.EvictionCount | cache.py:201 | `max(1, n // 10)`: at least one, at most `n` when `n >= 1`, exactly one below 20, and the floor of a tenth from 10 up |
| Eviction.OldestExists | cache.py:200 | every non-empty set of tracked keys has a least recently accessed key |
| Eviction.SortByAccessTime | cache.py:200 | the sort lists every tracked key exactly once, by non-decreasing access time |
| Eviction.VictimByRank | cache.py:199-206 | with distinct access times, a key is evicted exactly when fewer keys than the pass removes were accessed before it |
| Eviction.LruVictimsUnique | cache.py:199-206 | with distinct access times, the set of keys one pass evicts is determined |
| Eviction.LruVictimsShrink | cache.py:199-206 | a pass removes exactly its victims and, over a non-empty map, at least one key |
| Eviction.PrefixCard | cache.py:203 | the first `n` keys of a repeat-free sort are `n` distinct keys |
| Eviction.SortedCard | cache.py:200 | the sorted list is as long as the access-time map |
| Eviction.PrefixIsLru | cache.py:200-206 | the first `max(1, n // 10)` keys of the ascending sort exist, and they are a valid eviction: the right count, and none newer than a kept key |
| Cache.RemoveKeepsConsistent | cache.py:168-170 | deleting the same keys from both dictionaries keeps them consistent |
| Cache.InsertKeepsConsistent | cache.py:190-191 | storing a key in both dictionaries keeps them consistent when there is room |
| Cache.WipeSparesOtherNamespaces | cache.py:304-312 | wiping one colon-free namespace keeps every key of another colon-free namespace, with its entry unchanged |
| Cache.CacheManager.constructor | cache.py:54-91 | `default_ttl` and `max_size` come from the configuration, or 3600 and 1000; both dictionaries start empty and consistent |
| Cache.CacheManager.GetMemory | cache.py:162-175 | three cases. A missing key gives None and changes nothing. An expired entry gives None and its key leaves both dictionaries. A live entry gives its data and only its access time becomes `now`. Consistency is kept |
| Cache.CacheManager.EvictLru | cache.py:194-206 | both dictionaries lose exactly the same key set: `max(1, n // 10)` keys, none accessed later than a key that stays; nothing when no key is tracked |
| Cache.CacheManager.SetMemory | cache.py:177-192 | the result is always True. At capacity, exactly one eviction pass runs first. The key then maps to a fresh entry stamped `now` with access time `now`. The count stays within the capacity, and a write at capacity leaves at most `n - max(1, n // 10) + 1` entries |
| Cache.CacheManager.Get | cache.py:130-136 | reads the key `_generate_key` derives: the entry's data when live, otherwise None with the key gone |
| Cache.CacheManager.Set | cache.py:145-153 | writes under the derived key with `ttl or default_ttl`, with the eviction and new state of `_set_memory` |
| Cache.CacheManager.DeleteKey | cache.py:287-294 | exactly that key leaves both dictionaries; the rest is unchanged |
| Cache.CacheManager.DeleteNamespace | cache.py:304-312 | exactly the keys starting with `namespace:` leave both dictionaries; the rest is unchanged |
| Cache.CacheManager.Invalidate | cache.py:278-285 | a non-empty identifier removes its one derived key; an absent or empty identifier removes exactly the namespace prefix; consistency is kept |
| Cache.CacheManager.GetStats | cache.py:324-337 | reports type `memory`, the default TTL, the entry count and `max_size`; the count never exceeds `max(1, max_size)` |
| Cache.Singleton.constructor | cache.py:46-47 | a fresh process has no instance |
| Cache.Singleton.Construct | cache.py:49-74 | the first construction builds the instance from its configuration. Later constructions return that same instance untouched and ignore their own configuration |
| Cache.Singleton.GetInstance | cache.py:76-79 | the same as constructing with the given configuration |
| Cache.Singleton.ResetInstance | cache.py:81-85 | afterwards no instance exists, so the next construction configures anew |
| Scenarios.SetThenGet | cache.py:145-175 | a value written is read back through the same namespace, identifier and parameters until its TTL has passed |
| Scenarios.NamespaceWipe | cache.py:278-312 | after writing `a:x` and `b:x`, wiping namespace `a` makes `a:x` miss while `b:x` still hits |
| Scenarios.ProductsScenario | test_simple_cache.py:14-50 | the cached products for `shufersal:3` come back, and `shufersal:5` misses |
| Scenarios.TtlScenario | test_simple_cache.py:52-74 | a one-second entry is there at once and gone two seconds later |
| Scenarios.SingletonScenario | test_singleton_cache.py:13-50 | two constructions and `get_instance()` give one object configured by the first (TTL 1000, size 500). After reset, a new object has TTL 5000 and the default size |
| Scenarios.SharedCacheScenario | test_scraper_shared_cache.py:14-54 | three scrapers constructing the manager share it. A value one stores, another reads. Their stats agree, with one entry and TTL 1000 |

## Left out

- The disk (`diskcache`) and SQLite backends: `_init_disk_cache`, `_init_sqlite_cache`, `_get_disk`, `_set_disk`, `_get_sqlite`, `_set_sqlite`, and the disk and SQLite branches of `get`, `set`, `_delete_key`, `_delete_namespace` and `get_stats`. They are file and database I/O. The configuration's `type` entry is taken to be `'memory'`, and `Stats.cacheType` is always `"memory"`.
- An unknown `type`: `__init__` then falls back to the memory backend, but `get` and `set` match no branch and return None. This is not modelled, because only `'memory'` is.
- MD5 and `json.dumps` are not modelled. The `digest` function stands for them; only its input, the key-sorted parameters, is modelled.
- Parameters are a list of distinct-key pairs. `json.dumps` of nested values, and the order of keys inside nested dictionaries, are not modelled.
- Time is whole seconds passed in as `now`, not a float from `time.time()`.
- Cache.CacheManager.SetMemory: the entry's timestamp and its access time are the same `now`. The source reads the clock twice, so the two may differ by the time between the reads.
- Cache.CacheManager.EvictLru: among keys with equal access times, any choice is allowed. Python's stable sort keeps insertion order there. With distinct times, the choice is determined (`Eviction.LruVictimsUnique`).
- Cache.CacheManager.EvictLru: the loop deletes from local copies of the two dictionaries and writes them back once, not one deletion at a time in place. No other code runs in between, so the result is the same.
- `CacheEntry.size` (`len(str(data))`), `to_dict` and the `hit_ratio` entry of the stats are not modelled. They only report and never affect behaviour.
- `async`, logging, and the `try`/`except` blocks are not modelled. The memory branches raise nothing that these handle.
- Cache.Singleton.Construct: `_initialized` is kept on the instance, so "an instance exists" is the same as "it is initialised". The source's second constructor call on an existing instance is a no-op, and that is what is modelled.
- `invalidate(namespace, identifier=None)` and `identifier=""` are both the empty identifier here. Both are falsy in Python and both wipe the namespace.
- `scraper.py`, `server.py` and `test_cache.py` are not part of this model. They only call the cache.
