/**
 * `CacheManager` in its in-memory mode: two dictionaries, `cache` (key to
 * entry) and `accessOrder` (key to last access time), a capacity and a
 * default TTL, behind the process-wide singleton. The clock is the `now`
 * argument of each operation.
 */
module Cache {
  import opened Wrappers
  import opened KeyCodec
  import opened Entries
  import opened Eviction

  /** `config.get('default_ttl', 3600)` */
  const DefaultTtlSeconds: int := 3600
  /** `config.get('max_size', 1000)` */
  const DefaultMaxSize: int := 1000

  /**
   * The configuration dictionary; an absent entry is `None`. `config=None`
   * is `Config(None, None)`. The `type` entry is always `'memory'` here.
   */
  datatype Config = Config(defaultTtl: Option<int>, maxSize: Option<int>)

  /** What `get_stats` reports for the memory backend. */
  datatype Stats = Stats(cacheType: string, defaultTtl: int, size: nat, maxSize: int)

  function Max(a: int, b: int): int {
    if a < b then b else a
  }

  /** The keys `_delete_namespace` collects: those starting with `namespace + ":"`. */
  function NamespaceKeys(keys: set<string>, namespace: string): set<string> {
    set k | k in keys && StartsWith(k, namespace + ":")
  }

  /**
   * The invariant the memory backend relies on without stating it: both
   * dictionaries track the same keys, every entry records its own key, and
   * the entry count stays within the capacity (a capacity below one still
   * keeps one entry).
   */
  ghost predicate Consistent<T>(cache: map<string, Entry<T>>, accessOrder: map<string, int>, maxSize: int) {
    && cache.Keys == accessOrder.Keys
    && (forall k :: k in cache ==> cache[k].key == k)
    && |cache| <= Max(1, maxSize)
  }

  /** Deleting the same keys from both dictionaries keeps them consistent. */
  lemma RemoveKeepsConsistent<T>(cache: map<string, Entry<T>>, accessOrder: map<string, int>,
                                 maxSize: int, doomed: set<string>)
    requires Consistent(cache, accessOrder, maxSize)
    ensures Consistent(cache - doomed, accessOrder - doomed, maxSize)
  {
    RemoveCard(cache, doomed);
  }

  /** Storing a key in both dictionaries keeps them consistent when there is room for it. */
  lemma InsertKeepsConsistent<T>(cache: map<string, Entry<T>>, accessOrder: map<string, int>,
                                 maxSize: int, e: Entry<T>, now: int)
    requires cache.Keys == accessOrder.Keys
    requires forall k :: k in cache ==> cache[k].key == k
    requires |cache| + 1 <= Max(1, maxSize)
    ensures Consistent(cache[e.key := e], accessOrder[e.key := now], maxSize)
  {
  }

  /** Deleting keys one at a time is deleting them all. */
  lemma RemoveStep<W>(m: map<string, W>, gone: set<string>, key: string)
    ensures (m - gone) - {key} == m - (gone + {key})
    ensures key !in m - gone ==> m - gone == m - (gone + {key})
  {
  }

  lemma RemoveCard<W>(m: map<string, W>, s: set<string>)
    ensures |m - s| <= |m|
    ensures s <= m.Keys ==> |m - s| == |m| - |s|
  {
    assert (m - s).Keys == m.Keys - s;
    assert |m.Keys - s| == |m.Keys| - |m.Keys * s|;
  }

  /**
   * A namespace wipe spares every entry of another colon-free namespace,
   * and spares it unchanged.
   */
  lemma WipeSparesOtherNamespaces<W, V>(m: map<string, W>, namespace: string, other: string,
                                        identifier: string, params: Params<V>,
                                        digest: Params<V> -> string)
    requires ':' !in namespace && ':' !in other && namespace != other
    ensures var key := GenerateKey(other, identifier, params, digest);
            var after := m - NamespaceKeys(m.Keys, namespace);
            key in m ==> key in after && after[key] == m[key]
  {
    NamespaceIsolation(namespace, other, identifier, params, digest);
  }

  class CacheManager<T, V(==)> {
    const defaultTtl: int
    const maxSize: int
    /** Stands for `md5(json.dumps(params, sort_keys=True)).hexdigest()`. */
    const digest: Params<V> -> string
    var cache: map<string, Entry<T>>
    var accessOrder: map<string, int>

    ghost predicate Valid()
      reads this
    {
      Consistent(cache, accessOrder, maxSize)
    }

    /** `__init__` followed by `_init_memory_cache`. */
    constructor (config: Config, digest: Params<V> -> string)
      ensures Valid()
      ensures defaultTtl == config.defaultTtl.GetOr(DefaultTtlSeconds)
      ensures maxSize == config.maxSize.GetOr(DefaultMaxSize)
      ensures this.digest == digest
      ensures cache == map[] && accessOrder == map[]
    {
      defaultTtl := config.defaultTtl.GetOr(DefaultTtlSeconds);
      maxSize := config.maxSize.GetOr(DefaultMaxSize);
      this.digest := digest;
      cache := map[];
      accessOrder := map[];
    }

    /** `_get_memory`: a live entry is returned and its access time refreshed; a stale one is dropped. */
    method GetMemory(key: string, now: int) returns (r: Option<T>)
      requires Valid()
      modifies this
      ensures Valid()
      ensures key !in old(cache) ==>
                r == None && cache == old(cache) && accessOrder == old(accessOrder)
      ensures key in old(cache) && old(cache)[key].IsExpired(now) ==>
                r == None && cache == old(cache) - {key} && accessOrder == old(accessOrder) - {key}
      ensures key in old(cache) && !old(cache)[key].IsExpired(now) ==>
                r == Some(old(cache)[key].data) && cache == old(cache)
                && accessOrder == old(accessOrder)[key := now]
    {
      if key !in cache {
        return None;
      }
      var entry := cache[key];
      if entry.IsExpired(now) {
        RemoveKeepsConsistent(cache, accessOrder, maxSize, {key});
        cache := cache - {key};
        if key in accessOrder {
          accessOrder := accessOrder - {key};
        }
        return None;
      }
      accessOrder := accessOrder[key := now];
      return Some(entry.data);
    }

    /**
     * `_evict_lru`: removes the `max(1, n // 10)` least recently accessed
     * of the `n` tracked keys from both dictionaries; nothing when no key
     * is tracked.
     */
    method EvictLru() returns (ghost evicted: set<string>)
      modifies this
      ensures LruVictims(old(accessOrder), evicted)
      ensures cache == old(cache) - evicted && accessOrder == old(accessOrder) - evicted
    {
      evicted := {};
      if |accessOrder| == 0 {
        return;
      }
      var sorted := SortByAccessTime(accessOrder);
      ghost var before, entries := accessOrder, cache;
      SortedCard(before, sorted);
      var count := EvictionCount(|sorted|);
      var i := 0;
      var c, a := cache, accessOrder;
      while i < count
        invariant 0 <= i <= count <= |sorted|
        invariant evicted == Prefix(sorted, i)
        invariant c == entries - evicted && a == before - evicted
      {
        var key := sorted[i];
        RemoveStep(entries, evicted, key);
        RemoveStep(before, evicted, key);
        if key in c {
          c := c - {key};
        }
        a := a - {key};
        PrefixStep(sorted, i);
        evicted := evicted + {key};
        i := i + 1;
      }
      cache, accessOrder := c, a;
      PrefixIsLru(before, sorted, count);
    }

    /**
     * `_set_memory`: at capacity, first evicts; then stores a fresh entry
     * stamped `now` and records `now` as its access time.
     */
    method SetMemory(key: string, data: T, ttl: int, now: int) returns (ok: bool, ghost evicted: set<string>)
      requires Valid()
      modifies this
      ensures Valid() && ok
      ensures old(|cache|) < maxSize ==> evicted == {}
      ensures old(|cache|) >= maxSize ==> LruVictims(old(accessOrder), evicted)
      ensures cache == (old(cache) - evicted)[key := Entry(data, now, ttl, key)]
      ensures accessOrder == (old(accessOrder) - evicted)[key := now]
      ensures old(|cache|) >= maxSize && old(|cache|) >= 1 ==>
                |cache| <= old(|cache|) - EvictionCount(old(|cache|)) + 1
    {
      evicted := {};
      if |cache| >= maxSize {
        evicted := EvictLru();
        LruVictimsShrink(old(accessOrder), evicted);
        RemoveKeepsConsistent(old(cache), old(accessOrder), maxSize, evicted);
      }
      InsertKeepsConsistent(cache, accessOrder, maxSize, Entry(data, now, ttl, key), now);
      cache := cache[key := Entry(data, now, ttl, key)];
      accessOrder := accessOrder[key := now];
      ok := true;
    }

    /** `get`: look up the key the codec derives from the call. */
    method Get(namespace: string, identifier: string, params: Params<V>, now: int) returns (r: Option<T>)
      requires Valid()
      modifies this
      ensures Valid()
      ensures var key := GenerateKey(namespace, identifier, params, digest);
              if key in old(cache) && !old(cache)[key].IsExpired(now) then
                r == Some(old(cache)[key].data) && cache == old(cache)
                && accessOrder == old(accessOrder)[key := now]
              else
                r == None && cache == old(cache) - {key} && accessOrder == old(accessOrder) - {key}
    {
      var key := GenerateKey(namespace, identifier, params, digest);
      r := GetMemory(key, now);
    }

    /** `set`: store under the derived key, with `ttl or default_ttl`; always succeeds in memory. */
    method Set(namespace: string, identifier: string, data: T, ttl: Option<int>, params: Params<V>, now: int)
      returns (ok: bool, ghost evicted: set<string>)
      requires Valid()
      modifies this
      ensures Valid() && ok
      ensures old(|cache|) < maxSize ==> evicted == {}
      ensures old(|cache|) >= maxSize ==> LruVictims(old(accessOrder), evicted)
      ensures var key := GenerateKey(namespace, identifier, params, digest);
              && cache == (old(cache) - evicted)[key := Entry(data, now, EffectiveTtl(ttl, defaultTtl), key)]
              && accessOrder == (old(accessOrder) - evicted)[key := now]
    {
      var key := GenerateKey(namespace, identifier, params, digest);
      ok, evicted := SetMemory(key, data, EffectiveTtl(ttl, defaultTtl), now);
    }

    /** `_delete_key`, memory branch. */
    method DeleteKey(key: string)
      requires Valid()
      modifies this
      ensures Valid()
      ensures cache == old(cache) - {key} && accessOrder == old(accessOrder) - {key}
    {
      RemoveKeepsConsistent(cache, accessOrder, maxSize, {key});
      if key in cache {
        cache := cache - {key};
      }
      if key in accessOrder {
        accessOrder := accessOrder - {key};
      }
    }

    /** `_delete_namespace`, memory branch: drop every key starting with `namespace + ":"`. */
    method DeleteNamespace(namespace: string)
      modifies this
      ensures var doomed := NamespaceKeys(old(cache).Keys, namespace);
              cache == old(cache) - doomed && accessOrder == old(accessOrder) - doomed
    {
      var doomed := NamespaceKeys(cache.Keys, namespace);
      ghost var entries, before := cache, accessOrder;
      var rest := doomed;
      ghost var gone := {};
      while rest != {}
        invariant rest <= doomed && gone == doomed - rest
        invariant cache == entries - gone && accessOrder == before - gone
        decreases rest
      {
        var key :| key in rest;
        RemoveStep(entries, gone, key);
        RemoveStep(before, gone, key);
        cache := cache - {key};
        if key in accessOrder {
          accessOrder := accessOrder - {key};
        }
        rest := rest - {key};
        gone := gone + {key};
      }
    }

    /**
     * `invalidate`: a non-empty identifier deletes its one key; a missing or
     * empty one (`""` stands for both) wipes the whole namespace.
     */
    method Invalidate(namespace: string, identifier: string, params: Params<V>)
      requires Valid()
      modifies this
      ensures Valid()
      ensures identifier != "" ==>
                var key := GenerateKey(namespace, identifier, params, digest);
                cache == old(cache) - {key} && accessOrder == old(accessOrder) - {key}
      ensures identifier == "" ==>
                var doomed := NamespaceKeys(old(cache).Keys, namespace);
                cache == old(cache) - doomed && accessOrder == old(accessOrder) - doomed
    {
      if identifier != "" {
        var key := GenerateKey(namespace, identifier, params, digest);
        DeleteKey(key);
      } else {
        RemoveKeepsConsistent(cache, accessOrder, maxSize, NamespaceKeys(cache.Keys, namespace));
        DeleteNamespace(namespace);
      }
    }

    /** `get_stats`, memory branch: the entry count, which never exceeds the capacity (or one). */
    method GetStats() returns (s: Stats)
      requires Valid()
      ensures s == Stats("memory", defaultTtl, |cache|, maxSize)
      ensures s.size <= Max(1, s.maxSize)
      ensures s.maxSize >= 1 ==> s.size <= s.maxSize
    {
      s := Stats("memory", defaultTtl, |cache|, maxSize);
    }
  }

  /**
   * The process-wide state of `CacheManager` as a class: `_instance`. The
   * `_initialized` flag that `__init__` sets lands on the instance, so an
   * instance exists exactly when it has been initialised.
   */
  class Singleton<T, V(==)> {
    var instance: CacheManager?<T, V>
    const digest: Params<V> -> string

    ghost predicate Valid()
      reads this, instance
    {
      instance != null ==> instance.Valid() && instance.digest == digest
    }

    constructor (digest: Params<V> -> string)
      ensures Valid() && instance == null && this.digest == digest
    {
      instance := null;
      this.digest := digest;
    }

    /**
     * `CacheManager(config)`: the first construction builds the instance
     * from `config`; every later one returns that instance untouched and
     * ignores its own `config`.
     */
    method Construct(config: Config) returns (m: CacheManager<T, V>)
      requires Valid()
      modifies this
      ensures Valid() && instance == m
      ensures old(instance) != null ==> m == old(instance) && unchanged(m)
      ensures old(instance) == null ==>
                && fresh(m)
                && m.defaultTtl == config.defaultTtl.GetOr(DefaultTtlSeconds)
                && m.maxSize == config.maxSize.GetOr(DefaultMaxSize)
                && m.cache == map[] && m.accessOrder == map[]
    {
      if instance == null {
        instance := new CacheManager(config, digest);
      }
      m := instance;
    }

    /** `get_instance(config)`: the same as constructing. */
    method GetInstance(config: Config) returns (m: CacheManager<T, V>)
      requires Valid()
      modifies this
      ensures Valid() && instance == m
      ensures old(instance) != null ==> m == old(instance) && unchanged(m)
      ensures old(instance) == null ==>
                && fresh(m)
                && m.defaultTtl == config.defaultTtl.GetOr(DefaultTtlSeconds)
                && m.maxSize == config.maxSize.GetOr(DefaultMaxSize)
                && m.cache == map[] && m.accessOrder == map[]
    {
      m := Construct(config);
    }

    /** `reset_instance`: forget the instance; the next construction configures anew. */
    method ResetInstance()
      modifies this
      ensures Valid() && instance == null
    {
      instance := null;
    }
  }
}
