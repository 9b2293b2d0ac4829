/**
 * Callers of the cache, as the repository's test scripts drive it: what
 * each of them can rely on follows from the contracts of `Cache` alone.
 */
module Scenarios {
  import opened Wrappers
  import opened KeyCodec
  import opened Entries
  import opened Cache

  /** A value stored under a key reads back until its TTL runs out. */
  method SetThenGet<T, V(==)>(m: CacheManager<T, V>, namespace: string, identifier: string, data: T,
                              ttl: Option<int>, params: Params<V>, now: int, later: int)
    returns (r: Option<T>)
    requires m.Valid()
    requires later <= now + EffectiveTtl(ttl, m.defaultTtl)
    modifies m
    ensures m.Valid() && r == Some(data)
  {
    var ok;
    ghost var evicted;
    ok, evicted := m.Set(namespace, identifier, data, ttl, params, now);
    r := m.Get(namespace, identifier, params, later);
  }

  /**
   * Wiping namespace `a` removes `a:x` and keeps `b:x`, whatever else the
   * cache holds.
   */
  method NamespaceWipe<T, V(==)>(m: CacheManager<T, V>, v1: T, v2: T, now: int)
    returns (fromA: Option<T>, fromB: Option<T>)
    requires m.Valid()
    modifies m
    ensures m.Valid() && fromA == None && fromB == Some(v2)
  {
    var ok;
    ghost var evicted;
    ok, evicted := m.Set("a", "x", v1, Some(60), [], now);
    ok, evicted := m.Set("b", "x", v2, Some(60), [], now);
    ghost var keyA, keyB := GenerateKey<V>("a", "x", [], m.digest), GenerateKey<V>("b", "x", [], m.digest);
    ghost var before := m.cache;
    assert keyB in before && before[keyB] == Entry(v2, now, 60, keyB);
    WipeSparesOtherNamespaces(before, "a", "b", "x", [], m.digest);
    m.Invalidate("a", "", []);
    assert m.cache[keyB] == Entry(v2, now, 60, keyB);
    assert keyA in NamespaceKeys(before.Keys, "a") || keyA !in before;
    fromA := m.Get("a", "x", [], now);
    fromB := m.Get("b", "x", [], now);
  }

  /** The products check: two products cached for branch 3 come back; branch 5 misses. */
  method ProductsScenario<T, V(==)>(products: T, digest: Params<V> -> string, now: int)
    returns (hit: Option<T>, miss: Option<T>)
    ensures hit == Some(products) && miss == None
  {
    var cache := new CacheManager<T, V>(Config(Some(7200), Some(1000)), digest);
    var ok;
    ghost var evicted;
    ok, evicted := cache.Set("products", "shufersal:3", products, Some(3600), [], now);
    assert GenerateKey<V>("products", "shufersal:3", [], digest) == "products:shufersal:3";
    assert cache.cache == map["products:shufersal:3" := Entry(products, now, 3600, "products:shufersal:3")];
    hit := cache.Get("products", "shufersal:3", [], now);
    assert GenerateKey<V>("products", "shufersal:5", [], digest) == "products:shufersal:5";
    assert "products:shufersal:5"[19] == '5';
    miss := cache.Get("products", "shufersal:5", [], now);
  }

  /** The TTL check: a one-second entry is there at once and gone two seconds on. */
  method TtlScenario<T, V(==)>(shortLived: T, digest: Params<V> -> string, now: int)
    returns (immediate: Option<T>, expired: Option<T>)
    ensures immediate == Some(shortLived) && expired == None
  {
    var cache := new CacheManager<T, V>(Config(Some(7200), Some(1000)), digest);
    var ok;
    ghost var evicted;
    ok, evicted := cache.Set("test", "ttl_test", shortLived, Some(1), [], now);
    assert GenerateKey<V>("test", "ttl_test", [], digest) == "test:ttl_test";
    immediate := cache.Get("test", "ttl_test", [], now);
    assert cache.cache["test:ttl_test"] == Entry(shortLived, now, 1, "test:ttl_test");
    expired := cache.Get("test", "ttl_test", [], now + 2);
  }

  /**
   * The singleton checks: two constructions with different configurations
   * and `get_instance()` yield one object configured by the first; after
   * `reset_instance` the next construction takes its own configuration.
   */
  method SingletonScenario<T, V(==)>(digest: Params<V> -> string)
    returns (first: CacheManager<T, V>, second: CacheManager<T, V>, third: CacheManager<T, V>,
             afterReset: CacheManager<T, V>)
    ensures first == second && second == third
    ensures first.defaultTtl == 1000 && first.maxSize == 500
    ensures afterReset != first && afterReset.defaultTtl == 5000 && afterReset.maxSize == 1000
  {
    var process := new Singleton<T, V>(digest);
    first := process.Construct(Config(Some(1000), Some(500)));
    second := process.Construct(Config(Some(2000), Some(1000)));
    third := process.GetInstance(Config(None, None));
    process.ResetInstance();
    afterReset := process.Construct(Config(Some(5000), None));
  }

  /**
   * Scrapers share one cache: after a reset, three scrapers each construct
   * the manager with their own configuration, get the same object, and
   * read what another stored.
   */
  method SharedCacheScenario<T, V(==)>(data: T, digest: Params<V> -> string, now: int)
    returns (retrieved: Option<T>, stats1: Stats, stats2: Stats)
    ensures retrieved == Some(data)
    ensures stats1 == stats2 && stats1.size == 1 && stats1.defaultTtl == 1000
  {
    var process := new Singleton<T, V>(digest);
    process.ResetInstance();
    var scraperConfig := Config(Some(1000), None);
    var cache1 := process.Construct(scraperConfig);
    var cache2 := process.Construct(scraperConfig);
    var cache3 := process.Construct(scraperConfig);
    var ok;
    ghost var evicted;
    ok, evicted := cache1.Set("test", "shared_data", data, None, [], now);
    retrieved := cache2.Get("test", "shared_data", [], now);
    stats1 := cache1.GetStats();
    stats2 := cache2.GetStats();
  }
}
