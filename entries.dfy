/** `CacheEntry` and its expiry test, with the TTL fallback of `CacheManager.set`. */
module Entries {
  import opened Wrappers

  /**
   * One cached value: the payload, its insertion time, its time to live and
   * its own key. Times are whole seconds; the reporting-only `size` field is
   * not kept.
   */
  datatype Entry<T> = Entry(data: T, timestamp: int, ttl: int, key: string) {

    /** `is_expired`, with the clock reading passed in: stale strictly after `timestamp + ttl`. */
    predicate IsExpired(now: int) {
      now > timestamp + ttl
    }
  }

  /** An entry is live up to and including `timestamp + ttl`, and stays stale once stale. */
  lemma ExpiryBoundary<T>(e: Entry<T>, now: int, later: int)
    ensures !e.IsExpired(e.timestamp + e.ttl) && e.IsExpired(e.timestamp + e.ttl + 1)
    ensures e.IsExpired(now) && now <= later ==> e.IsExpired(later)
    ensures !e.IsExpired(now) <==> now <= e.timestamp + e.ttl
  {
  }

  /**
   * `ttl or self.default_ttl`: an omitted TTL (`None`) and a zero TTL are
   * both falsy in Python and fall back to the default; any other value,
   * negative ones included, is kept.
   */
  function EffectiveTtl(ttl: Option<int>, defaultTtl: int): (r: int)
    ensures ttl == None || ttl == Some(0) ==> r == defaultTtl
    ensures ttl.Some? && ttl.value != 0 ==> r == ttl.value
    ensures r == defaultTtl || Some(r) == ttl
  {
    match ttl
    case None => defaultTtl
    case Some(t) => if t == 0 then defaultTtl else t
  }
}
