/**
 * The least-recently-used policy of `CacheManager._evict_lru`: sort the keys
 * by last access time and drop the oldest tenth of them, at least one.
 */
module Eviction {

  /** `max(1, n // 10)`: how many keys one eviction pass removes from `n` tracked keys. */
  function EvictionCount(n: nat): (k: nat)
    ensures 1 <= k
    ensures n >= 1 ==> k <= n
    ensures n >= 10 ==> k * 10 <= n < (k + 1) * 10
    ensures n < 20 ==> k == 1
  {
    if n / 10 >= 1 then n / 10 else 1
  }

  /** No key occurs twice. */
  predicate Distinct(keys: seq<string>) {
    forall i, j :: 0 <= i < j < |keys| ==> keys[i] != keys[j]
  }

  /** The keys, all tracked in `order`, listed by non-decreasing access time. */
  predicate Ascending(order: map<string, int>, keys: seq<string>) {
    (forall i :: 0 <= i < |keys| ==> keys[i] in order) &&
    (forall i, j :: 0 <= i < j < |keys| ==> order[keys[i]] <= order[keys[j]])
  }

  /** `k` is a least recently accessed key of `candidates`. */
  predicate IsOldest(order: map<string, int>, candidates: set<string>, k: string)
    requires candidates <= order.Keys
  {
    k in candidates && forall r :: r in candidates ==> order[k] <= order[r]
  }

  lemma {:induction false} OldestExists(order: map<string, int>, candidates: set<string>)
    requires candidates != {} && candidates <= order.Keys
    ensures exists k :: IsOldest(order, candidates, k)
    decreases candidates
  {
    var x :| x in candidates;
    var rest := candidates - {x};
    if rest == {} {
      assert candidates == {x};
      assert IsOldest(order, candidates, x);
    } else {
      OldestExists(order, rest);
      var k :| IsOldest(order, rest, k);
      if order[x] < order[k] {
        assert IsOldest(order, candidates, x);
      } else {
        assert IsOldest(order, candidates, k);
      }
    }
  }

  /**
   * `sorted(access_order.items(), key=lambda x: x[1])`, keeping the keys:
   * every tracked key once, by ascending access time. Among keys with equal
   * times any order may come out.
   */
  method SortByAccessTime(order: map<string, int>) returns (sorted: seq<string>)
    ensures Distinct(sorted)
    ensures forall k :: k in sorted <==> k in order
    ensures Ascending(order, sorted)
  {
    sorted := [];
    var remaining := order.Keys;
    while remaining != {}
      invariant remaining <= order.Keys
      invariant forall k :: k in sorted <==> k in order && k !in remaining
      invariant Distinct(sorted)
      invariant Ascending(order, sorted)
      invariant forall i, r :: 0 <= i < |sorted| && r in remaining ==> order[sorted[i]] <= order[r]
      decreases remaining
    {
      OldestExists(order, remaining);
      var k :| IsOldest(order, remaining, k);
      sorted := sorted + [k];
      remaining := remaining - {k};
    }
  }

  /**
   * `victims` is what one eviction pass may remove from the access-time map
   * `order`: `EvictionCount(|order|)` tracked keys (none if nothing is
   * tracked), none of them accessed later than any key that stays.
   */
  ghost predicate LruVictims(order: map<string, int>, victims: set<string>) {
    && victims <= order.Keys
    && |victims| == (if |order| == 0 then 0 else EvictionCount(|order|))
    && forall v, r :: v in victims && r in order && r !in victims ==> order[v] <= order[r]
  }

  /** The tracked keys accessed strictly before `k`. */
  ghost function AccessedBefore(order: map<string, int>, k: string): set<string>
    requires k in order
  {
    set r | r in order && order[r] < order[k]
  }

  lemma SubsetCard<X>(a: set<X>, b: set<X>)
    requires a <= b
    ensures |a| <= |b|
  {
    assert b == a + (b - a);
  }

  /**
   * With distinct access times, a key is a victim exactly when fewer keys
   * than the pass removes were accessed before it.
   */
  lemma VictimByRank(order: map<string, int>, victims: set<string>, k: string)
    requires LruVictims(order, victims) && k in order
    requires forall a, b :: a in order && b in order && a != b ==> order[a] != order[b]
    ensures k in victims <==> |AccessedBefore(order, k)| < |victims|
  {
    var before := AccessedBefore(order, k);
    if k in victims {
      assert before <= victims - {k};
      SubsetCard(before, victims - {k});
    } else {
      assert victims <= before;
      SubsetCard(victims, before);
    }
  }

  /** When no two keys share an access time, the victims of a pass are determined. */
  lemma LruVictimsUnique(order: map<string, int>, v1: set<string>, v2: set<string>)
    requires LruVictims(order, v1) && LruVictims(order, v2)
    requires forall a, b :: a in order && b in order && a != b ==> order[a] != order[b]
    ensures v1 == v2
  {
    forall k | k in order ensures k in v1 <==> k in v2 {
      VictimByRank(order, v1, k);
      VictimByRank(order, v2, k);
    }
  }

  /** A pass over a non-empty map removes at least one key and keeps the rest. */
  lemma LruVictimsShrink(order: map<string, int>, victims: set<string>)
    requires LruVictims(order, victims)
    ensures |order - victims| == |order| - |victims|
    ensures |order| >= 1 ==> |order - victims| <= |order| - 1
  {
    assert (order - victims).Keys == order.Keys - victims;
    assert order.Keys * victims == victims;
  }

  /** The set of the first `n` keys of a sequence. */
  ghost function Prefix(keys: seq<string>, n: nat): set<string>
    requires n <= |keys|
  {
    set j | 0 <= j < n :: keys[j]
  }

  lemma PrefixStep(keys: seq<string>, n: nat)
    requires n < |keys|
    ensures Prefix(keys, n + 1) == Prefix(keys, n) + {keys[n]}
  {
  }

  /** The first `n` keys of a sequence without repeats are `n` keys. */
  lemma {:induction false} PrefixCard(keys: seq<string>, n: nat)
    requires Distinct(keys) && n <= |keys|
    ensures |Prefix(keys, n)| == n
  {
    if n > 0 {
      PrefixCard(keys, n - 1);
      PrefixStep(keys, n - 1);
      assert keys[n - 1] !in Prefix(keys, n - 1);
    }
  }

  /** A sort of the tracked keys lists each of them once. */
  lemma SortedCard(order: map<string, int>, sorted: seq<string>)
    requires Distinct(sorted)
    requires forall k :: k in sorted <==> k in order
    ensures |sorted| == |order|
  {
    assert order.Keys == Prefix(sorted, |sorted|);
    PrefixCard(sorted, |sorted|);
  }

  /**
   * The loop of `_evict_lru` over `sorted_items[:items_to_remove]`: the
   * first `EvictionCount` keys of the ascending sort are a valid choice of
   * victims.
   */
  lemma PrefixIsLru(order: map<string, int>, sorted: seq<string>, count: nat)
    requires |order| > 0
    requires Distinct(sorted) && Ascending(order, sorted)
    requires forall k :: k in sorted <==> k in order
    requires count == EvictionCount(|sorted|)
    ensures count <= |sorted|
    ensures LruVictims(order, Prefix(sorted, count))
  {
    SortedCard(order, sorted);
    PrefixCard(sorted, count);
    var victims := Prefix(sorted, count);
    forall v, r | v in victims && r in order && r !in victims
      ensures order[v] <= order[r]
    {
      var a :| 0 <= a < count && sorted[a] == v;
      var b :| 0 <= b < |sorted| && sorted[b] == r;
      assert b >= count;
    }
  }
}
