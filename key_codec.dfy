/**
 * The key codec of `CacheManager._generate_key`: a cache key is
 * `namespace:identifier`, followed by `:` and a digest of the call
 * parameters when there are any. The parameters are serialised with their
 * keys sorted before they are hashed, so a dictionary's insertion order does
 * not reach the key.
 */
module KeyCodec {
  import opened Lexicographic

  /** A Python `dict` of call parameters: its (key, value) items in insertion order. */
  type Params<V> = seq<(string, V)>

  /** A dictionary never holds one key twice. */
  predicate DistinctKeys<V>(ps: Params<V>) {
    forall i, j :: 0 <= i < j < |ps| ==> ps[i].0 != ps[j].0
  }

  /** The item order `json.dumps(..., sort_keys=True)` writes: keys strictly ascending. */
  predicate SortedByKey<V>(ps: Params<V>) {
    forall i, j :: 0 <= i < j < |ps| ==> Below(ps[i].0, ps[j].0)
  }

  /** Python's `s.startswith(prefix)`. */
  predicate StartsWith(s: string, prefix: string) {
    |prefix| <= |s| && s[..|prefix|] == prefix
  }

  /** Places one item among items sorted by key. */
  function Insert<V(==)>(p: (string, V), ps: Params<V>): (r: Params<V>)
    ensures multiset(r) == multiset(ps) + multiset{p}
  {
    if ps == [] then [p]
    else if Below(p.0, ps[0].0) then [p] + ps
    else
      assert ps == [ps[0]] + ps[1..];
      [ps[0]] + Insert(p, ps[1..])
  }

  /** The canonical item order of a parameter dictionary (a sort by key). */
  function SortByKey<V(==)>(ps: Params<V>): (r: Params<V>)
    ensures multiset(r) == multiset(ps)
  {
    if ps == [] then []
    else
      assert ps == [ps[0]] + ps[1..];
      Insert(ps[0], SortByKey(ps[1..]))
  }

  lemma {:induction false} InsertSorted<V>(p: (string, V), ps: Params<V>)
    requires SortedByKey(ps)
    requires forall q :: q in ps ==> q.0 != p.0
    ensures SortedByKey(Insert(p, ps))
    decreases |ps|
  {
    if ps == [] {
    } else if Below(p.0, ps[0].0) {
      forall j | 0 < j < |ps| ensures Below(p.0, ps[j].0) {
        BelowTransitive(p.0, ps[0].0, ps[j].0);
      }
    } else {
      assert ps[0] in ps;
      BelowTotal(p.0, ps[0].0);
      var rest := ps[1..];
      forall q | q in rest ensures q.0 != p.0 {
        assert q in ps;
      }
      InsertSorted(p, rest);
      var tail := Insert(p, rest);
      forall j | 0 <= j < |tail| ensures Below(ps[0].0, tail[j].0) {
        assert tail[j] in multiset(tail);
        if tail[j] != p {
          assert tail[j] in multiset(rest);
          var k :| 0 <= k < |rest| && rest[k] == tail[j];
          assert ps[k + 1] == tail[j];
        }
      }
    }
  }

  lemma {:induction false} SortByKeySorted<V>(ps: Params<V>)
    requires DistinctKeys(ps)
    ensures SortedByKey(SortByKey(ps))
    decreases |ps|
  {
    if ps != [] {
      var rest := ps[1..];
      assert DistinctKeys(rest) by {
        forall i, j | 0 <= i < j < |rest| ensures rest[i].0 != rest[j].0 {
          assert rest[i] == ps[i + 1] && rest[j] == ps[j + 1];
        }
      }
      SortByKeySorted(rest);
      forall q | q in SortByKey(rest) ensures q.0 != ps[0].0 {
        assert q in multiset(SortByKey(rest));
        var k :| 0 <= k < |rest| && rest[k] == q;
        assert ps[k + 1] == q;
      }
      InsertSorted(ps[0], SortByKey(rest));
    }
  }

  /** Key-sorted item lists with the same items start with the same item. */
  lemma SortedHeadsEqual<V>(a: Params<V>, b: Params<V>)
    requires SortedByKey(a) && SortedByKey(b)
    requires multiset(a) == multiset(b) && a != []
    ensures b != [] && a[0] == b[0]
  {
    assert a[0] in multiset(b);
    assert b[0] in multiset(a);
    var i :| 0 <= i < |a| && a[i] == b[0];
    var j :| 0 <= j < |b| && b[j] == a[0];
    if i > 0 && j > 0 {
      BelowAsymmetric(a[0].0, a[i].0);
    } else if i > 0 {
      BelowIrreflexive(a[0].0);
    } else if j > 0 {
      BelowIrreflexive(b[0].0);
    }
  }

  /** Two key-sorted item lists with the same items are the same list. */
  lemma {:induction false} SortedUnique<V>(a: Params<V>, b: Params<V>)
    requires SortedByKey(a) && SortedByKey(b)
    requires multiset(a) == multiset(b)
    ensures a == b
    decreases |a|
  {
    if a == [] {
      assert |b| == |multiset(b)| == 0;
    } else {
      SortedHeadsEqual(a, b);
      assert a == [a[0]] + a[1..] && b == [b[0]] + b[1..];
      assert multiset(a[1..]) == multiset(a) - multiset{a[0]};
      assert multiset(b[1..]) == multiset(b) - multiset{b[0]};
      SortedUnique(a[1..], b[1..]);
    }
  }

  /**
   * `_generate_key(namespace, identifier, params)`. `digest` stands for
   * `md5(json.dumps(params, sort_keys=True)).hexdigest()`, seen through the
   * canonical item order it is applied to. An empty `params` stands for both
   * `None` and `{}`: Python's `if params:` treats them alike.
   */
  function GenerateKey<V(==)>(namespace: string, identifier: string, params: Params<V>,
                              digest: Params<V> -> string): (key: string)
    ensures StartsWith(key, namespace + ":")
    ensures StartsWith(key, namespace + ":" + identifier)
    ensures |params| == 0 <==> key == namespace + ":" + identifier
  {
    var base := namespace + ":" + identifier;
    if |params| == 0 then base else base + ":" + digest(SortByKey(params))
  }

  /** The same parameters, inserted in any order, give the same key. */
  lemma ParamOrderIrrelevant<V>(namespace: string, identifier: string,
                                    ps: Params<V>, qs: Params<V>, digest: Params<V> -> string)
    requires DistinctKeys(ps) && DistinctKeys(qs)
    requires multiset(ps) == multiset(qs)
    ensures GenerateKey(namespace, identifier, ps, digest) == GenerateKey(namespace, identifier, qs, digest)
  {
    assert |ps| == |multiset(ps)| == |multiset(qs)| == |qs|;
    SortByKeySorted(ps);
    SortByKeySorted(qs);
    SortedUnique(SortByKey(ps), SortByKey(qs));
  }

  /**
   * Without parameters, keys of colon-free namespaces determine their
   * namespace and identifier.
   */
  lemma PlainKeyInjective<V>(ns1: string, id1: string, ns2: string, id2: string,
                                 digest: Params<V> -> string)
    requires ':' !in ns1 && ':' !in ns2
    requires GenerateKey(ns1, id1, [], digest) == GenerateKey(ns2, id2, [], digest)
    ensures ns1 == ns2 && id1 == id2
  {
    var key := ns1 + ":" + id1;
    assert key == ns2 + ":" + id2;
    assert key[|ns1|] == ':' && key[|ns2|] == ':';
    assert |ns1| == |ns2|;
    assert ns1 == key[..|ns1|] == ns2;
    assert id1 == key[|ns1| + 1..] == id2;
  }

  /**
   * A colon inside a namespace or an identifier lets two different pairs
   * share a key: the codec is not injective in general.
   */
  lemma ColonCollision<V>(digest: Params<V> -> string)
    ensures GenerateKey("products", "shufersal:3", [], digest)
         == GenerateKey("products:shufersal", "3", [], digest)
  {
  }

  /** A key of one colon-free namespace never falls under another's prefix. */
  lemma NamespaceIsolation<V>(namespace: string, other: string, identifier: string,
                                  params: Params<V>, digest: Params<V> -> string)
    requires ':' !in namespace && ':' !in other && namespace != other
    ensures !StartsWith(GenerateKey(other, identifier, params, digest), namespace + ":")
  {
    var key := GenerateKey(other, identifier, params, digest);
    assert key[..|other| + 1] == other + ":";
    if |namespace| < |other| {
      assert key[|namespace|] == other[|namespace|] != ':';
    } else if |other| < |namespace| {
      assert key[|other|] == ':' != namespace[|other|];
    } else {
      assert key[..|namespace|] == other != namespace;
    }
  }

  /** Keys of a nested namespace `a:b` fall under the prefix of `a`. */
  lemma NestedNamespaceIncluded<V>(namespace: string, nested: string, identifier: string,
                                       params: Params<V>, digest: Params<V> -> string)
    requires StartsWith(nested, namespace + ":")
    ensures StartsWith(GenerateKey(nested, identifier, params, digest), namespace + ":")
  {
    var key := GenerateKey(nested, identifier, params, digest);
    var prefix := namespace + ":";
    assert key[..|nested|] == nested;
    assert key[..|prefix|] == nested[..|prefix|];
  }
}
