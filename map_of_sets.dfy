/**
 * Maps from a key to a set of values, the shape of both fields the resolver
 * fills: class name to layout ids, and hosting class name to callback methods.
 * A key is only ever created together with its first value, so no set is empty.
 */
module MapOfSets {

  /** No key maps to the empty set. */
  ghost predicate NoEmptySets<K, V>(m: map<K, set<V>>)
  {
    forall k :: k in m ==> m[k] != {}
  }

  /** Every (key, value) pair the map holds. */
  ghost function Pairs<K, V>(m: map<K, set<V>>): set<(K, V)>
  {
    set k, v | k in m && v in m[k] :: (k, v)
  }

  /** The pairs that file each of `vs` under the key `k`. */
  ghost function Tag<K, V>(k: K, vs: set<V>): set<(K, V)>
  {
    set v | v in vs :: (k, v)
  }

  /**
   * Adds `v` to the set under `k`, creating that set if `k` is absent
   * (SetupAndroid.addCallbackMethod, and the same idiom for layout ids).
   */
  function Insert<K, V>(m: map<K, set<V>>, k: K, v: V): (r: map<K, set<V>>)
    ensures r.Keys == m.Keys + {k}
    ensures v in r[k]
    ensures r[k] - {v} <= (if k in m then m[k] else {})
    ensures forall j :: j in m && j != k ==> r[j] == m[j]
    ensures forall j :: j in m ==> m[j] <= r[j]
    ensures NoEmptySets(m) ==> NoEmptySets(r)
  {
    m[k := (if k in m then m[k] else {}) + {v}]
  }

  lemma TagUnion<K, V>(k: K, a: set<V>, b: set<V>)
    ensures Tag(k, a + b) == Tag(k, a) + Tag(k, b)
    ensures Tag<K, V>(k, {}) == {}
  {
  }

  /**
   * The accounting step of every loop that files values under one key: if
   * the map held `p0` plus `a` under `k`, and then gained `b` under `k`, it
   * holds `p0` plus `a + b` under `k`.
   */
  lemma Accumulate<K, V>(p0: set<(K, V)>, mid: set<(K, V)>, now: set<(K, V)>, k: K, a: set<V>, b: set<V>)
    requires mid == p0 + Tag(k, a)
    requires now == mid + Tag(k, b)
    ensures now == p0 + Tag(k, a + b)
  {
    TagUnion(k, a, b);
  }

  /** Some element of a non-empty set, as a hash-set iterator would yield it. */
  method Pick<T>(s: set<T>) returns (x: T)
    requires s != {}
    ensures x in s
  {
    x :| x in s;
  }

  lemma TagSingleton<K, V>(k: K, v: V)
    ensures Tag(k, {v}) == {(k, v)}
  {
    assert (k, v) in Tag(k, {v});
  }

  /** Inserting adds exactly the one pair. */
  lemma PairsOfInsert<K, V>(m: map<K, set<V>>, k: K, v: V)
    ensures Pairs(Insert(m, k, v)) == Pairs(m) + {(k, v)}
  {
    var r := Insert(m, k, v);
    forall p | p in Pairs(r) ensures p in Pairs(m) + {(k, v)} {
      var (a, b) := p;
      assert a in r && b in r[a];
    }
    forall p | p in Pairs(m) + {(k, v)} ensures p in Pairs(r) {
      var (a, b) := p;
      if p != (k, v) {
        assert a in m && b in m[a];
        assert b in r[a];
      } else {
        assert b in r[a];
      }
    }
  }

  /** The keys some pairs file values under. */
  ghost function KeysOf<K, V>(ps: set<(K, V)>): set<K>
  {
    set p | p in ps :: p.0
  }

  /** In a map without empty sets, the keys are exactly those its pairs use. */
  lemma KeysOfPairs<K, V>(m: map<K, set<V>>)
    requires NoEmptySets(m)
    ensures m.Keys == KeysOf(Pairs(m))
  {
    forall k | k in m ensures k in KeysOf(Pairs(m)) {
      var v :| v in m[k];
      assert (k, v) in Pairs(m);
    }
  }

  /** A map without empty sets is determined by its pairs. */
  lemma PairsDetermine<K, V>(m1: map<K, set<V>>, m2: map<K, set<V>>)
    requires NoEmptySets(m1) && NoEmptySets(m2)
    requires Pairs(m1) == Pairs(m2)
    ensures m1 == m2
  {
    forall k | k in m1 ensures k in m2 && m1[k] == m2[k] {
      var v :| v in m1[k];
      assert (k, v) in Pairs(m1);
      forall x ensures x in m1[k] <==> x in m2[k] {
        if x in m1[k] { assert (k, x) in Pairs(m1); }
        if k in m2 && x in m2[k] { assert (k, x) in Pairs(m2); }
      }
    }
    forall k | k in m2 ensures k in m1 {
      var v :| v in m2[k];
      assert (k, v) in Pairs(m2);
    }
  }

  /**
   * Adding again a collection of pairs the map already holds changes
   * nothing: running the resolver twice on the same inputs gives the map it
   * gave the first time.
   */
  lemma AddingAgainChangesNothing<K, V>(m1: map<K, set<V>>, m2: map<K, set<V>>, added: set<(K, V)>)
    requires NoEmptySets(m1) && NoEmptySets(m2)
    requires added <= Pairs(m1)
    requires Pairs(m2) == Pairs(m1) + added
    ensures m2 == m1
  {
    assert Pairs(m2) == Pairs(m1);
    PairsDetermine(m1, m2);
  }
}
