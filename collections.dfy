/** Facts about Dafny's built-in collections that the model uses when it
    picks an element out of a set or a map. */
module Collections {

  /** A non-empty set has a member to pick. */
  lemma NonEmptyHasElement<T>(s: set<T>)
    requires s != {}
    ensures exists x :: x in s
  {
  }

  /** Some member of a non-empty set. */
  ghost function Pick<T>(s: set<T>): (x: T)
    requires s != {}
    ensures x in s
  {
    NonEmptyHasElement(s);
    var x :| x in s; x
  }

  /** A value of a map is stored under some key. */
  lemma ValueHasKey<K, V>(m: map<K, V>, v: V)
    requires v in m.Values
    ensures exists k :: k in m && m[k] == v
  {
  }

  /** Some key under which a map stores `v`. */
  ghost function KeyFor<K, V>(m: map<K, V>, v: V): (k: K)
    requires v in m.Values
    ensures k in m && m[k] == v
  {
    ValueHasKey(m, v);
    var k :| k in m && m[k] == v; k
  }

  /** In a map that files every value under the value's own key, a stored
      value is found under its key. */
  lemma KeyOfValue<V>(m: map<int, V>, key: V -> int, v: V)
    requires forall k :: k in m ==> key(m[k]) == k
    requires v in m.Values
    ensures key(v) in m && m[key(v)] == v
  {
    var k := KeyFor(m, v);
  }

  /** Storing a value under a new key adds exactly that value to the values. */
  lemma ValuesAfterInsert<K, V>(m: map<K, V>, k: K, v: V)
    requires k !in m
    ensures m[k := v].Values == m.Values + {v}
  {
    forall x | x in m[k := v].Values
      ensures x in m.Values + {v}
    {
      var j := KeyFor(m[k := v], x);
      if j != k {
        assert m[j] == x;
      }
    }
    forall x | x in m.Values
      ensures x in m[k := v].Values
    {
      var j := KeyFor(m, x);
      assert m[k := v][j] == x;
    }
    assert m[k := v][k] == v;
  }

  /** A map that files every value under the value's own key has exactly as
      many distinct values as keys: listing the values loses nothing. */
  lemma {:induction false} KeyedValuesCount<V>(m: map<int, V>, key: V -> int)
    requires forall k :: k in m ==> key(m[k]) == k
    ensures |m.Values| == |m|
    decreases |m|
  {
    if m.Keys != {} {
      var k := Pick(m.Keys);
      var rest := m - {k};
      KeyedValuesCount(rest, key);
      assert m.Keys == rest.Keys + {k};
      assert m[k] !in rest.Values;
      assert m.Values == rest.Values + {m[k]};
    }
  }
}
