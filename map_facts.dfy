/** Facts about maps whose every value carries its own key. */
module MapFacts {

  /** Every value of m carries, under `key`, the key it is stored at. */
  ghost predicate KeyedBy<K, V>(m: map<K, V>, key: V -> K)
  {
    forall k :: k in m ==> key(m[k]) == k
  }

  /** Such a map holds exactly one value per key: as many distinct values as keys. */
  lemma {:induction false} OneValuePerKey<K, V>(m: map<K, V>, key: V -> K)
    requires KeyedBy(m, key)
    ensures |m.Values| == |m.Keys|
  {
    if m != map[] {
      var k :| k in m;
      var rest := m - {k};
      assert KeyedBy(rest, key);
      OneValuePerKey(rest, key);
      forall j | j in rest ensures rest[j] != m[k] {
        assert key(rest[j]) == j != k;
      }
      assert m[k] !in rest.Values;
      assert m.Values == rest.Values + {m[k]} by {
        forall v | v in m.Values ensures v in rest.Values + {m[k]} {
          var j :| j in m && m[j] == v;
          if j != k { assert rest[j] == v; }
        }
      }
      assert m.Keys == rest.Keys + {k};
    }
  }
}
