/** Sizes of maps. */
module Maps {

  lemma OneMore<K, V>(before: map<K, V>, key: K, value: V)
    requires key !in before
    ensures |before[key := value]| == |before| + 1
  {
    var after := before[key := value];
    assert after.Keys == before.Keys + {key};
    assert |after.Keys| == |after| && |before.Keys| == |before|;
  }

  lemma OneLess<K, V>(before: map<K, V>, key: K)
    requires key in before
    ensures |before - {key}| == |before| - 1
  {
    var after := before - {key};
    assert after.Keys == before.Keys - {key};
    assert |after.Keys| == |after| && |before.Keys| == |before|;
  }
}
