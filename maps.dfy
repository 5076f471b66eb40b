/** Facts about Python dict updates used by both controllers. */
module Maps {
  /** Updating one key after overlaying equals overlaying the updated map. */
  lemma UnionUpdate<K, V>(base: map<K, V>, m: map<K, V>, k: K, v: V)
    ensures base + m[k := v] == (base + m)[k := v]
  {
  }
}
