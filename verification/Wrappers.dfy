/** What every module shares: the Option type, and the size of a map. */
module Wrappers {
  datatype Option<+T> = None | Some(value: T)

  function KeySet<K, V>(m: map<K, V>): set<K> { set k | k in m }

  // The number of entries of a map.
  function Size<K, V>(m: map<K, V>): nat { |KeySet(m)| }

  lemma SizeIsLength<K, V>(m: map<K, V>)
    ensures Size(m) == |m|
  {
    assert KeySet(m) == m.Keys;
  }

  lemma UnionEmpty<T>(s: set<T>)
    ensures s + {} == s
  {
  }
}
