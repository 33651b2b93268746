/** Small definitions that every part of the model uses. */
module Common {
  datatype Option<+T> = None | Some(value: T)

  function Get<K, V>(m: map<K, V>, k: K): Option<V> { if k in m then Some(m[k]) else None }

  function Min(a: nat, b: nat): nat { if a < b then a else b }

  lemma Assoc<T>(a: seq<T>, b: seq<T>, d: seq<T>)
    ensures a + (b + d) == a + b + d
  {
  }
}
