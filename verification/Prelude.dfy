/** Stock result types shared by the whole model. */
module Prelude {
  datatype Option<+T> = None | Some(value: T)

  function Find<K(==), V>(m: map<K, V>, key: K): Option<V> {
    if key in m then Some(m[key]) else None
  }
}
