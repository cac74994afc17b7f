/** Small shared vocabulary: optional values and removal of one key from a map. */
module Basics {

  datatype Option<+T> = None | Some(value: T)

  /** The map without one key; unchanged when the key is absent. */
  function Drop<K, V>(m: map<K, V>, k: K): map<K, V> {
    m - {k}
  }
}
