/** Small shared vocabulary. */
module Prelude {

  datatype Option<+T> = None | Some(value: T)

  function Max0(n: int): nat {
    if n < 0 then 0 else n
  }

  /** dict.get with a default. */
  function Lookup<K, V>(m: map<K, V>, key: K, missing: V): V {
    if key in m then m[key] else missing
  }

  /** str.startswith. */
  predicate StartsWith(s: string, prefix: string) {
    prefix <= s
  }
}
