/** The two-case type used wherever the TypeScript sources write `T | undefined`. */
module Prelude {

  datatype Option<+T> = None | Some(value: T) {

    /** The source's `??` operator. */
    function GetOr(default: T): T {
      match this
      case Some(v) => v
      case None => default
    }
  }

  /** `map.get(key)` for a counter map in which an absent key reads as "never bumped". */
  function Count<K>(m: map<K, nat>, key: K): nat {
    if key in m then m[key] else 0
  }
}
