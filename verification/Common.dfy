/** Result types and keyword-argument changes shared by the modules of this project. */
module Common {

  datatype Option<+T> = None | Some(value: T) {
    function Or(default: T): T {
      match this
      case Some(v) => v
      case None => default
    }

    function Else(other: Option<T>): Option<T> {
      if Some? then this else other
    }
  }

  /** Python's exceptions as values. */
  datatype Result<+T, +E> = Ok(value: T) | Err(error: E)

  /** One optional keyword of an update call: left out, or given a new value. */
  datatype Change<+T> = Keep | Set(value: T) {
    function Over(current: T): T {
      match this
      case Set(v) => v
      case Keep => current
    }
  }

  function Max(a: real, b: real): real { if a >= b then a else b }

  function Min(a: real, b: real): real { if a <= b then a else b }

  /** A finite map read with a default, for counters. */
  function Count<K>(m: map<K, nat>, k: K): nat {
    if k in m then m[k] else 0
  }
}
