/** Option and Result values used throughout the model in place of null and
    thrown exceptions. */
module Wrappers {

  datatype Option<+T> = None | Some(value: T) {
    function GetOr(default: T): T {
      match this
      case Some(v) => v
      case None => default
    }
  }

  /** The outcome of an operation that can throw: `Err` carries the message
      of the exception the source raises. */
  datatype Result<+T> = Ok(value: T) | Err(message: string)

  /** The outcome of an operation without a result value. */
  datatype Outcome = Pass | Fail(message: string)

  /** Lookup in a map the way `Map.get` does in Java: a missing key reads as null. */
  function Lookup<K, V>(m: map<K, Option<V>>, k: K): (r: Option<V>)
    ensures k !in m ==> r == None
    ensures k in m ==> r == m[k]
  {
    if k in m then m[k] else None
  }
}
