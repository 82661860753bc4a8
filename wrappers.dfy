/** Option and the outcome of a Java call that may throw, shared by every module. */
module Wrappers {

  /** A value or Java's `null`. */
  datatype Option<+T> = None | Some(value: T)

  /** The unchecked exceptions the modelled Java code throws. */
  datatype JavaException =
    | ClassCastException
    | UnsupportedOperationException
    | IllegalStateException
    | IllegalArgumentException
    | StringIndexOutOfBoundsException
    | NullPointerException

  /** What a Java call does: return a value, or throw. */
  datatype Outcome<+T> = Returned(value: T) | Thrown(exception: JavaException)

  /** Java's Map.get on a map that holds no nulls: the mapped value, or null when absent. */
  function Lookup<K, V>(m: map<K, V>, k: K): (r: Option<V>)
    ensures r.Some? <==> k in m
    ensures r.Some? ==> r.value == m[k]
  {
    if k in m then Some(m[k]) else None
  }
}
