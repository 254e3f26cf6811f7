/** Failure-compatible wrappers shared by every module of the model. */
module Wrappers {

  /** A value that may be absent (JavaScript's `undefined` result of a lookup). */
  datatype Option<T> = None | Some(value: T)

  /** A computed value or the value a JavaScript function throws or rejects with. */
  datatype Result<T, E> = Ok(value: T) | Fail(error: E)

  /** Whether a statement completed normally or threw. */
  datatype Outcome<E> = Pass | Throw(error: E)

  function Max(a: int, b: int): (r: int)
    ensures r >= a && r >= b && (r == a || r == b)
  {
    if a >= b then a else b
  }

  function Min(a: int, b: int): (r: int)
    ensures r <= a && r <= b && (r == a || r == b)
  {
    if a <= b then a else b
  }
}
