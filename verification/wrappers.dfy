/** Optional values and operation results shared by every module of the model. */
module Wrappers {

  /** A value that may be absent; stands for a Java reference that may be null. */
  datatype Option<+T> = None | Some(value: T)

  /** The outcome of an operation that may throw; `Err` carries the exception message. */
  datatype Result<+T> = Ok(value: T) | Err(message: string)

  /** `a` when it is set, `b` otherwise: the first-wins choice between two optional values. */
  function OrElse<T>(a: Option<T>, b: Option<T>): (r: Option<T>)
    ensures a.Some? ==> r == a
    ensures a.None? ==> r == b
  {
    if a.Some? then a else b
  }
}
