// Option and Result: the absent values (Java null, a missing dictionary key)
// and the raised exceptions of the modelled programs.
module Wrappers {
  datatype Option<+T> = None | Some(value: T)
  {
    function UnwrapOr(default: T): T
    {
      if Some? then value else default
    }
  }

  datatype Result<+T, +E> = Success(value: T) | Failure(error: E)
  {
    predicate IsFailure() { Failure? }

    function PropagateFailure<U>(): Result<U, E>
      requires Failure?
    {
      Failure(error)
    }

    function Extract(): T
      requires Success?
    {
      value
    }
  }
}
