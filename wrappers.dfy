/** Option, Result and a pass/fail check, usable with `:-` in functions and methods. */
module Wrappers {

  datatype Option<+T> = None | Some(value: T) {
    /** The wrapped value, or `default` when there is none (Python's `dict.get(k, default)`). */
    function GetOr(default: T): T {
      match this
      case Some(v) => v
      case None => default
    }
  }

  datatype Result<+T, +E> = Success(value: T) | Failure(error: E) {
    predicate IsFailure() { Failure? }

    function PropagateFailure<U>(): Result<U, E>
      requires Failure?
    {
      Failure(error)
    }

    function Extract(): T
      requires Success?
    {
      value
    }

    function MapFailure<E2>(f: E -> E2): Result<T, E2> {
      match this
      case Success(v) => Success(v)
      case Failure(e) => Failure(f(e))
    }
  }

  /** The outcome of one validation step: it passes or fails with an error. */
  datatype Check<+E> = Pass | Fail(error: E) {
    predicate IsFailure() { Fail? }

    function PropagateFailure<U>(): Result<U, E>
      requires Fail?
    {
      Failure(error)
    }
  }

  function Need<E>(condition: bool, error: E): Check<E> {
    if condition then Pass else Fail(error)
  }

  /** Turns a missing value into the given error. */
  function OrFail<T, E>(o: Option<T>, error: E): Result<T, E> {
    match o
    case Some(v) => Success(v)
    case None => Failure(error)
  }
}
