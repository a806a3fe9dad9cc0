/** Failure-compatible results shared by every model module. */
module Wrappers {

  datatype Option<+T> = None | Some(value: T)

  datatype Result<+T, +E> = Success(value: T) | Failure(error: E) {
    predicate IsFailure() {
      Failure?
    }

    function PropagateFailure<U>(): Result<U, E>
      requires Failure?
    {
      Failure(error)
    }

    function Extract(): T
      requires Success?
    {
      value
    }
  }

  datatype Check<+E> = Pass | Stop(error: E) {
    predicate IsFailure() {
      Stop?
    }

    function PropagateFailure<U>(): Result<U, E>
      requires Stop?
    {
      Failure(error)
    }
  }

  /** The guard clause: fail with `error` unless `condition` holds. */
  function Need<E>(condition: bool, error: E): Check<E> {
    if condition then Pass else Stop(error)
  }

  lemma AnElement<T>(s: set<T>) returns (x: T)
    requires s != {}
    ensures x in s
  {
    x :| x in s;
  }
}
