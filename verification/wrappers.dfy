/** Optional values, and the result of a step of a process that can be stopped at any time. */
module Wrappers {

  /** Used where the source stores `None`, `null` or `undefined`. */
  datatype Option<+T> = None | Some(value: T)

  /**
   A step either gets done or the process stops in the middle of it. `:-` passes a stop
   on to the caller, so that a method can be stopped wherever it touches the outside.
   */
  datatype Step<+T> = Done(value: T) | Crashed {
    predicate IsFailure() { Crashed? }

    function PropagateFailure<U>(): Step<U>
      requires Crashed?
    {
      Crashed
    }

    function Extract(): T
      requires Done?
    {
      value
    }
  }

  /** The value of a computation, or an exception; `:-` passes an exception on to the caller. */
  datatype Try<+T> = Ok(value: T) | Throws {
    predicate IsFailure() { Throws? }

    function PropagateFailure<U>(): Try<U>
      requires Throws?
    {
      Throws
    }

    function Extract(): T
      requires Ok?
    {
      value
    }
  }
}
