/** Result types shared by every component of the model. */
module Wrappers {

  datatype Option<+T> = None | Some(value: T)

  datatype Result<+T, +E> = Success(value: T) | Failure(error: E)

  /** How an effectful call ends.  `Raised` is an exception the caller may catch;
      `Crashed` is the death of the process, which no handler sees: it propagates
      through every caller and leaves behind whatever had become durable. */
  datatype Outcome<+T, +E> = Returned(value: T) | Raised(error: E) | Crashed {
    predicate IsFailure() {
      !Returned?
    }

    function PropagateFailure<U>(): (r: Outcome<U, E>)
      requires IsFailure()
    {
      match this
      case Raised(e) => Raised(e)
      case Crashed => Crashed
    }

    function Extract(): T
      requires !IsFailure()
    {
      value
    }
  }

  /** How one effect ends.  A failure or a crash may fall on either side of the change. */
  datatype Fate = Done | FailedBefore | FailedAfter | CrashedBefore | CrashedAfter {
    predicate Happened() {
      Done? || FailedAfter? || CrashedAfter?
    }

    function Conclude<T, E>(value: T, error: E): Outcome<T, E> {
      match this
      case Done => Returned(value)
      case FailedBefore => Raised(error)
      case FailedAfter => Raised(error)
      case CrashedBefore => Crashed
      case CrashedAfter => Crashed
    }
  }
}
