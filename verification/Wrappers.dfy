/** Result datatypes shared by the whole project. */
module Wrappers {

  datatype Option<+T> = None | Some(value: T)

  /** The exceptions the transaction code tells apart. */
  datatype Exn =
    | OsError
    | FileNotFound
    | ValueError
    | ApplyFailure
    | UncertainEffect

  /** How a call ends: with a value, with an exception, or because the process was killed. */
  datatype Outcome<+T> = Ok(value: T) | Raise(error: Exn) | Crashed {
    predicate IsFailure() {
      !Ok?
    }

    function PropagateFailure<U>(): Outcome<U>
      requires !Ok?
    {
      match this
      case Raise(e) => Raise(e)
      case Crashed => Crashed
    }

    function Extract(): T
      requires Ok?
    {
      value
    }
  }
}
