module Wrappers {
  datatype Option<+T> = None | Some(value: T)

  // Either the simulation goes on, or it reaches one of its error exits.
  datatype Result<+T, +E> = Ok(value: T) | Halt(error: E)
  {
    predicate IsFailure() { Halt? }

    function PropagateFailure<U>(): Result<U, E>
      requires Halt?
    {
      Halt(error)
    }

    function Extract(): T
      requires Ok?
    {
      value
    }
  }
}
