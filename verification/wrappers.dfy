/** Option and Result types shared by the model. A Go `error` is modelled by its message. */
module Wrappers {

  datatype Option<+T> = None | Some(value: T)

  /** The (value, error) pair a Go function returns: exactly one side is meaningful. */
  datatype Result<+T> = Ok(value: T) | Err(msg: string) {
    predicate IsFailure() { Err? }

    function PropagateFailure<U>(): Result<U>
      requires Err?
    {
      Err(msg)
    }

    function Extract(): T
      requires Ok?
    {
      value
    }
  }
}
