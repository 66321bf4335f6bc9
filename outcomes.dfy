/** Success and failure values. The Python code signals failure by raising an
    exception; the model returns the kind of exception instead. */
module Outcomes {

  /** The exception classes the core raises (messages are not modelled). */
  datatype Error = TypeError | ValueError | IndexError | KeyError | AttributeError

  datatype Result<+T> = Ok(value: T) | Err(error: Error) {
    predicate IsFailure() { Err? }

    function PropagateFailure<U>(): Result<U>
      requires Err?
    {
      Err(error)
    }

    function Extract(): T
      requires Ok?
    {
      value
    }
  }

  datatype Option<+T> = None | Some(value: T)
}
