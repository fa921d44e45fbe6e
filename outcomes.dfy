/** The outcomes a Python call can have in this model: a value, or one of the exceptions the
    modelled code raises, catches or lets escape. */
module Outcomes {

  datatype Option<+T> = None | Some(value: T)

  /** The Python exception classes that matter to the modelled code. GenericError is the
      project's own network.base.exceptions.GenericError; Music21Exception stands for
      music21.exceptions21.Music21Exception and its subclasses. */
  datatype Exc =
    | ValueError
    | TypeError
    | IndexError
    | KeyError
    | AttributeError
    | NameError
    | UnboundLocalError
    | RuntimeError(message: string)
    | ReplSyntaxError(message: string)
    | GenericError
    | Music21Exception

  /** A call either returns a value or raises; `:-` propagates the exception. */
  datatype Result<+T> = Ok(value: T) | Raise(exc: Exc) {
    predicate IsFailure() {
      Raise?
    }

    function PropagateFailure<U>(): Result<U>
      requires Raise?
    {
      Raise(exc)
    }

    function Extract(): T
      requires Ok?
    {
      value
    }
  }
}
