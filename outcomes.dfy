/** The ways a call in the modelled interpreter can end: with a value, or by
    raising one of the Python exceptions the code can raise. */
module Outcomes {

  datatype Option<+T> = None | Some(value: T)

  /** The exceptions raised by the tokenizer, the parser and the evaluator,
      with the part of each message that the model keeps. */
  datatype Exception =
    | SyntaxError(msg: string)          // raised explicitly with an "Expected ..." message
    | NameError(name: string)           // a global name that is not defined
    | UnboundLocalError(name: string)   // a local variable read before any assignment
    | IndexError                        // list index out of range
    | AttributeError                    // attribute lookup on None
    | KeyError(key: string)             // dictionary lookup of a missing key
    | ZeroDivisionError                 // integer division by zero
    | TypeError                         // an operator applied to operands it does not support
    | RuntimeError(msg: string)         // raised explicitly by the visitor

  /** A result, or the exception that ended the call. Failure-compatible, so
      that `:-` propagates a raised exception as Python does. */
  datatype Outcome<+T> = Ok(value: T) | Raise(exc: Exception) {

    predicate IsFailure() {
      Raise?
    }

    function PropagateFailure<U>(): Outcome<U>
      requires Raise?
    {
      Raise(exc)
    }

    function Extract(): T
      requires Ok?
    {
      value
    }
  }
}
