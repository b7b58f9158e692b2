/** Failure-carrying results for the operations whose source raises a Python
    exception (IndexError, KeyError, ZeroDivisionError, ValueError, ...). */
module Wrappers {

  datatype Option<+T> = None | Some(value: T)

  /** The Python exception a source operation would raise. */
  datatype Error =
    | IndexError        // list index or pop out of range
    | KeyError          // dictionary lookup of a missing key
    | ZeroDivisionError // division by zero
    | ValueError        // float() of a non-numeric string, min()/max() of an empty list
    | TypeError         // arithmetic or len() on a value of the wrong type
    | NameError         // a local variable read before any assignment
    | IOError           // open() of a file that is not there
    | NotConverged      // the iteration budget ran out before convergence

  datatype Result<+T> = Ok(value: T) | Err(error: Error) {
    predicate IsFailure() { Err? }

    function PropagateFailure<U>(): Result<U>
      requires Err?
    {
      Err(error)
    }

    function Extract(): T
      requires Ok?
    {
      value
    }
  }
}
