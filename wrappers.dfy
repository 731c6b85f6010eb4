/**
 * Option and Result, plus the Python exception kinds the modelled code can
 * raise.  An exception that the source lets propagate becomes an `Err` value.
 */
module Wrappers {

  datatype Option<+T> = None | Some(value: T) {
    predicate IsFailure() { None? }

    function PropagateFailure<U>(): Option<U>
      requires None?
    {
      None
    }

    function Extract(): T
      requires Some?
    {
      value
    }
  }

  datatype Result<+T, +E> = Ok(value: T) | Err(error: E) {
    predicate IsFailure() { Err? }

    function PropagateFailure<U>(): Result<U, E>
      requires Err?
    {
      Err(error)
    }

    function Extract(): T
      requires Ok?
    {
      value
    }
  }

  /** The exceptions the modelled Python code raises or lets through. */
  datatype PyError =
    | ValueError      // unpacking a split list into too few names, int() of a non-number
    | IndexError      // subscripting a list past its end
    | KeyError        // dictionary lookup of a missing key
    | AssertionError  // a failed `assert` statement
    | AttributeError  // reading an attribute that was never assigned
    | VendorError     // a failure inside the router library or a web request
    | Raised(message: string)  // an explicit `raise Exception(message)`
}
