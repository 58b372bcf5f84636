/** Failure-compatible result types shared by every module of the model.
    Python exceptions raised by the modelled code become `Err` values carrying
    the exception class, so that error paths are part of each contract. */
module Wrappers {

  /** The Python exception classes that the modelled code can raise. */
  datatype PyError =
    | AssertionError
    | ValueError
    | KeyError
    | IndexError
    | TypeError
    | AttributeError
    | NameError
    | ZeroDivisionError
    | FileNotFoundError
    | RuntimeError

  datatype Option<+T> = None | Some(value: T) {
    predicate IsFailure() { None? }
    function PropagateFailure<U>(): Option<U> requires None? { None }
    function Extract(): T requires Some? { value }
    function GetOr(default: T): T { if Some? then value else default }
  }

  datatype Result<+T> = Ok(value: T) | Err(error: PyError) {
    predicate IsFailure() { Err? }
    function PropagateFailure<U>(): Result<U> requires Err? { Err(error) }
    function Extract(): T requires Ok? { value }
  }

  /** A Python `assert`: passes, or fails with `AssertionError`. */
  function Need(b: bool): (r: Result<()>)
    ensures r.Ok? <==> b
    ensures r.Err? ==> r.error == AssertionError
  {
    if b then Ok(()) else Err(AssertionError)
  }
}
