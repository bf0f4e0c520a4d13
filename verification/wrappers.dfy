/** Option and Result: the model's stand-ins for Python's `None` and raised exceptions. */
module Wrappers {

  datatype Option<+T> = None | Some(value: T) {
    function GetOr(default: T): T {
      match this
      case Some(v) => v
      case None => default
    }
  }

  /** An optional string that Python finds true: neither `None` nor the empty string. */
  predicate Given(o: Option<string>) {
    o.Some? && o.value != ""
  }

  /** The Python exception classes the modelled code raises. */
  datatype Error =
    | ValueError | KeyError | IndexError | OSError | RuntimeError | AttributeError | TypeError
    | NotImplementedError | UnboundLocalError

  /** The outcome of a call that either returns a value or raises. */
  datatype Result<+T> = Ok(value: T) | Err(error: Error)
}
