/** The client's exceptions, and the Option and Result types that carry them
    through the model instead of Python's raise. */
module Errors {

  /** Python's None-or-value. */
  datatype Option<+T> = None | Some(value: T)

  /** Every way an operation of the client can end abruptly. */
  datatype Error =
    | ResponseFormatError(message: string)  // an expected field is missing from a reply
    | SessionError                          // a request is attempted without a session
    | AttributeError                        // `.get` called on a JSON value that is not an object
    | HttpError(status: int)                // raise_for_status on a 4xx or 5xx reply
    | JsonDecodeError                       // r.json() on a body that is not JSON
    | TypeError                             // a constructor called with the wrong arguments

  /** Outcome of an operation: its value, or the exception it raised. */
  datatype Result<+T> = Success(value: T) | Failure(error: Error) {
    predicate IsFailure() { Failure? }

    function PropagateFailure<U>(): Result<U>
      requires Failure?
    {
      Failure(error)
    }

    function Extract(): T
      requires Success?
    {
      value
    }
  }

  /** The package's own exception classes. */
  datatype ErrorClass = ResponseFormatErrorClass | SessionErrorClass

  /** Calling an exception class with `args`: the shared base constructor
      takes exactly one message, any other arity raises TypeError. */
  function Instantiate(cls: ErrorClass, args: seq<string>): (e: Error)
    ensures e == TypeError <==> |args| != 1
    ensures |args| == 1 && cls == ResponseFormatErrorClass ==> e == ResponseFormatError(args[0])
    ensures |args| == 1 && cls == SessionErrorClass ==> e == SessionError
  {
    if |args| != 1 then TypeError
    else match cls
      case ResponseFormatErrorClass => ResponseFormatError(args[0])
      case SessionErrorClass => SessionError
  }

  /** `raise Cls` with a bare class: Python instantiates it with no arguments,
      so what propagates is TypeError, for either class of the package. */
  function RaiseClass(cls: ErrorClass): (e: Error)
    ensures e == TypeError
    ensures e != SessionError && !e.ResponseFormatError?
  {
    Instantiate(cls, [])
  }
}
