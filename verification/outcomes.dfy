/** Failure-compatible wrappers shared by the whole model, and the errors the
    request handlers can raise. */
module Outcomes {

  /** An optional value: a dictionary lookup that may miss, a parse that may fail. */
  datatype Option<+T> = None | Some(value: T)

  /** The exceptions a handler can raise, in the terms of the program:
      a missing key, a `ValueError` raised by the program itself (with its
      message), a rejected parse by one of the library parsers, a `TypeError`,
      an out-of-range index into the model output, an exception inside the
      atmospheric model, or an input shape this model does not cover. */
  datatype Error =
    | KeyError(key: string)
    | ValueError(message: string)
    | BadJson(text: string)
    | BadDate(text: string)
    | BadFloat(text: string)
    | TypeError(message: string)
    | IndexError
    | ModelFailure
    | Unsupported(what: string)

  /** A value or the error that aborted its computation; usable with `:-`. */
  datatype Result<+T> = Ok(value: T) | Err(error: Error) {

    predicate IsFailure() {
      Err?
    }

    function PropagateFailure<U>(): Result<U>
      requires Err?
    {
      Err(error)
    }

    function Extract(): T
      requires Ok?
    {
      value
    }
  }

  /** Turns a missing value into the given error. */
  function Need<T>(o: Option<T>, e: Error): (r: Result<T>)
    ensures r.Ok? <==> o.Some?
    ensures r.Ok? ==> r.value == o.value
    ensures r.Err? ==> r.error == e
  {
    match o
    case Some(v) => Ok(v)
    case None => Err(e)
  }
}
