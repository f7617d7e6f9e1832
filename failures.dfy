/** Option and Result values, and the exceptions the modelled Python code can raise. */
module Failures {

  datatype Option<+T> = None | Some(value: T) {
    function GetOr(default: T): (r: T)
      ensures Some? ==> r == value
      ensures None? ==> r == default
    {
      match this
      case Some(v) => v
      case None => default
    }
  }

  datatype Result<+T, +E> = Ok(value: T) | Err(error: E)

  /** The Python exception classes that matter to the callers in the model.
      Only `ValueError` is caught by `create_chat_prompt_template`. */
  datatype Error =
    | ValueError(message: string)
    | KeyError(key: string)
    | TypeError(message: string)
    | StatisticsError(message: string)
    | ValidationError(message: string)
    /** An exception raised inside a foreign call (the language model, the grading model). */
    | External(message: string)
}
