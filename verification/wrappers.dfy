/** Optional values and outcomes of calls that can fail. */
module Wrappers {

  /** A value that may be absent (JavaScript `null` / `undefined`). */
  datatype Option<+T> = None | Some(value: T)

  /** The outcome of an asynchronous call: its value, or the message of the error it threw. */
  datatype Result<+T, +E> = Success(value: T) | Failure(error: E)

  /** `error.message || fallback`: the error's own message when it has one. */
  function ErrorText(message: string, fallback: string): (r: string)
    ensures message != "" ==> r == message
    ensures message == "" ==> r == fallback
  {
    if message != "" then message else fallback
  }
}
