/** Small value types shared by every component of the booking UI model. */
module Wrappers {

  /** A value that may be missing: JavaScript's `null` / `undefined`. */
  datatype Option<+T> = None | Some(value: T)

  /** The outcome of a remote call the components await (a query, an insert, an auth request):
      either the returned value, or the message of the error it threw. */
  datatype Fetch<+T> = Fetched(value: T) | Failed(message: string)

  /** JavaScript's `a || b` on strings: `a` unless it is the empty string. */
  function OrElse(a: string, b: string): string
  {
    if a != "" then a else b
  }
}
