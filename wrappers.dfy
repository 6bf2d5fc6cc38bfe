/** The two wrappers the model uses throughout: `Option` for JavaScript's
    `undefined` and Go's nil pointers, `Result` for Go's `(value, error)` returns. */
module Wrappers {
  datatype Option<+T> = None | Some(value: T)
  {
    function GetOr(default: T): T
    {
      if Some? then value else default
    }
  }

  datatype Result<+T, +E> = Ok(value: T) | Err(error: E)
}
