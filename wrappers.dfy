/** Option and Result: the shapes in which the store and the routes answer. */
module Wrappers {

  /** A JSON field that may be absent (`undefined`), or a lookup that may find nothing. */
  datatype Option<+T> = None | Some(value: T) {

    /** The value, or `default` when absent (JavaScript `??`). */
    function GetOr(default: T): T {
      if Some? then value else default
    }
  }

  /** A record, or the `{ status: ... }` object the store returns instead of throwing. */
  datatype Result<+T> = Ok(value: T) | Err(status: string)
}
