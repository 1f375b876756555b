/** Optional values, error results and the shape of a value read back from browser storage. */
module Wrappers {

  /** A value that may be absent: JavaScript's `null`/`undefined` alternative. */
  datatype Option<+T> = None | Some(value: T) {
    function GetOr(default: T): T {
      match this
      case Some(v) => v
      case None => default
    }
  }

  /** The outcome of an operation that can throw: `Err` carries the thrown message. */
  datatype Result<+T, +E> = Ok(value: T) | Err(error: E)

  /** What `localStorage.getItem` followed by `JSON.parse` yields: no entry (or an empty
      string), text that `JSON.parse` rejects, or a parsed value. */
  datatype Stored<+T> = Absent | Unparsable | Parsed(value: T)
}
