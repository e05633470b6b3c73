/**
 * The error taxonomy every component reports through (src/errors.rs).
 * error_chain gives each error a kind: the two kinds the crate declares,
 * error_chain's own `Msg` kind for plain string errors, and a catch-all
 * for any other kind a `match` reaches with `_`.
 */
module Errors {

  /** Raw bytes, as read from a file or produced by a hash. */
  type Bytes = seq<bv8>

  datatype ErrorKind =
    | RecoverableError(reason: string)
    | UnrecoverableError(reason: string)
    | Msg(text: string)
    | OtherKind(text: string)

  /** `errors::Result<T>`: a value or an error of some kind. */
  datatype Result<+T> = Ok(value: T) | Err(error: ErrorKind)

  datatype Option<+T> = None | Some(value: T)
}
