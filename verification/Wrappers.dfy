/** Failure-carrying values shared by the modules of the model. */
module Wrappers {

  /** A value that may be absent: an optional JSON field, an unreadable file. */
  datatype Option<+T> = None | Some(value: T)

  /** The outcome of a call into the outside world that can throw: its value,
      or the message of the JavaScript `Error` it raised. */
  datatype Outcome<+T> = Ok(value: T) | Fail(message: string)
}
