/** Result shapes shared by the modules: Go's nil-able values and its panics. */
module Outcomes {

  /** A value that Go may leave nil. */
  datatype Option<+T> = None | Some(value: T)

  /** The outcome of a call that either returns normally or panics with a message. */
  datatype Result<+T> = Ok(value: T) | Panic(message: string)
}
