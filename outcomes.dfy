/** Result shapes shared by the whole model.
    - Option: a value that may be missing (a Go `nil` error is `None`).
    - Result: a Go `(value, error)` pair.
    - Guarded: a call that returns normally or panics (a Go `panic` not recovered by the callee).
    - ValidationError: the message a validator returns. */
module Outcomes {

  datatype Option<+T> = None | Some(value: T)

  datatype Result<+T> = Ok(value: T) | Err(message: string)

  datatype Guarded<+T> = Returns(value: T) | Aborts(reason: string)

  /** A validator's error. Messages are kept as their exact text, except the
      range message, whose `%f` rendering of two floats is kept symbolic. */
  datatype ValidationError =
    | Message(text: string)
    | NotBetween(param: string, min: real, max: real)
}
