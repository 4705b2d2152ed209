/** Option, Result and Outcome: the shapes in which the model returns what the
    TypeScript code expresses with `null`, thrown exceptions and rejected promises. */
module Wrappers {

  datatype Option<+T> = None | Some(value: T)

  /** The outcome of a call that produces a value or throws. `Err` carries the
      thrown value as JavaScript renders it with `String(e)`. */
  datatype Result<+T> = Ok(value: T) | Err(error: string)

  /** The outcome of an awaited call whose value is not used. */
  datatype Outcome = Pass | Fail(error: string)
}
