/** Absence and failure as values: a JavaScript `null` becomes `None`, a
    thrown error or a `process.exit(1)` branch becomes `Err`. */
module Wrappers {

  datatype Option<+T> = None | Some(value: T)

  datatype Result<+T, +E> = Ok(value: T) | Err(error: E)
}
