/** Go's `nil`-or-value conventions: an optional value (a nil error, a missing map entry)
    and a value-or-error return. */
module Wrappers {

  datatype Option<+T> = None | Some(value: T)

  datatype Result<+T> = Ok(value: T) | Err(error: string)
}
