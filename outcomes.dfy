/** Values shared by both containers: an optional argument (for a value that
    may be JavaScript's `undefined`) and the outcome of an operation that may
    throw. */
module Outcomes {

  /** An argument as a caller may pass it: `None` stands for `undefined`. */
  datatype Option<T> = None | Some(value: T)

  /** The two reasons a container operation throws. */
  datatype Error =
    | InvalidArgument   // an insertion was given `undefined`
    | EmptyContainer    // a removal, peek or (stack only) getAll found no element

  /** What an operation hands back: its value, or the error it throws. */
  datatype Result<T> = Ok(value: T) | Err(error: Error)
}
