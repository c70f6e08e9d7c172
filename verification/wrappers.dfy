/** Wrappers used by the dough formulation engine.
    - Option<T> stands for a TypeScript value that may be `undefined` or `null`.
    - Result<T, E> stands for a call that either returns a value or throws. */
module Wrappers {

  datatype Option<+T> = None | Some(value: T)

  datatype Result<+T, +E> = Success(value: T) | Failure(error: E)
}
