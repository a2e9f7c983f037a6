/** Nullable references and exception outcomes of the game code. */
module Wrappers {

  /** A reference that may be null: `None` stands for C#'s `null`. */
  datatype Option<+T> = None | Some(value: T)

  /** The outcome of a `void` operation that may throw: `Fail(e)` is the exception `e`. */
  datatype Outcome<+E> = Pass | Fail(error: E)
}
