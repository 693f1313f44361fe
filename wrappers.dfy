/** Null-or-value and success-or-exception results, standing in for C# null
    references and thrown exceptions. */
module Wrappers {

  /** A reference that may be null. */
  datatype Option<+T> = None | Some(value: T)

  /** The outcome of a C# method that returns nothing but may throw. */
  datatype Outcome<+E> = Returned | Threw(exception: E)
}
