/** Optional values and pass/fail outcomes, used for the source's null pointers and thrown checks. */
module Wrappers {
  datatype Option<+T> = None | Some(value: T)

  datatype Outcome<+E> = Pass | Fail(error: E)
}
