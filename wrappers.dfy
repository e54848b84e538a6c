/** Small helper datatypes shared by the controllers. */
module Wrappers {

  /** A value that may be absent: a `null` from the browser (a missing storage key,
      a cancelled prompt, a missing attribute). */
  datatype Option<+T> = None | Some(value: T)
}
