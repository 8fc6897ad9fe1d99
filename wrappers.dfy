/** Absence and failure as values, in place of JavaScript's `undefined`, `null` and thrown errors. */
module Wrappers {

  /** `None` plays the part of JavaScript's `undefined`/`null`, or of a call that threw. */
  datatype Option<+T> = None | Some(value: T)
}
