/** Option and Outcome values shared by every module of the model. */
module Wrappers {

  /** A value that may be absent: JavaScript's `undefined` / `null` results. */
  datatype Option<+T> = None | Some(value: T)

  /**
   * The result of an operation that may throw.  `Thrown` stands for a
   * rejected promise or a TypeError raised by reading a property of
   * `undefined`; `reason` names where it arises.
   */
  datatype Outcome<+T> = Ok(value: T) | Thrown(reason: string)
}
