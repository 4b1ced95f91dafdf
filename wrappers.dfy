/** Option and Outcome: the absent value of `Array.prototype.find` and the
    verdict of a chain of `expect` calls, where the first failing one throws. */
module Wrappers {

  datatype Option<+T> = None | Some(value: T)

  /** Pass, or the first expectation that failed. */
  datatype Outcome<+E> = Pass | Fail(error: E)
}
