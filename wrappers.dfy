/** Optional values, used wherever a JavaScript value may be missing. */
module Wrappers {

  /**
   * `None` stands for an absent property (`undefined`). A JSON `null` is
   * read the same way; where a template would print it as "null" rather
   * than "undefined", the difference is not modelled.
   */
  datatype Option<+T> = None | Some(value: T)
}
