/** The optional-value wrapper used for JSON fields that may be absent. */
module Wrappers {

  /** `None` stands for a JSON field that is missing, `null` or `undefined`. */
  datatype Option<+T> = None | Some(value: T)
}
