/** The absent-or-present value used for the number parser and the export quality. */
module Wrappers {

  /** `None` stands for JavaScript's `NaN` / `undefined`; `Some(v)` for a value. */
  datatype Option<+T> = None | Some(value: T)
}
