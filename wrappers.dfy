/** The optional-value datatype used wherever the dashboard has `null`,
    `undefined` or "not found". */
module Wrappers {

  datatype Option<+T> = None | Some(value: T)
}
