/** The Option datatype shared by the modules of this project: `None` stands
    for JavaScript's `undefined` (an unset select, a falsy snapshot, an
    absent machine). */
module Wrappers {

  datatype Option<+T> = None | Some(value: T)
}
