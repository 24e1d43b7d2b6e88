/** The Some/None datatype used for JavaScript values that may be absent
    (`null`, `undefined`, a failed regular-expression match). */
module Wrappers {

  datatype Option<+T> = None | Some(value: T)
}
