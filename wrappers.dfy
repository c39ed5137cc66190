/** Absence of a value: JavaScript's `undefined`/`null` and a failed lookup. */
module Wrappers {

  datatype Option<+T> = None | Some(value: T)

}
