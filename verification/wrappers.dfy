/** A nullable value: the `T | null` fields of the rows the application reads and writes. */
module Wrappers {

  datatype Option<+T> = None | Some(value: T)
}
