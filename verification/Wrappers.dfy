/** What every module shares. */
module Wrappers {

  datatype Option<+T> = None | Some(value: T)
}
