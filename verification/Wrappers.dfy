/** The stock success and option types the other modules use. */
module Wrappers {

  datatype Option<+T> = None | Some(value: T)
}
