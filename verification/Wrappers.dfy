/** The one helper type every other module shares. */
module Wrappers {

  datatype Option<+T> = None | Some(value: T)

}
