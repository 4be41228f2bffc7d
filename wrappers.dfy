/** The JavaScript `null`/`undefined` a field may hold, as an explicit option. */
module Wrappers {

  datatype Option<+T> = None | Some(value: T)
}
