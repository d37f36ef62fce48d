/** Java's nullable references, where the core treats null as "absent". */
module Wrappers {

  datatype Option<+T> = None | Some(value: T)
}
