/** An optional value: a delay that may not be scheduled, a raycast that may hit nothing. */
module Wrappers {

  datatype Option<+T> = None | Some(value: T)
}
