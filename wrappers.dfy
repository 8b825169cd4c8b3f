/** An optional value: None stands for a JavaScript value that is null or undefined. */
module Wrappers {
  datatype Option<+T> = None | Some(value: T)
}
