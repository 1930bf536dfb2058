/** The optional value used wherever the Java code can hold `null`. */
module Wrappers {

  datatype Option<+T> = None | Some(value: T)
}
