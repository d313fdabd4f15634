/** The usual optional value: `None` stands for a C NULL or "no more input". */
module Wrappers {

  datatype Option<+T> = None | Some(value: T)
}
