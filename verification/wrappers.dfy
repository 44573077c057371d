/** An optional value: `None` stands for a reactive value that was created but never set. */
module Wrappers {

  datatype Option<+T> = None | Some(value: T)
}
