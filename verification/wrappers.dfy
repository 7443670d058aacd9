/** `Some` holds the dispatcher's response; `None` stands for the Python
    `None` the dispatcher falls through to on an unknown step. */
module Wrappers {

  datatype Option<+T> = None | Some(value: T)
}
