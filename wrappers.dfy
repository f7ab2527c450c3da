/** The optional value used across the model: Go's nil error, nil pointer or
    nil interface is `None`. */
module Wrappers {

  datatype Option<+T> = None | Some(value: T)
}
