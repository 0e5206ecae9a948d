/** The optional values the model needs: `None` is Python's `None`. */
module Wrappers {

  datatype Option<+T> = None | Some(value: T)
}
