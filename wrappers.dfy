/** The optional value used wherever the relay may find nothing: a missing
    message, a missing record field, a reply target that is absent. */
module Wrappers {

  datatype Option<+T> = None | Some(value: T)
}
