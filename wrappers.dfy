/** The optional values of the view: colours that may be nil, a path without a current point. */
module Wrappers {

  datatype Option<T> = None | Some(value: T)
}
