/** The optional value a rate fetcher yields: a number, or Python's `None`. */
module Wrappers {

  datatype Option<+T> = None | Some(value: T)
}
