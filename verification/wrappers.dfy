/** A value that may be absent: the model's way of saying "no result" where
    the header reports failure with a `false` return or has nothing to give. */
module Wrappers {

  datatype Option<+T> = None | Some(value: T)
}
