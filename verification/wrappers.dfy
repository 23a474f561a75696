/** Optional values. `None` stands for a result the source
    computes with a division by zero, i.e. a matrix full of non-finite numbers. */
module Wrappers {

  datatype Option<+T> = None | Some(value: T)
}
