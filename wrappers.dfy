/** Optional values, used for "nothing emitted" and for the cases where the
    scripts would raise a division-by-zero error. */
module Wrappers {

  datatype Option<+T> = None | Some(value: T)
}
