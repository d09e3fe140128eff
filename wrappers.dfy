/** Optional values, used for decoders that may meet a byte outside a vocabulary. */
module Wrappers {

  datatype Option<+T> = None | Some(value: T)
}
