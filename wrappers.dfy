/** Optional values: the model's stand-in for Go's nil values and absent parameters. */
module Wrappers {

  datatype Option<+T> = None | Some(value: T)
}
