/** Optional values: None stands for a null pointer in the plugin's C++ code. */
module Wrappers {

  datatype Option<+T> = None | Some(value: T)
}
