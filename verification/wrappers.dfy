/** Optional values: the model's stand-in for JavaScript's empty string, `null` and
    unparseable input wherever the source treats them as "absent". */
module Wrappers {

  datatype Option<+T> = None | Some(value: T)
}
