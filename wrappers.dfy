/** Optional values, standing for JavaScript's null/undefined and for "nothing emitted". */
module Wrappers {

  datatype Option<+T> = None | Some(value: T)

}
