/** Optional values: a nullable or omitted value of the front end. */
module Wrappers {

  datatype Option<+T> = None | Some(value: T)

}
