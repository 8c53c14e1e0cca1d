/** An optional value, standing for Python attributes that start out as `None`. */
module Wrappers {

  datatype Option<+T> = None | Some(value: T)

}
