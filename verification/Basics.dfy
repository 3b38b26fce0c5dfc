/** Types shared by the smaller components. */
module Basics {

  datatype Option<T> = None | Some(value: T)

  newtype byte = x: int | 0 <= x < 256
}
