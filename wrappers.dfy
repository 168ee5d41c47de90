/** Python's optional values (`Optional[T]`): `None` or a present value. */
module Wrappers {
  datatype Option<+T> = None | Some(value: T)
}
