/**
  Optional values. Each use says what `None` stands for: a JSON `null`, an
  absent dictionary key, or no reply at all.
 */
module Wrappers {

  datatype Option<+T> = None | Some(value: T)
}
