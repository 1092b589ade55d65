/** The nullable slots of the view state (`null` / `undefined` in the page) as an option type. */
module Wrappers {

  datatype Option<+T> = None | Some(value: T)
}
