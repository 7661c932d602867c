/** A nullable value: `None` stands for JavaScript's `null` and SQL's NULL. */
module Wrappers {

  datatype Option<+T> = None | Some(value: T)
}
