/** The nullable values of the account schema and of the provider's JSON replies. */
module Wrappers {

  /** `None` stands for a JavaScript `null` or `undefined`, `Some(v)` for a present value. */
  datatype Option<+T> = None | Some(value: T)
}
