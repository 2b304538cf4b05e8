/** Failure-compatible wrappers used across the model: an optional value
    (Python's `None` or a value) and the outcome of an operation that can
    raise (Python's `ValueError` and friends become `Err`). */
module Wrappers {

  datatype Option<+T> = None | Some(value: T)

  datatype Result<+T, +E> = Ok(value: T) | Err(error: E)

  /** Python truthiness of an optional integer: `None` and `0` are falsy. */
  predicate TruthyInt(x: Option<int>) {
    x.Some? && x.value != 0
  }

  /** Python truthiness of an optional string: `None` and `""` are falsy. */
  predicate TruthyStr(x: Option<seq<char>>) {
    x.Some? && x.value != []
  }
}
