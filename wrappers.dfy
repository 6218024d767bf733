/** Shared optional values: `None` stands for JavaScript `null` / `undefined`
    and Python `None` (or a missing key) throughout the model. */
module Wrappers {

  datatype Option<+T> = None | Some(value: T) {

    /** The value if present, otherwise `default` (Python `dict.get(k, default)`). */
    function GetOr(default: T): T {
      match this
      case Some(v) => v
      case None => default
    }
  }

  /** JavaScript / Python truthiness of a nullable number: `null`, `None`
      and `0` are falsy, every other number is truthy. */
  predicate IdTruthy(id: Option<int>) {
    id.Some? && id.value != 0
  }
}
