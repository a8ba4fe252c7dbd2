/** Optional values: the model of `std::optional` and of nullable owning pointers. */
module Wrappers {

  datatype Option<+T> = None | Some(value: T) {

    /** `value_or(d)`: the held value, or `d` when empty. */
    function GetOr(d: T): T {
      match this
      case Some(v) => v
      case None => d
    }
  }
}
