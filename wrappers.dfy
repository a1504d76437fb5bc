/** Optional values: `None` marks an absent value. Each module says which
    JavaScript value (`null`, `undefined`, or either) an absent value stands for. */
module Wrappers {

  datatype Option<+T> = None | Some(value: T) {

    /** The value, or `default` when absent. */
    function GetOr(default: T): T {
      match this
      case Some(v) => v
      case None => default
    }
  }
}
