/** Optional values. In this model `None` stands for a C# null reference. */
module Wrappers {

  datatype Option<T> = None | Some(value: T) {

    /** The wrapped value, or `default` when there is none. */
    function GetOr(default: T): T {
      match this
      case Some(v) => v
      case None => default
    }
  }
}
