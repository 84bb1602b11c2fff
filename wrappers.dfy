/** Optional values: an absent JSON field, a lookup that found nothing. */
module Wrappers {
  datatype Option<+T> = None | Some(value: T) {
    function GetOr(default: T): T {
      match this
      case Some(v) => v
      case None => default
    }
  }
}

/** Document ids: the text of a MongoDB ObjectId. */
module Ids {
  type Id = string
}
