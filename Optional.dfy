/** A value that may be missing: JavaScript's `null` / `undefined` results. */
module Optional {

  datatype Option<T> = None | Some(value: T) {

    /** `x || fallback` for a value that is truthy whenever present. */
    function GetOr(fallback: T): T {
      match this
      case Some(v) => v
      case None => fallback
    }
  }
}
