/** A value that may be missing: Python's None, an absent key, an absent row. */
module Options {
  datatype Option<+T> = None | Some(value: T)

  /** Python's truth value of an optional string: neither None nor "". */
  predicate Truthy(o: Option<string>) {
    o.Some? && o.value != ""
  }

  function GetOr<T>(o: Option<T>, default: T): T {
    match o
    case Some(v) => v
    case None => default
  }
}
