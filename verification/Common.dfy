/** Shared value types. */
module Common {

  datatype Option<+T> = None | Some(value: T)

  /** The elements held by an optional field: one or none. */
  function Elements<T>(o: Option<T>): set<T> {
    if o.Some? then {o.value} else {}
  }
}
