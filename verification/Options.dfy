/** A value that may be missing. */
module Options {
  datatype Option<+T> = None | Some(value: T)

  function ValueOr<T>(o: Option<T>, other: T): T { if o.Some? then o.value else other }
}
