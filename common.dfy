/** Optional values and error-carrying results, standing for Python's `None`
    and for exceptions raised by the modelled code. */
module Common {

  datatype Option<T> = None | Some(value: T)

  datatype Result<T, E> = Ok(value: T) | Err(error: E)

  /** Python truthiness of an optional string: `None` and `""` are falsy. */
  predicate Truthy(s: Option<string>)
  {
    s.Some? && s.value != ""
  }
}
