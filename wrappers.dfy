/** Option and the reply of a call whose body is not part of this model. */
module Wrappers {

  /** A value that may be absent (`null` / `undefined` in the front end). */
  datatype Option<+T> = None | Some(value: T)

  /** What an awaited call into code outside the model did: it resolved
      with a value, or it threw (its promise rejected). */
  datatype Reply<+T> = Returned(value: T) | Threw

  /** JavaScript truthiness of an optional string: `null` and `""` are falsy. */
  predicate Truthy(o: Option<string>)
  {
    o.Some? && o.value != ""
  }
}
