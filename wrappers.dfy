/** Option and Result values, and the one piece of Python truthiness the engine relies on. */
module Wrappers {

  datatype Option<+T> = None | Some(value: T)

  datatype Result<+T, +E> = Ok(value: T) | Err(error: E)

  /** Python truthiness of an optional string: `None` and `""` are falsy, every other string is truthy. */
  predicate Truthy(s: Option<string>)
  {
    s.Some? && s.value != ""
  }
}

/** The exceptions the engine raises or lets through to its caller. */
module Errors {

  datatype Error =
    | NotConfigured(gateway: string)   // ValueError: the gateway name is not in the registry
    | DuplicatePhone(phone: string)    // ValueError: a contact with this phone already exists
    | GatewayError(text: string)       // the exception a gateway raised, passed on unchanged
}
