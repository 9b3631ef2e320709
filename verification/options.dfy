/** Failure-carrying wrappers shared by the CRM modules. */
module Options {

  /** A value that may be absent, as an optional GraphQL argument is. */
  datatype Option<+T> = None | Some(value: T)

  /** The outcome of a mutation: the new record, or the message of the exception it raises. */
  datatype Result<+T> = Ok(value: T) | Err(message: string)
}
