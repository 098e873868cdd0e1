/**
 * Values shared by the modules of the model: optional values, the outcome of an
 * awaited call, what an operation returns or throws, and JavaScript truthiness
 * of an optional string.
 */
module Common {

  datatype Option<T> = None | Some(value: T)

  /** The outcome of one awaited call: the value it resolves to, or a rejection. */
  datatype Outcome<T> = Resolved(value: T) | Rejected

  /** What an operation returns, or the error it throws. */
  datatype Result<T> = Ok(value: T) | Thrown(error: string)

  /** A string value of the source (`string | null | undefined`) is truthy when it is present
      and not "". */
  predicate Truthy(s: Option<string>) {
    s.Some? && s.value != ""
  }
}
