/** Values and failures as the TypeScript code sees them: a nullable value, and the
    outcome of a call that either returns or throws. */
module Outcomes {

  /** A value that may be absent (`T | null` in the source). */
  datatype Option<+T> = None | Some(value: T)

  /** What a `throw` carries: an `Error` object with its message, or any other value. */
  datatype Exception = Error(message: string) | NonErrorValue

  /** The outcome of a call that may throw. */
  datatype Result<+T> = Ok(value: T) | Err(error: Exception)

  /** JavaScript truthiness of a `string | null`: present and not the empty string. */
  predicate Present(o: Option<string>) {
    o.Some? && o.value != ""
  }

  const UnknownErrorMessage: string := "An unknown error occurred."

  /** The text a form shows for a caught exception:
      `err instanceof Error ? err.message : 'An unknown error occurred.'`. */
  function DisplayMessage(e: Exception): (msg: string)
    ensures e.Error? ==> msg == e.message
    ensures e.NonErrorValue? ==> msg == UnknownErrorMessage
  {
    match e
    case Error(m) => m
    case NonErrorValue => UnknownErrorMessage
  }
}
