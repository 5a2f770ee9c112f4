/** Small shared vocabulary: optional values, results, JavaScript thrown values and truthiness. */
module Common {

  datatype Option<+T> = None | Some(value: T)

  datatype Result<+R, +E> = Success(value: R) | Failure(error: E)

  /** A value thrown by a JavaScript `throw`: an `Error` object with its message, or anything else. */
  datatype Thrown = Error(message: string) | NonError

  const UnknownError := "Unknown error"

  /** `error instanceof Error ? error.message : 'Unknown error'`, the message every catch block reports. */
  function ErrorMessage(e: Thrown): string
  {
    match e
    case Error(m) => m
    case NonError => UnknownError
  }

  /** JavaScript truthiness of an optional string: present and not the empty string. */
  predicate Truthy(s: Option<string>)
  {
    s.Some? && s.value != ""
  }

  predicate HasPrefix(s: string, prefix: string)
  {
    |prefix| <= |s| && s[..|prefix|] == prefix
  }
}
