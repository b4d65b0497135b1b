/** The fixed response words of the wire protocol (response.go). */
module Responses {

  /** Every status the server can put on the wire besides a stored value. */
  datatype Response =
    | Ok
    | BadQuery
    | IllegalChars
    | KeyNotFound
    | DatabaseNotFound
    | DatabaseIsEmpty
    | KeyNotProvided
    | AlreadyExists

  /**
   * The exact text written to the client for a status. It never holds the
   * reserved `:` character, and it neither starts nor ends with a quote.
   */
  function Text(r: Response): (t: string)
    ensures t != [] && ':' !in t
    ensures t[0] != '"' && t[|t| - 1] != '"'
  {
    match r
    case Ok => "OK"
    case BadQuery => "BAD_QUERY"
    case IllegalChars => "ILLEGAL_CHARACTERS"
    case KeyNotFound => "KEY_NOT_FOUND"
    case DatabaseNotFound => "DATABASE_NOT_FOUND"
    case DatabaseIsEmpty => "DATABASE_IS_EMPTY"
    case KeyNotProvided => "KEY_NOT_PROVIDED"
    case AlreadyExists => "ALREADY_EXISTS"
  }

  /**
   * Distinct statuses have distinct words. A stored value may still read
   * like one of them on the wire.
   */
  lemma TextInjective(a: Response, b: Response)
    ensures Text(a) == Text(b) <==> a == b
  {
  }
}
