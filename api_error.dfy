/**
 * The message the dashboard shows for a failed call: a cascade that
 * prefers the server's own error message, then the HTTP client's message,
 * then any error's message, then an `error.message` field of a plain
 * object, and otherwise the default.
 */
module ApiError {
  import opened Wrappers

  /** The default when the caller passes none. */
  const DEFAULT_MESSAGE := "Something went wrong"

  /** The thrown value, as far as the cascade inspects it. */
  datatype Thrown =
    | Falsy                                                     // null, undefined, false, 0 or ""
    | HttpError(serverMessage: Option<string>, message: string) // the HTTP client's error: `response.data.error.message` and its own message
    | PlainError(message: string)                               // any other Error instance
    | Other(errorMessage: Option<string>)                       // any other truthy value and its `error.message`, if any

  /** The message for a thrown value; `defaultMessage` is the optional second argument. */
  function HandleApiError(e: Thrown, defaultMessage: Option<string>): (m: string)
    ensures e.Falsy? ==> m == defaultMessage.GetOr(DEFAULT_MESSAGE)
    ensures e.HttpError? && e.serverMessage.GetOr("") != "" ==> m == e.serverMessage.value
    ensures e.HttpError? && e.serverMessage.GetOr("") == "" ==> m == e.message
    ensures e.PlainError? ==> m == e.message
    ensures e.Other? && e.errorMessage.GetOr("") != "" ==> m == e.errorMessage.value
    ensures e.Other? && e.errorMessage.GetOr("") == "" ==> m == defaultMessage.GetOr(DEFAULT_MESSAGE)
  {
    var fallback := defaultMessage.GetOr(DEFAULT_MESSAGE);
    match e
    case Falsy => fallback
    case HttpError(server, message) =>
      // a non-empty own message is returned by the client-error branch; an empty
      // one falls to the generic Error branch, which returns it all the same
      if server.GetOr("") != "" then server.GetOr("") else message
    case PlainError(message) => message
    case Other(inner) => if inner.GetOr("") != "" then inner.GetOr("") else fallback
  }

  /** Only an error object with an empty message can yield an empty text, provided the default is not empty. */
  lemma EmptyOnlyFromEmptyErrorMessage(e: Thrown, defaultMessage: Option<string>)
    requires defaultMessage.GetOr(DEFAULT_MESSAGE) != ""
    requires HandleApiError(e, defaultMessage) == ""
    ensures e.HttpError? || e.PlainError?
    ensures e.HttpError? ==> e.serverMessage.GetOr("") == "" && e.message == ""
    ensures e.PlainError? ==> e.message == ""
  {
  }

  /** A server message wins over the HTTP client's own message, whatever the default. */
  lemma ServerMessageWins(server: string, message: string, d1: Option<string>, d2: Option<string>)
    requires server != ""
    ensures HandleApiError(HttpError(Some(server), message), d1) == server
    ensures HandleApiError(HttpError(Some(server), message), d1) == HandleApiError(HttpError(Some(server), ""), d2)
  {
  }
}
