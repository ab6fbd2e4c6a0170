/**
 * The exception hierarchy of the system. `APIException` is the base class; the
 * five subclasses all derive from it directly, so `AuthenticationError` and
 * `RateLimitError` are NOT kinds of `AIServiceError`. Any other Python
 * exception (a `ValueError`, a `TypeError`, ...) is a `PlainExc`.
 */
module Exceptions {
  import opened Wrappers

  datatype ExcKind = ApiBase | Configuration | Validation | AIService | Authentication | RateLimit

  /** A value of an exception's `details` dictionary. */
  datatype Detail = DText(text: string) | DList(items: seq<string>)

  type Details = map<string, Detail>

  datatype Exc =
    | ApiExc(kind: ExcKind, message: string, code: Option<string>, details: Details)
    | PlainExc(text: string)
  {
    /** `isinstance(e, APIException)` */
    predicate IsApi()
    {
      ApiExc?
    }

    /** `isinstance(e, cls)` for the class named by `k`: every API exception is an instance of `ApiBase`. */
    predicate IsA(k: ExcKind)
    {
      ApiExc? && (k == ApiBase || kind == k)
    }

    /** `str(e)`: an API exception prints as its message. */
    function Text(): string
    {
      match this
      case ApiExc(_, m, _, _) => m
      case PlainExc(t) => t
    }
  }

  /** `Cls(message)` with no error code and empty details. */
  function Raise(kind: ExcKind, message: string): (e: Exc)
    ensures e.IsApi() && e.IsA(kind) && e.Text() == message
  {
    ApiExc(kind, message, None, map[])
  }
}
