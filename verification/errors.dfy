/** The transport records shared by every client (requests, responses, client settings) and
    the error taxonomy the application throws. */
module Errors {
  import opened Wrappers
  import opened Strings
  import opened Js
  import opened Query

  datatype Method = GET | POST | PUT | DELETE | PATCH

  /** Header records; a later spread entry overrides an earlier one, which map union models. */
  type Headers = map<string, string>

  /** What a client hands to the HTTP library. An absent body is `Undefined`. */
  datatype HttpRequest = HttpRequest(
    url: string,
    verb: Method,
    headers: Option<Headers>,
    params: Option<Params>,
    data: Value,
    timeout: Option<int>)

  /** What the client hands back to its caller. */
  datatype HttpResponse = HttpResponse(data: Value, status: int, statusText: string, headers: Headers)

  /** Construction settings of the generic client; each field may be left out. */
  datatype HttpClientConfig = HttpClientConfig(
    baseURL: Option<string>,
    timeout: Value,
    headers: Option<Headers>)

  /** Every error class the application defines, plus the `TypeError` JavaScript throws when
      a property of `null` or `undefined` is read. */
  datatype Error =
    | ApiError(statusCode: int, message: string, details: Value)
    | ValidationError(message: string, field: Option<string>)
    | NotFoundError(message: string)
    | RateLimitError(message: string)
    | ConfigurationError(message: string)
    | HttpError(message: string, status: int, response: Option<HttpResponse>)
    | TypeError(message: string)
  {
    /** The `name` each constructor assigns. */
    function Name(): (n: string)
      ensures n == "ApiError" <==> this.ApiError?
      ensures n == "RateLimitError" <==> this.RateLimitError?
      ensures n == "HttpError" <==> this.HttpError?
    {
      match this
      case ApiError(_, _, _) => "ApiError"
      case ValidationError(_, _) => "ValidationError"
      case NotFoundError(_) => "NotFoundError"
      case RateLimitError(_) => "RateLimitError"
      case ConfigurationError(_) => "ConfigurationError"
      case HttpError(_, _, _) => "HttpError"
      case TypeError(_) => "TypeError"
    }
  }

  /** Distinct error classes carry distinct names, so `name` identifies the class. */
  lemma NameIdentifiesClass(e1: Error, e2: Error)
    requires e1.Name() == e2.Name()
    ensures e1.ApiError? == e2.ApiError? && e1.ValidationError? == e2.ValidationError?
    ensures e1.NotFoundError? == e2.NotFoundError? && e1.RateLimitError? == e2.RateLimitError?
    ensures e1.ConfigurationError? == e2.ConfigurationError? && e1.HttpError? == e2.HttpError?
    ensures e1.TypeError? == e2.TypeError?
  {
  }

  /** `new ApiError(statusCode, message)`: no details. */
  function NewApiError(statusCode: int, message: string): (e: Error)
    ensures e.ApiError? && e.statusCode == statusCode && e.message == message
    ensures e.details == Undefined
  {
    ApiError(statusCode, message, Undefined)
  }

  const RateLimitDefault := "Rate limit exceeded"

  /** `new RateLimitError(message?)`: an omitted message takes the default. */
  function NewRateLimitError(message: Option<string>): (e: Error)
    ensures e.RateLimitError?
    ensures message.Some? ==> e.message == message.value
    ensures message.None? ==> e.message == RateLimitDefault
  {
    RateLimitError(message.GetOr(RateLimitDefault))
  }

  /** The message of `new NotFoundError(resource, id?)`: the id is mentioned only when it is
      truthy, so `0` and `""` read as no id at all. */
  function NotFoundMessage(resource: string, id: Value): string {
    resource + (if Truthy(id) then " with id " + ToStr(id) else "") + " not found"
  }

  function NewNotFoundError(resource: string, id: Value): (e: Error)
    ensures e.NotFoundError? && e.message == NotFoundMessage(resource, id)
  {
    NotFoundError(NotFoundMessage(resource, id))
  }

  /** The message for a non-zero numeric id: the id printed between two fixed texts. */
  lemma NotFoundNumMessage(resource: string, a: int)
    requires a != 0
    ensures NotFoundMessage(resource, Num(a)) == (resource + " with id ") + IntToString(a) + " not found"
  {
    assert resource + (" with id " + IntToString(a)) == (resource + " with id ") + IntToString(a);
  }

  /** Equal texts with the same ends have the same middle. */
  lemma InfixCancel(pre: string, x: string, y: string, suf: string)
    requires pre + x + suf == pre + y + suf
    ensures x == y
  {
    assert |x| == |y|;
    assert x == (pre + x + suf)[|pre|..|pre| + |x|];
    assert y == (pre + y + suf)[|pre|..|pre| + |y|];
  }

  /** The message for a numeric id names that id: two different non-zero numeric ids of
      the same resource give different messages. */
  lemma NotFoundMessageNamesId(resource: string, a: int, b: int)
    requires a != 0 && b != 0
    requires NotFoundMessage(resource, Num(a)) == NotFoundMessage(resource, Num(b))
    ensures a == b
  {
    NotFoundNumMessage(resource, a);
    NotFoundNumMessage(resource, b);
    InfixCancel(resource + " with id ", IntToString(a), IntToString(b), " not found");
    IntToStringInjective(a, b);
  }

  /** Zero and the empty string count as no id; every other id is named. */
  lemma NotFoundFalsyId(resource: string)
    ensures NotFoundMessage(resource, Num(0)) == resource + " not found"
    ensures NotFoundMessage(resource, Str("")) == resource + " not found"
    ensures NotFoundMessage(resource, Undefined) == resource + " not found"
    ensures NotFoundMessage(resource, Num(7)) == resource + " with id 7 not found"
  {
    assert IntToString(7) == "7";
  }

  /** `new ValidationError(message, field?)`. */
  function NewValidationError(message: string, field: Option<string>): (e: Error)
    ensures e.ValidationError? && e.message == message && e.field == field
  {
    ValidationError(message, field)
  }

  /** `new ConfigurationError(message)`. */
  function NewConfigurationError(message: string): (e: Error)
    ensures e.ConfigurationError? && e.message == message && e.Name() == "ConfigurationError"
  {
    ConfigurationError(message)
  }
}
