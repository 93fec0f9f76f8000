/** The generic HTTP client built on the axios library: instance settings, the translation
    of library failures into `HttpError`, and the request records the verb helpers build.
    The library itself is a parameter `transport` mapping a request to its outcome. */
module AxiosClient {
  import opened Wrappers
  import opened Js
  import opened Query
  import opened Errors

  /** What the library reports once a request settles. */
  datatype Outcome =
    | Answered(response: HttpResponse)
    | Failed(failure: Failure)

  /** The three ways an axios call fails: a response with an error status, a request that
      got no response, or an error raised while setting the request up. */
  datatype Failure =
    | Rejected(response: HttpResponse)
    | NoResponse
    | SetupFailed(message: string)

  /** The settings of the library instance a client creates. */
  datatype Instance = Instance(baseURL: Option<string>, timeout: Value, headers: Headers)

  const DefaultTimeout := 10000
  const JsonHeaders: Headers := map["Content-Type" := "application/json", "Accept" := "application/json"]

  /** The instance settings: a falsy timeout becomes 10000 ms, and caller headers are
      spread over the JSON defaults. */
  function CreateInstance(config: HttpClientConfig): (inst: Instance)
    ensures inst.baseURL == config.baseURL
    ensures Truthy(config.timeout) ==> inst.timeout == config.timeout
    ensures !Truthy(config.timeout) ==> inst.timeout == Num(DefaultTimeout)
    ensures inst.headers.Keys == JsonHeaders.Keys + config.headers.GetOr(map[]).Keys
    ensures forall h :: h in config.headers.GetOr(map[]) ==> inst.headers[h] == config.headers.value[h]
    ensures forall h :: h in JsonHeaders && h !in config.headers.GetOr(map[]) ==>
              inst.headers[h] == JsonHeaders[h]
  {
    Instance(config.baseURL, Or(config.timeout, Num(DefaultTimeout)), JsonHeaders + config.headers.GetOr(map[]))
  }

  const FallbackMessage := "An error occurred"
  const NetworkMessage := "Network error: Unable to connect to server"
  const SetupPrefix := "Request setup error: "

  /** `data?.status_message || statusText || 'An error occurred'`. */
  function ErrorMessage(data: Value, statusText: string): (m: string)
    ensures Truthy(GetOpt(data, "status_message")) ==> m == ToStr(GetOpt(data, "status_message"))
    ensures !Truthy(GetOpt(data, "status_message")) && statusText != "" ==> m == statusText
    ensures !Truthy(GetOpt(data, "status_message")) && statusText == "" ==> m == FallbackMessage
  {
    var sm := GetOpt(data, "status_message");
    if Truthy(sm) then ToStr(sm)
    else if statusText != "" then statusText
    else FallbackMessage
  }

  /** The response interceptor's translation of a library failure. An answered error keeps
      its status and the whole response; the other two carry status 0. */
  function HandleError(f: Failure): (e: Error)
    ensures e.HttpError?
    ensures f.Rejected? ==> (e.status == f.response.status && e.response == Some(f.response)
                             && e.message == ErrorMessage(f.response.data, f.response.statusText))
    ensures f.NoResponse? ==> e == HttpError(NetworkMessage, 0, None)
    ensures f.SetupFailed? ==> e == HttpError(SetupPrefix + f.message, 0, None)
  {
    match f
    case Rejected(r) => HttpError(ErrorMessage(r.data, r.statusText), r.status, Some(r))
    case NoResponse => HttpError(NetworkMessage, 0, None)
    case SetupFailed(m) => HttpError(SetupPrefix + m, 0, None)
  }

  /** `request`: the library receives the caller's url, method, headers, params, body and
      timeout unchanged; an answer is copied field by field, a failure is translated. */
  function Request(req: HttpRequest, transport: HttpRequest -> Outcome): (r: Result<HttpResponse, Error>)
    ensures transport(req).Answered? <==> r.Ok?
    ensures r.Ok? ==> (r.value.data == transport(req).response.data
                       && r.value.status == transport(req).response.status
                       && r.value.statusText == transport(req).response.statusText
                       && r.value.headers == transport(req).response.headers)
    ensures r.Err? ==> r.error == HandleError(transport(req).failure)
  {
    match transport(req)
    case Answered(resp) => Ok(HttpResponse(resp.data, resp.status, resp.statusText, resp.headers))
    case Failed(f) => Err(HandleError(f))
  }

  function GetRequest(url: string, params: Option<Params>, headers: Option<Headers>): HttpRequest {
    HttpRequest(url, GET, headers, params, Undefined, None)
  }

  function PostRequest(url: string, data: Value, headers: Option<Headers>): HttpRequest {
    HttpRequest(url, POST, headers, None, data, None)
  }

  function PutRequest(url: string, data: Value, headers: Option<Headers>): HttpRequest {
    HttpRequest(url, PUT, headers, None, data, None)
  }

  function DeleteRequest(url: string, headers: Option<Headers>): HttpRequest {
    HttpRequest(url, DELETE, headers, None, Undefined, None)
  }

  /** The verb helpers differ only in method and payload: each sends its own method, only
      `post` and `put` carry a body, only `get` carries params, none sets a timeout, and
      all pass url and headers through. */
  lemma VerbRequests(url: string, params: Option<Params>, data: Value, headers: Option<Headers>)
    ensures GetRequest(url, params, headers).verb == GET
    ensures PostRequest(url, data, headers).verb == POST
    ensures PutRequest(url, data, headers).verb == PUT
    ensures DeleteRequest(url, headers).verb == DELETE
    ensures GetRequest(url, params, headers).params == params && GetRequest(url, params, headers).data == Undefined
    ensures PostRequest(url, data, headers).data == data && PostRequest(url, data, headers).params.None?
    ensures PutRequest(url, data, headers).data == data && PutRequest(url, data, headers).params.None?
    ensures DeleteRequest(url, headers).data == Undefined && DeleteRequest(url, headers).params.None?
    ensures GetRequest(url, params, headers).url == url && PostRequest(url, data, headers).url == url
    ensures PutRequest(url, data, headers).url == url && DeleteRequest(url, headers).url == url
    ensures GetRequest(url, params, headers).headers == headers && PostRequest(url, data, headers).headers == headers
    ensures PutRequest(url, data, headers).headers == headers && DeleteRequest(url, headers).headers == headers
  {
  }

  /** The client keeps the data it was answered with: a request through `get` yields
      exactly the body the library returned. */
  lemma GetReturnsBody(url: string, params: Option<Params>, headers: Option<Headers>,
                       transport: HttpRequest -> Outcome)
    requires transport(GetRequest(url, params, headers)).Answered?
    ensures Request(GetRequest(url, params, headers), transport)
         == Ok(transport(GetRequest(url, params, headers)).response)
  {
  }
}
