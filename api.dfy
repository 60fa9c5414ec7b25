/** The fetch helpers (src/utils/api.ts): the base URL, the classification
    of a response into a value or an `Error`, and the request composition
    of `apiRequest`. The network itself is a parameter. */
module Api {
  import opened Types

  const DefaultBaseUrl := "http://localhost:3000"
  const GenericErrorMessage := "An error occurred"
  const InvalidFormatMessage := "Invalid response format from server"
  const NetworkErrorMessage := "Network error occurred"

  /** `BASE_URL`: the configured URL unless it is missing or empty. */
  function BaseUrl(configured: Option<string>): (url: string)
    ensures configured.Some? && configured.value != "" ==> url == configured.value
    ensures configured.None? || configured.value == "" ==> url == DefaultBaseUrl
    ensures url != ""
  {
    match configured
    case Some(u) => if u != "" then u else DefaultBaseUrl
    case None => DefaultBaseUrl
  }

  /** A parsed JSON body: `null`, an object (its properties), or any other
      value (array, string, number, boolean). */
  datatype Json = JNull | JObject(fields: map<string, string>) | JOther(text: string)

  /** A fetch `Response`, reduced to what `handleResponse` reads; `body` is
      None when `response.json()` rejects. */
  datatype FetchResponse = FetchResponse(ok: bool, statusText: string, body: Option<Json>)

  /** The error message for a non-ok response. `errorData.message` on a
      `null` body throws inside the `try`, so it takes the status-text path
      like an unparseable body. */
  function ErrorMessage(statusText: string, body: Option<Json>): (msg: string)
    ensures msg != ""
    ensures body.Some? && body.value.JObject? && "message" in body.value.fields && body.value.fields["message"] != "" ==>
              msg == body.value.fields["message"]
    ensures body.Some? && body.value.JObject? && ("message" !in body.value.fields || body.value.fields["message"] == "") ==>
              msg == GenericErrorMessage
    ensures body.Some? && body.value.JOther? ==> msg == GenericErrorMessage
    ensures (body.None? || body == Some(JNull)) && statusText != "" ==> msg == statusText
    ensures (body.None? || body == Some(JNull)) && statusText == "" ==> msg == GenericErrorMessage
  {
    var errorMessage := GenericErrorMessage;
    match body
    case Some(JObject(fields)) =>
      if "message" in fields && fields["message"] != "" then fields["message"] else errorMessage
    case Some(JOther(_)) => errorMessage
    case _ => if statusText != "" then statusText else errorMessage
  }

  /** `handleResponse`: a non-ok response throws an `Error` with the
      message above; an ok one yields its parsed body, or throws when the
      body does not parse. */
  function HandleResponse(response: FetchResponse): (r: Outcome<Json>)
    ensures r.Success? <==> response.ok && response.body.Some?
    ensures r.Success? ==> r.data == response.body.value
    ensures r.Failure? ==> r.thrown.PlainError?
    ensures !response.ok ==> r == Failure(PlainError(ErrorMessage(response.statusText, response.body)))
    ensures response.ok && response.body.None? ==> r == Failure(PlainError(InvalidFormatMessage))
  {
    if !response.ok then Failure(PlainError(ErrorMessage(response.statusText, response.body)))
    else match response.body
      case Some(data) => Success(data)
      case None => Failure(PlainError(InvalidFormatMessage))
  }

  /** The part of `RequestInit` the helper reads or sets. */
  datatype RequestInit = RequestInit(
    httpMethod: Option<string>,
    body: Option<string>,
    credentials: Option<string>,
    headers: map<string, string>)

  /** The default when the caller passes no options. */
  const NoOptions := RequestInit(None, None, None, map[])

  datatype Request = Request(url: string, init: RequestInit)

  /** A call without options sends a bare request: no method or body of
      its own, credentials included, and the JSON content type as its only
      header. */
  lemma BuildRequestWithoutOptions(configured: Option<string>, endpoint: string)
    ensures BuildRequest(configured, endpoint, NoOptions)
            == Request(BaseUrl(configured) + endpoint,
                       RequestInit(None, None, Some("include"), map["Content-Type" := "application/json"]))
  {
  }

  /** The `fetch` arguments `apiRequest` builds: the endpoint appended to
      the base URL, the caller's options with credentials forced to
      "include", and a JSON content type that the caller's own headers may
      override. */
  function BuildRequest(configured: Option<string>, endpoint: string, options: RequestInit): (req: Request)
    ensures req.url == BaseUrl(configured) + endpoint
    ensures req.init.httpMethod == options.httpMethod && req.init.body == options.body
    ensures req.init.credentials == Some("include")
    ensures req.init.headers.Keys == options.headers.Keys + {"Content-Type"}
    ensures forall h :: h in options.headers ==> req.init.headers[h] == options.headers[h]
    ensures "Content-Type" !in options.headers ==> req.init.headers["Content-Type"] == "application/json"
  {
    Request(BaseUrl(configured) + endpoint,
            options.(credentials := Some("include"),
                     headers := map["Content-Type" := "application/json"] + options.headers))
  }

  /** How one call to `fetch` settles. */
  datatype FetchResult = Responded(response: FetchResponse) | Rejected(thrown: Thrown)

  /** `apiRequest`: the outcome of fetching the built request and
      classifying the response. Whatever is thrown on the way out is an
      `Error`: one that already is passes unchanged, anything else becomes
      "Network error occurred". */
  function ApiRequest(configured: Option<string>, endpoint: string, options: RequestInit,
                      fetch: Request -> FetchResult): (r: Outcome<Json>)
    ensures r.Failure? ==> IsErrorInstance(r.thrown)
    ensures fetch(BuildRequest(configured, endpoint, options)).Responded? ==>
              r == HandleResponse(fetch(BuildRequest(configured, endpoint, options)).response)
    ensures fetch(BuildRequest(configured, endpoint, options)).Rejected? ==>
              var t := fetch(BuildRequest(configured, endpoint, options)).thrown;
              r == Failure(if IsErrorInstance(t) then t else PlainError(NetworkErrorMessage))
  {
    var settled := match fetch(BuildRequest(configured, endpoint, options))
      case Responded(response) => HandleResponse(response)
      case Rejected(t) => Failure(t);
    match settled
    case Success(_) => settled
    case Failure(t) => if IsErrorInstance(t) then settled else Failure(PlainError(NetworkErrorMessage))
  }
}
