/** The client core: authenticated request construction, execution through
    the injected HTTP client, and the classification of every response into
    exactly one outcome. */
module Client {
  import opened Wrappers
  import Numeric

  /** `reqwest::StatusCode` holds a code from 100 to 999. */
  type StatusCode = s: int | 100 <= s <= 999 witness 200

  // Status classes of section 15 of RFC 9110.
  predicate IsSuccess(s: StatusCode) { 200 <= s <= 299 }
  predicate IsClientError(s: StatusCode) { 400 <= s <= 499 }
  predicate IsServerError(s: StatusCode) { 500 <= s <= 599 }

  /** 401 Unauthorized (RFC 9110 section 15.5.2) and 403 Forbidden
      (section 15.5.4). */
  predicate IsAuthFailure(s: StatusCode) { s == 401 || s == 403 }

  /** Reading the body as text either gives the text or fails. */
  datatype Body = Text(text: string) | ReadFailure

  /** A received response; `reason` is the canonical reason phrase that
      `StatusCode`'s Display prints after the code. */
  datatype Response = Response(status: StatusCode, reason: string, body: Body)

  /** What `http_client.execute` gives back. */
  datatype SendOutcome = SendFailure | Sent(response: Response)

  datatype ApiError =
    | RequestError
    | ResponseError
    | Unauthorized
    | HttpClientError(status: StatusCode, body: string)
    | HttpServerError(status: StatusCode, body: string)
    | UnexpectedResponse(status: StatusCode, message: string)
    | DeserializationError(message: string)

  type ApiResponse<T> = Result<Option<T>, ApiError>

  datatype Verb = GET | POST

  datatype Header = Header(name: string, value: string)

  datatype HttpRequest = HttpRequest(
    verb: Verb,
    url: string,
    query: map<string, string>,
    headers: seq<Header>,
    body: Option<string>)

  /** The injected transport: what executing a request yields. */
  type HttpClient = HttpRequest -> SendOutcome

  /** `response.text().await.unwrap_or_default()`. */
  function BodyOrEmpty(b: Body): (t: string)
    ensures b.Text? ==> t == b.text
    ensures b.ReadFailure? ==> t == ""
  {
    match b
    case Text(t) => t
    case ReadFailure => ""
  }

  /** A successful response's body: empty means "successful but nothing to
      return", anything else must decode into the endpoint's output type. */
  function MakeApiResponse<T>(json: string, decode: string -> Result<T, string>): (r: ApiResponse<T>)
    ensures r == Ok(None) <==> json == ""
    ensures json != "" && decode(json).Ok? ==> r == Ok(Some(decode(json).value))
    ensures json != "" && decode(json).Err? ==> r == Err(DeserializationError(decode(json).error))
  {
    if |json| == 0 then Ok(None)
    else
      match decode(json)
      case Ok(data) => Ok(Some(data))
      case Err(e) => Err(DeserializationError(e))
  }

  /** The classification of a received response. Every status falls into
      exactly one branch, each branch yields its own kind of outcome, and
      the status itself decides which. */
  function ProcessResponse<T>(response: Response, decode: string -> Result<T, string>): (r: ApiResponse<T>)
    ensures r.Ok? ==> IsSuccess(response.status)
    ensures IsSuccess(response.status) && response.body.Text? ==>
      r == MakeApiResponse(response.body.text, decode)
    ensures r == Err(ResponseError) <==> IsSuccess(response.status) && response.body.ReadFailure?
    ensures r == Err(Unauthorized) <==> IsAuthFailure(response.status)
    ensures r.Err? && r.error.DeserializationError? ==> IsSuccess(response.status)
    ensures r.Err? && r.error.HttpClientError? <==>
      IsClientError(response.status) && !IsAuthFailure(response.status)
    ensures r.Err? && r.error.HttpClientError? ==>
      r.error == HttpClientError(response.status, BodyOrEmpty(response.body))
    ensures r.Err? && r.error.HttpServerError? <==> IsServerError(response.status)
    ensures r.Err? && r.error.HttpServerError? ==>
      r.error == HttpServerError(response.status, BodyOrEmpty(response.body))
    ensures r.Err? && r.error.UnexpectedResponse? <==>
      !IsSuccess(response.status) && !IsClientError(response.status) && !IsServerError(response.status)
    ensures r.Err? && r.error.UnexpectedResponse? ==>
      r.error.status == response.status &&
      r.error.message == UnexpectedMessage(response)
    ensures r != Err(RequestError)
  {
    var status := response.status;
    if IsSuccess(status) then
      match response.body
      case ReadFailure => Err(ResponseError)
      case Text(json) => MakeApiResponse(json, decode)
    else if status == 401 || status == 403 then Err(Unauthorized)
    else if IsClientError(status) then Err(HttpClientError(status, BodyOrEmpty(response.body)))
    else if IsServerError(status) then Err(HttpServerError(status, BodyOrEmpty(response.body)))
    else Err(UnexpectedResponse(status, UnexpectedMessage(response)))
  }

  /** "Unexpected Response [<code> <reason>]: <body>". */
  function UnexpectedMessage(response: Response): (m: string)
    ensures |m| >= 21 && m[..21] == "Unexpected Response ["
  {
    "Unexpected Response [" + Numeric.NatToDecimal(response.status) + " " + response.reason + "]: "
      + BodyOrEmpty(response.body)
  }

  /** The outcome of one send: a transport failure is a RequestError and
      nothing else is; a received response is classified. */
  function Execute<T>(sent: SendOutcome, decode: string -> Result<T, string>): (r: ApiResponse<T>)
    ensures r == Err(RequestError) <==> sent.SendFailure?
    ensures sent.Sent? ==> r == ProcessResponse(sent.response, decode)
  {
    match sent
    case SendFailure => Err(RequestError)
    case Sent(response) => ProcessResponse(response, decode)
  }

  /** The value of the first header called `name`. */
  function HeaderValue(headers: seq<Header>, name: string): Option<string> {
    if headers == [] then None
    else if headers[0].name == name then Some(headers[0].value)
    else HeaderValue(headers[1..], name)
  }

  /** `Client::builder`: appends the bearer credential of section 2.1 of
      RFC 6750 and the JSON content type, and changes nothing else. */
  function Authorize(token: string, request: HttpRequest): (r: HttpRequest)
    ensures r.(headers := request.headers) == request
    ensures |r.headers| == |request.headers| + 2 && r.headers[..|request.headers|] == request.headers
    ensures HeaderValue(request.headers, "Authorization").None? ==>
      HeaderValue(r.headers, "Authorization") == Some("Bearer " + token)
    ensures HeaderValue(request.headers, "Content-Type").None? ==>
      HeaderValue(r.headers, "Content-Type") == Some("application/json")
  {
    var added := [Header("Authorization", "Bearer " + token), Header("Content-Type", "application/json")];
    HeaderAppend(request.headers, added, "Authorization");
    HeaderAppend(request.headers, added, "Content-Type");
    request.(headers := request.headers + added)
  }

  lemma {:induction false} HeaderAppend(hs: seq<Header>, more: seq<Header>, name: string)
    ensures HeaderValue(hs, name).None? ==> HeaderValue(hs + more, name) == HeaderValue(more, name)
  {
    if hs != [] {
      assert (hs + more)[0] == hs[0];
      assert (hs + more)[1..] == hs[1..] + more;
      HeaderAppend(hs[1..], more, name);
    } else {
      assert hs + more == more;
    }
  }

  class Client {
    /** Base URL of the server, ending in `/rest`. */
    var basePath: string
    var httpClient: HttpClient
    var apiToken: string

    /** `client::new`; `httpClient` stands for `reqwest::Client::new()`. */
    constructor New(basePath: string, apiToken: string, httpClient: HttpClient)
      ensures this.basePath == basePath && this.apiToken == apiToken
      ensures this.httpClient == httpClient
    {
      this.basePath := basePath;
      this.apiToken := apiToken;
      this.httpClient := httpClient;
    }

    /** The derived `Clone`: a new client with the same configuration. */
    method Clone() returns (c: Client)
      ensures fresh(c)
      ensures c.basePath == basePath && c.apiToken == apiToken && c.httpClient == httpClient
    {
      c := new Client.New(basePath, apiToken, httpClient);
    }

    /** Replaces the transport; the base path and the credential stay. */
    method WithHttpClient(httpClient: HttpClient)
      modifies this
      ensures this.httpClient == httpClient
      ensures basePath == old(basePath) && apiToken == old(apiToken)
    {
      this.httpClient := httpClient;
    }

    /** The request `get` issues: the URI joined to the base path with one
        slash, the query pairs of `params` (none for None), no body, and
        the two headers. */
    function GetRequest(uri: string, params: Option<map<string, string>>): (r: HttpRequest)
      reads this
      ensures r.verb == GET && r.url == basePath + "/" + uri && r.body == None
      ensures r.query == params.GetOr(map[])
      ensures HeaderValue(r.headers, "Authorization") == Some("Bearer " + apiToken)
      ensures HeaderValue(r.headers, "Content-Type") == Some("application/json")
    {
      Authorize(apiToken, HttpRequest(GET, basePath + "/" + uri, params.GetOr(map[]), [], None))
    }

    /** The request `post` issues: the same URL rule and headers, no query,
        and the caller's body unchanged. */
    function PostRequest(uri: string, body: string): (r: HttpRequest)
      reads this
      ensures r.verb == POST && r.url == basePath + "/" + uri && r.body == Some(body)
      ensures r.query == map[]
      ensures HeaderValue(r.headers, "Authorization") == Some("Bearer " + apiToken)
      ensures HeaderValue(r.headers, "Content-Type") == Some("application/json")
    {
      Authorize(apiToken, HttpRequest(POST, basePath + "/" + uri, map[], [], Some(body)))
    }

    /** `Client::get`: build, execute, classify. */
    method Get<T>(uri: string, params: Option<map<string, string>>, decode: string -> Result<T, string>)
      returns (r: ApiResponse<T>)
      ensures r == Execute(httpClient(GetRequest(uri, params)), decode)
    {
      var url := basePath + "/" + uri;
      var request := HttpRequest(GET, url, params.GetOr(map[]), [], None);
      request := Authorize(apiToken, request);
      var sent := httpClient(request);
      if sent.SendFailure? {
        return Err(RequestError);
      }
      r := ProcessResponse(sent.response, decode);
    }

    /** `Client::post`: build, execute, classify. */
    method Post<T>(uri: string, body: string, decode: string -> Result<T, string>)
      returns (r: ApiResponse<T>)
      ensures r == Execute(httpClient(PostRequest(uri, body)), decode)
    {
      var url := basePath + "/" + uri;
      var request := HttpRequest(POST, url, map[], [], Some(body));
      request := Authorize(apiToken, request);
      var sent := httpClient(request);
      if sent.SendFailure? {
        return Err(RequestError);
      }
      r := ProcessResponse(sent.response, decode);
    }
  }
}
