/** The client of relateiq/relateiq.go together with the accounts service of
    relateiq/accounts.go: request construction, the response check, error
    values, the send-and-decode step and the account list. The transport is a
    parameter `network`: what the client's HTTP client answers to a request. */
module RelateIQ {
  import opened Wrappers
  import opened Text
  import opened Query
  import Timestamps

  const LIBRARY_VERSION: string := "0.0.1"
  const USER_AGENT: string := "go-relateiq/" + LIBRARY_VERSION

  /** API credentials, sent with HTTP Basic authentication. */
  datatype Credentials = Credentials(APIKey: string, APISecret: string)

  /** A URL; `Query` holds the parameters of its query string. */
  datatype URL = URL(Scheme: string, Host: string, Path: string, Query: Values)

  const DEFAULT_BASE_URL: URL := URL("https", "api.relateiq.com", "/v2/", map[])

  /** An `*http.Client`; `DefaultClient` is `http.DefaultClient`. */
  datatype HttpClient = DefaultClient | Supplied(id: nat)

  /** An `*http.Request`. `BasicAuth` is the pair `SetBasicAuth` puts in the Authorization header. */
  datatype Request = Request(
    Method: string,
    URL: URL,
    Body: string,
    BasicAuth: Option<Credentials>,
    Header: map<string, seq<string>>)

  /** A request body value: its JSON encoding, or the encoder's refusal of it. */
  datatype JsonBody = Encodes(json: string) | Unencodable

  /** A non-nil value passed as `opt`: one of the two option structs, or a value of another kind. */
  datatype QueryOptions =
    | ListQuery(list: ListOptions)
    | AccountsQuery(accounts: AccountsListOptions)
    | NonStruct

  /** `query.Values(opt)`: the parameters of an option struct; go-querystring refuses (None)
      any value that is not a struct. */
  function QueryValues(opt: QueryOptions): Option<Values>
  {
    match opt
    case ListQuery(o) => Some(ListOptionsValues(o))
    case AccountsQuery(o) => Some(AccountsListOptionsValues(o))
    case NonStruct => None
  }

  /** Why `NewRequest` could not build a request. */
  datatype RequestError = QueryEncodingError | BodyEncodingError | InvalidMethod(name: string)

  /** A token character of an HTTP method name (section 3.2.6 of RFC 7230). */
  predicate IsTokenChar(c: char)
  {
    ('a' <= c <= 'z') || ('A' <= c <= 'Z') || ('0' <= c <= '9') ||
    c in "!#$%&'*+-.^_`|~"
  }

  predicate ValidMethod(m: string)
  {
    |m| > 0 && forall i :: 0 <= i < |m| ==> IsTokenChar(m[i])
  }

  /** `http.NewRequest` sends an empty method as GET. */
  function EffectiveMethod(httpMethod: string): string
  {
    if httpMethod == "" then "GET" else httpMethod
  }

  /** The part of a path up to and including its last '/'. */
  function DirPrefix(s: string): (p: string)
    ensures |p| <= |s| && p == s[..|p|]
    ensures |p| == 0 || p[|p| - 1] == '/'
    ensures forall i :: |p| <= i < |s| ==> s[i] != '/'
    decreases |s|
  {
    if |s| == 0 || s[|s| - 1] == '/' then s else DirPrefix(s[..|s| - 1])
  }

  /** The path of `base.ResolveReference(&url.URL{Path: ref})`: an empty reference keeps the base
      path, an absolute one replaces it, a relative one replaces the last segment of the base
      path (section 5.2.3 of RFC 3986); the result starts with '/'. */
  function ResolvePath(base: string, ref: string): (p: string)
    ensures p == "" || p[0] == '/'
    ensures |ref| > 0 && ref[0] == '/' ==> p == ref
  {
    var full := if ref == "" then base else if ref[0] != '/' then DirPrefix(base) + ref else ref;
    if full == "" then "" else if full[0] == '/' then full else "/" + full
  }

  /** A relative path against a base path that ends in '/' is appended to it. */
  lemma ResolveAppends(base: string, ref: string)
    requires |base| > 0 && base[0] == '/' && base[|base| - 1] == '/'
    requires |ref| > 0 && ref[0] != '/'
    ensures ResolvePath(base, ref) == base + ref
  {
  }

  /** The text of a URL with a scheme and host, as `%v` prints it (without the query string). */
  function URLText(u: URL): string
  {
    u.Scheme + "://" + u.Host + (if |u.Path| > 0 && u.Path[0] != '/' then "/" else "") + u.Path
  }

  /** An `*http.Response` as this client sees it. `ErrorBody` is the `Message` string that reading
      the body and decoding it as an `ErrorResponse` yields (None when the body cannot be read,
      is not JSON, or has no string `Message`); `Payload` is what decoding the body into the
      caller's target of type T yields (None when decoding fails). */
  datatype Response<T> = Response(
    StatusCode: int,
    Request: Request,
    ErrorBody: Option<string>,
    Payload: Option<T>)

  predicate IsSuccess(status: int)
  {
    200 <= status <= 299
  }

  /** An API error: the response that caused it and the message its body carried. */
  datatype ErrorResponse<T> = ErrorResponse(Response: Response<T>, Message: string) {
    /** `"%v %v: %d %v"` of method, URL, status code and message. */
    function Error(): string
    {
      Response.Request.Method + " " + URLText(Response.Request.URL) + ": " +
      Decimal(Response.StatusCode) + " " + Message
    }

    function HTTPStatusCode(): int
    {
      Response.StatusCode
    }
  }

  /** The errors the client returns. */
  datatype Error<T> =
    | RequestFailed(reason: RequestError)
    | TransportError(cause: string)
    | ApiError(response: ErrorResponse<T>)
    | DecodeError(Method: string, URL: URL)

  /** What the HTTP client answers to one request: a transport failure or a response. */
  datatype RoundTrip<T> = TransportFailed(cause: string) | Delivered(response: Response<T>)

  /** The results of `Do`: the response, the error, and what was stored into the target. */
  datatype DoResult<T> = DoResult(Response: Option<Response<T>>, Err: Option<Error<T>>, Decoded: Option<T>)

  /** `CheckResponse` as intended: no error for a 2xx status; otherwise always an `ErrorResponse`
      carrying the response, with the body's message when it has one and the empty message when it
      does not. The body cannot touch the carried response (`CheckResponseAsWritten` is the code's
      own behaviour, in which it can). */
  function CheckResponse<T>(r: Response<T>): (e: Option<ErrorResponse<T>>)
    ensures e.None? <==> IsSuccess(r.StatusCode)
    ensures e.Some? ==> e.value.Response == r
    ensures e.Some? && r.ErrorBody.None? ==> e.value.Message == ""
    ensures e.Some? && r.ErrorBody.Some? ==> e.value.Message == r.ErrorBody.value
  {
    if IsSuccess(r.StatusCode) then None
    else Some(ErrorResponse(r, r.ErrorBody.GetOr("")))
  }

  /** The status an API error reports is the status of the response it was built from. */
  lemma ErrorStatus<T>(r: Response<T>)
    requires !IsSuccess(r.StatusCode)
    ensures CheckResponse(r).Some? && CheckResponse(r).value.HTTPStatusCode() == r.StatusCode
  {
  }

  /** The error text is method, URL, status and message in that order: the status can be read back
      from the text, and the text ends with the message. */
  lemma ErrorLayout<T>(e: ErrorResponse<T>)
    ensures var p := e.Response.Request.Method + " " + URLText(e.Response.Request.URL) + ": ";
      var d := Decimal(e.Response.StatusCode);
      var s := e.Error();
      |s| == |p| + |d| + 1 + |e.Message| &&
      s[..|p|] == p &&
      ParseInteger(s[|p|..|p| + |d|]) == Some(e.HTTPStatusCode()) &&
      s[|p| + |d|] == ' ' &&
      s[|p| + |d| + 1..] == e.Message
  {
    var p := e.Response.Request.Method + " " + URLText(e.Response.Request.URL) + ": ";
    var d := Decimal(e.Response.StatusCode);
    var s := e.Error();
    assert s == p + d + " " + e.Message;
    assert s[|p|..|p| + |d|] == d;
    DecimalRoundTrip(e.Response.StatusCode);
  }

  /** What the `Response` member of an error body (its key matched case-insensitively) does when
      the body is decoded into `&ErrorResponse{Response: r}`, whose pointer starts out aliasing `r`:
      no such member leaves the pointer alone; `null` sets it to nil; an object is decoded into
      `*r` itself, where a `StatusCode` member overwrites the status and a `"Body": null` member
      sets the body to nil. */
  datatype ResponseMember =
    | NoResponseMember
    | NullResponse
    | ResponseObject(StatusCode: Option<int>, NullBody: bool)

  /** What `CheckResponse` as written leaves behind for a non-2xx status: the error's `Response`
      field (None for nil) and `Message`, the shared response `*r` that `Do` goes on to return,
      and whether the decode set that response's body to nil. */
  datatype CheckedAsWritten<T> = CheckedAsWritten(
    Carried: Option<Response<T>>,
    Message: string,
    Shared: Response<T>,
    BodyNil: bool)

  /** `CheckResponse` as relateiq/relateiq.go writes it, where the error body is decoded into a
      struct whose exported `Response` field is itself a decode target. */
  function CheckResponseAsWritten<T>(r: Response<T>, m: ResponseMember): (c: Option<CheckedAsWritten<T>>)
    ensures c.None? <==> IsSuccess(r.StatusCode)
    ensures c.Some? ==> c.value.Message == r.ErrorBody.GetOr("")
    ensures c.Some? ==> (c.value.Carried.None? <==> m.NullResponse?)
    ensures c.Some? && c.value.Carried.Some? ==> c.value.Carried.value == c.value.Shared
    ensures c.Some? ==> c.value.Shared.(StatusCode := r.StatusCode) == r
    ensures c.Some? ==> (c.value.BodyNil <==> m.ResponseObject? && m.NullBody)
    ensures c.Some? && c.value.Shared.StatusCode != r.StatusCode ==> m.ResponseObject? && m.StatusCode.Some?
    ensures c.Some? && m.ResponseObject? && m.StatusCode.Some? ==> c.value.Shared.StatusCode == m.StatusCode.value
  {
    if IsSuccess(r.StatusCode) then None
    else
      var msg := r.ErrorBody.GetOr("");
      match m
      case NoResponseMember => Some(CheckedAsWritten(Some(r), msg, r, false))
      case NullResponse => Some(CheckedAsWritten(None, msg, r, false))
      case ResponseObject(status, nullBody) =>
        var shared := r.(StatusCode := status.GetOr(r.StatusCode));
        Some(CheckedAsWritten(Some(shared), msg, shared, nullBody))
  }

  /** Without a `Response` member in the body the code agrees with the intended `CheckResponse`. */
  lemma AsWrittenAgrees<T>(r: Response<T>)
    ensures var c := CheckResponseAsWritten(r, NoResponseMember);
      (c.None? <==> CheckResponse(r).None?) &&
      (c.Some? ==> c.value == CheckedAsWritten(Some(CheckResponse(r).value.Response),
                                                CheckResponse(r).value.Message, r, false))
  {
  }

  /** A 404 whose body is `{"Response":{"StatusCode":200}}`: an API error is returned, but the
      response it carries, which is also the response `Do` returns, now reports the success status
      200, where the intended error reports 404. */
  lemma StatusRewriteFinding<T>(r: Response<T>)
    requires r.StatusCode == 404
    ensures var c := CheckResponseAsWritten(r, ResponseObject(Some(200), false));
      c.Some? && c.value.Carried == Some(c.value.Shared) &&
      c.value.Shared.StatusCode == 200 && IsSuccess(c.value.Shared.StatusCode)
    ensures CheckResponse(r).Some? && CheckResponse(r).value.HTTPStatusCode() == 404
  {
  }

  /** A 404 whose body is `{"Response":null}`: the error carries no response, so its `Error()`
      and `HTTPStatusCode()` dereference nil, where the intended error carries the response. */
  lemma NilResponseFinding<T>(r: Response<T>)
    requires r.StatusCode == 404
    ensures var c := CheckResponseAsWritten(r, NullResponse);
      c.Some? && c.value.Carried.None?
    ensures CheckResponse(r).Some? && CheckResponse(r).value.Response == r
  {
  }

  /** A 404 whose body is `{"Response":{"Body":null}}`: the shared response loses its body, so
      `Do` and `List` hand their caller a response whose `Body` is nil, and a caller that reads or
      closes it dereferences nil. (The `Close` that `Do` defers is not affected: its receiver was
      bound when the `defer` ran.) */
  lemma NilBodyFinding<T>(r: Response<T>)
    requires r.StatusCode == 404
    ensures var c := CheckResponseAsWritten(r, ResponseObject(None, true));
      c.Some? && c.value.BodyNil && c.value.Shared == r
  {
  }

  /** An account (relateiq/accounts.go). */
  datatype Account = Account(ID: string, Name: string, ModifiedDate: Timestamps.Time)

  /** What the body of an account list decodes to into `*struct{ Objects []*Account }`: JSON
      `null` leaves the pointer nil; an object gives its `objects` array. */
  datatype ListBody = NullEnvelope | Envelope(objects: seq<Account>)

  /** The results of `List`, or the nil-pointer panic of reading `objects` from a nil envelope. */
  datatype ListOutcome =
    | Listed(Accounts: seq<Account>, Response: Option<Response<ListBody>>, Err: Option<Error<ListBody>>)
    | NilDereference

  class Client {
    var BaseURL: URL
    var UserAgent: string
    const cred: Credentials
    const httpClient: HttpClient
    var Accounts: AccountsService?

    /** `NewClient`: a nil HTTP client stands for the default one; the base URL and user agent
        get their defaults; the accounts service refers back to this client. */
    constructor NewClient(httpClient: Option<HttpClient>, cred: Credentials)
      ensures this.httpClient == (if httpClient.None? then DefaultClient else httpClient.value)
      ensures this.cred == cred
      ensures BaseURL == DEFAULT_BASE_URL && UserAgent == USER_AGENT
      ensures Accounts != null && fresh(Accounts) && Accounts.client == this
    {
      this.httpClient := httpClient.GetOr(DefaultClient);
      this.cred := cred;
      BaseURL := DEFAULT_BASE_URL;
      UserAgent := USER_AGENT;
      Accounts := null;
      new;
      Accounts := new AccountsService(this);
    }

    /** `NewRequest`: resolve the path against the base URL, encode the options as the query when
        options are given, encode the body, then build the request with the stored credentials
        and the current user agent. The first of these steps to fail gives the error. */
    function NewRequest(httpMethod: string, urlPath: string, opt: Option<QueryOptions>, body: Option<JsonBody>)
      : (r: Result<Request, RequestError>)
      reads this
      ensures opt == Some(NonStruct) ==> r == Failure(QueryEncodingError)
      ensures opt != Some(NonStruct) && body == Some(Unencodable) ==> r == Failure(BodyEncodingError)
      ensures opt != Some(NonStruct) && body != Some(Unencodable) && !ValidMethod(EffectiveMethod(httpMethod)) ==>
        r == Failure(InvalidMethod(EffectiveMethod(httpMethod)))
      ensures r.Success? <==>
        opt != Some(NonStruct) && body != Some(Unencodable) && ValidMethod(EffectiveMethod(httpMethod))
      ensures r.Success? ==> r.value.BasicAuth == Some(cred)
      ensures r.Success? ==> r.value.Header == map["User-Agent" := [UserAgent]]
      ensures r.Success? ==> r.value.Method == EffectiveMethod(httpMethod)
      ensures r.Success? ==> r.value.URL.Scheme == BaseURL.Scheme && r.value.URL.Host == BaseURL.Host
      ensures r.Success? ==> r.value.URL.Path == ResolvePath(BaseURL.Path, urlPath)
      ensures r.Success? && opt.Some? ==> r.value.URL.Query == QueryValues(opt.value).value
      ensures r.Success? && opt.None? && urlPath != "" ==> r.value.URL.Query == map[]
      ensures r.Success? && body.None? ==> r.value.Body == ""
      ensures r.Success? && body.Some? ==> r.value.Body == body.value.json + "\n"
    {
      var resolved := URL(BaseURL.Scheme, BaseURL.Host, ResolvePath(BaseURL.Path, urlPath),
                          if urlPath == "" then BaseURL.Query else map[]);
      var query: Option<Values> := if opt.Some? then QueryValues(opt.value) else Some(resolved.Query);
      var buf: Option<string> :=
        match body
        case None => Some("")
        case Some(Encodes(json)) => Some(json + "\n")
        case Some(Unencodable) => None;
      var m := EffectiveMethod(httpMethod);
      if query.None? then Failure(QueryEncodingError)
      else if buf.None? then Failure(BodyEncodingError)
      else if !ValidMethod(m) then Failure(InvalidMethod(m))
      else Success(Request(m, resolved.(Query := query.value), buf.value, Some(cred), map["User-Agent" := [UserAgent]]))
    }

    /** `Do`: send the request through this client's HTTP client and sort out the answer. */
    function Do<T>(req: Request, decodeInto: bool, network: (HttpClient, Request) -> RoundTrip<T>)
      : (out: DoResult<T>)
      ensures var trip := network(httpClient, req);
        trip.TransportFailed? ==> out.Response.None? && out.Err == Some(TransportError(trip.cause))
      ensures var trip := network(httpClient, req);
        trip.Delivered? && !IsSuccess(trip.response.StatusCode) ==>
          out.Response == Some(trip.response) &&
          out.Err == Some(ApiError(CheckResponse(trip.response).value)) &&
          out.Err.value.response.HTTPStatusCode() == trip.response.StatusCode
      ensures var trip := network(httpClient, req);
        trip.Delivered? && IsSuccess(trip.response.StatusCode) && decodeInto && trip.response.Payload.None? ==>
          out.Response.None? && out.Err == Some(DecodeError(req.Method, req.URL))
      ensures var trip := network(httpClient, req);
        out.Err.None? <==>
          trip.Delivered? && IsSuccess(trip.response.StatusCode) && (decodeInto ==> trip.response.Payload.Some?)
      ensures var trip := network(httpClient, req);
        out.Err.None? ==> out.Response == Some(trip.response)
      ensures var trip := network(httpClient, req);
        out.Decoded == (if out.Err.None? && decodeInto then trip.response.Payload else None)
    {
      match network(httpClient, req)
      case TransportFailed(cause) => DoResult(None, Some(TransportError(cause)), None)
      case Delivered(resp) =>
        match CheckResponse(resp)
        case Some(e) => DoResult(Some(resp), Some(ApiError(e)), None)
        case None =>
          if !decodeInto then DoResult(Some(resp), None, None)
          else
            match resp.Payload
            case None => DoResult(None, Some(DecodeError(req.Method, req.URL)), None)
            case Some(p) => DoResult(Some(resp), None, Some(p))
    }
  }

  class AccountsService {
    const client: Client

    constructor (c: Client)
      ensures client == c
    {
      client := c;
    }

    /** `List`: GET "accounts" with the options as query; no accounts and the error passed
        through when building or sending fails; otherwise the envelope's `objects`. */
    function List(opt: AccountsListOptions, network: (HttpClient, Request) -> RoundTrip<ListBody>)
      : (out: ListOutcome)
      reads client
      ensures out.Listed? && out.Err.Some? ==> out.Accounts == [] && !out.Err.value.RequestFailed?
      ensures var built := client.NewRequest("GET", "accounts", Some(AccountsQuery(opt)), None);
        built.Success? &&
        var d := client.Do(built.value, true, network);
        (d.Err.Some? ==> out == Listed([], d.Response, d.Err)) &&
        (d.Err.None? ==> (d.Decoded.Some? &&
          (out.NilDereference? <==> d.Decoded.value.NullEnvelope?) &&
          (d.Decoded.value.Envelope? ==> out == Listed(d.Decoded.value.objects, d.Response, None))))
    {
      var built := client.NewRequest("GET", "accounts", Some(AccountsQuery(opt)), None);
      // Building this request cannot fail (GET is a valid method, there is no body, and typed
      // options always encode), so the early return on a request error is never taken.
      var d := client.Do(built.value, true, network);
      if d.Err.Some? then Listed([], d.Response, d.Err)
      else
        match d.Decoded.value
        case NullEnvelope => NilDereference
        case Envelope(objects) => Listed(objects, d.Response, None)
    }
  }

  /** The options of the account-list test: IDs [a, b], Start 1, Limit 1. */
  const LIST_TEST_OPTIONS: AccountsListOptions := AccountsListOptions(["a", "b"], ListOptions(1, 1))

  /** With the default base URL, listing with the test options builds exactly one GET of
      /v2/accounts with `_ids=a,b`, `_start=1`, `_limit=1`, the client's credentials and its
      user agent. */
  lemma ListRequestVector(c: Client)
    requires c.BaseURL == DEFAULT_BASE_URL
    ensures c.NewRequest("GET", "accounts", Some(AccountsQuery(LIST_TEST_OPTIONS)), None)
      == Success(Request("GET",
                         URL("https", "api.relateiq.com", "/v2/accounts",
                             map["_ids" := "a,b", "_start" := "1", "_limit" := "1"]),
                         "", Some(c.cred), map["User-Agent" := [c.UserAgent]]))
  {
    var q := map["_ids" := "a,b", "_start" := "1", "_limit" := "1"];
    assert QueryValues(AccountsQuery(LIST_TEST_OPTIONS)) == Some(q) by {
      AccountsListOptionsVector();
    }
    assert ValidMethod("GET");
    assert ResolvePath("/v2/", "accounts") == "/v2/accounts" by {
      ResolveAppends("/v2/", "accounts");
    }
    var r := c.NewRequest("GET", "accounts", Some(AccountsQuery(LIST_TEST_OPTIONS)), None);
    assert r.Success?;
    var u := r.value.URL;
    assert u.Path == "/v2/accounts" && u.Query == q && u.Scheme == "https" && u.Host == "api.relateiq.com";
    assert u == URL("https", "api.relateiq.com", "/v2/accounts", q);
    assert r.value == Request("GET", u, "", Some(c.cred), map["User-Agent" := [c.UserAgent]]);
  }

  /** Options with no IDs and zero Start and Limit put no query on the request. */
  lemma EmptyOptionsNoQuery(c: Client)
    ensures var r := c.NewRequest("GET", "accounts", Some(AccountsQuery(AccountsListOptions([], ListOptions(0, 0)))), None);
      r.Success? && r.value.URL.Query == map[]
  {
    EmptyOptionsVector();
    assert ValidMethod("GET");
  }

  /** A 200 answer whose envelope holds one account makes `List` return that account, the
      response and no error. */
  lemma ListSuccessVector(s: AccountsService, network: (HttpClient, Request) -> RoundTrip<ListBody>, a: Account)
    requires s.client.BaseURL == DEFAULT_BASE_URL
    requires var req := s.client.NewRequest("GET", "accounts", Some(AccountsQuery(LIST_TEST_OPTIONS)), None).value;
      network(s.client.httpClient, req) == Delivered(Response(200, req, None, Some(Envelope([a]))))
    ensures var req := s.client.NewRequest("GET", "accounts", Some(AccountsQuery(LIST_TEST_OPTIONS)), None).value;
      s.List(LIST_TEST_OPTIONS, network) == Listed([a], Some(Response(200, req, None, Some(Envelope([a])))), None)
  {
    ListRequestVector(s.client);
  }

  lemma Decimal404()
    ensures Decimal(404) == "404"
  {
    assert Digits(4) == "4";
    assert Digits(40) == "40";
  }

  lemma AccountsURLText()
    ensures URLText(URL("https", "api.relateiq.com", "/v2/accounts", map[])) == "https://api.relateiq.com/v2/accounts"
  {
    assert "https" + "://" == "https://";
    assert "https://" + "api.relateiq.com" == "https://api.relateiq.com";
    assert "https://api.relateiq.com" + "" == "https://api.relateiq.com";
    assert "https://api.relateiq.com" + "/v2/accounts" == "https://api.relateiq.com/v2/accounts";
  }

  lemma NotFoundConcat(u: string, d: string)
    requires u == "https://api.relateiq.com/v2/accounts" && d == "404"
    ensures "GET" + " " + u + ": " + d + " " + "not found" == "GET https://api.relateiq.com/v2/accounts: 404 not found"
  {
    assert "GET" + " " == "GET ";
    assert "GET " + "https://api.relateiq.com/v2/accounts" == "GET https://api.relateiq.com/v2/accounts";
    assert "GET https://api.relateiq.com/v2/accounts" + ": " == "GET https://api.relateiq.com/v2/accounts: ";
    assert "GET https://api.relateiq.com/v2/accounts: " + "404" == "GET https://api.relateiq.com/v2/accounts: 404";
    assert "GET https://api.relateiq.com/v2/accounts: 404" + " " == "GET https://api.relateiq.com/v2/accounts: 404 ";
    assert "GET https://api.relateiq.com/v2/accounts: 404 " + "not found"
      == "GET https://api.relateiq.com/v2/accounts: 404 not found";
  }

  /** The text of a 404 "not found" error on GET https://api.relateiq.com/v2/accounts. */
  lemma NotFoundText<T>(e: ErrorResponse<T>)
    requires e.Response.Request.Method == "GET"
    requires e.Response.Request.URL == URL("https", "api.relateiq.com", "/v2/accounts", map[])
    requires e.Response.StatusCode == 404 && e.Message == "not found"
    ensures e.Error() == "GET https://api.relateiq.com/v2/accounts: 404 not found"
  {
    Decimal404();
    AccountsURLText();
    NotFoundConcat(URLText(e.Response.Request.URL), Decimal(e.Response.StatusCode));
  }

  /** A 404 answer with message "not found" makes `List` return no accounts, the response, and an
      API error with status 404 and that message, whose text is
      "GET https://api.relateiq.com/v2/accounts: 404 not found". */
  lemma ListNotFoundVector(s: AccountsService, network: (HttpClient, Request) -> RoundTrip<ListBody>,
                           payload: Option<ListBody>)
    requires s.client.BaseURL == DEFAULT_BASE_URL
    requires var req := s.client.NewRequest("GET", "accounts", Some(AccountsQuery(AccountsListOptions([], ListOptions(0, 0)))), None).value;
      network(s.client.httpClient, req) == Delivered(Response(404, req, Some("not found"), payload))
    ensures var out := s.List(AccountsListOptions([], ListOptions(0, 0)), network);
      out.Listed? && out.Accounts == [] && out.Response.Some? &&
      out.Err.Some? && out.Err.value.ApiError? &&
      out.Err.value.response.HTTPStatusCode() == 404 &&
      out.Err.value.response.Message == "not found" &&
      out.Err.value.response.Error() == "GET https://api.relateiq.com/v2/accounts: 404 not found"
  {
    var opt := AccountsListOptions([], ListOptions(0, 0));
    var req := s.client.NewRequest("GET", "accounts", Some(AccountsQuery(opt)), None).value;
    EmptyOptionsNoQuery(s.client);
    ResolveAppends("/v2/", "accounts");
    assert req.URL == URL("https", "api.relateiq.com", "/v2/accounts", map[]);
    var resp := Response(404, req, Some("not found"), payload);
    var d := s.client.Do(req, true, network);
    assert d.Err == Some(ApiError(ErrorResponse(resp, "not found")));
    NotFoundText(ErrorResponse(resp, "not found"));
  }
}
