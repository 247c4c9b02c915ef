/** The request builder, the decode step and the error test shared by every
    endpoint wrapper (src/utils/Http.ts). */
module Http {
  import opened Wrappers
  import opened JsRuntime

  // ---------------------------------------------------------------------
  // Headers
  // ---------------------------------------------------------------------

  const Authorization := "authorization"

  /** The eight pairs getHeaders sets on every request. */
  const FixedHeaders: map<string, string> := map[
    "glovo-language-code" := "pl",
    "glovo-app-type" := "courier",
    "glovo-app-source" := "app-store",
    "glovo-app-version" := "2.175.0",
    "glovo-api-version" := "8",
    "glovo-app-platform" := "iOS",
    "user-agent" := "Glover/15364 CFNetwork/1404.0.5 Darwin/22.3.0",
    "content-type" := "application/json"
  ]

  /** The header map getHeaders(token) produces; None is a null token. */
  function HeadersFor(token: Option<string>): (h: map<string, string>)
    ensures forall name :: name in FixedHeaders ==> name in h && h[name] == FixedHeaders[name]
    ensures Authorization in h <==> token.Some?
    ensures token.Some? ==> h[Authorization] == token.value
    ensures h.Keys == FixedHeaders.Keys + (if token.Some? then {Authorization} else {})
  {
    if token.Some? then FixedHeaders[Authorization := token.value] else FixedHeaders
  }

  /** The nine header names are distinct, so there are eight entries without a
      token and nine with one. */
  lemma HeaderCount(token: Option<string>)
    ensures Authorization !in FixedHeaders
    ensures |FixedHeaders| == 8
    ensures |HeadersFor(token)| == if token.Some? then 9 else 8
  {
    var m0: map<string, string> := map[];
    var m1 := m0["glovo-language-code" := "pl"];
    var m2 := m1["glovo-app-type" := "courier"];
    var m3 := m2["glovo-app-source" := "app-store"];
    var m4 := m3["glovo-app-version" := "2.175.0"];
    var m5 := m4["glovo-api-version" := "8"];
    var m6 := m5["glovo-app-platform" := "iOS"];
    var m7 := m6["user-agent" := "Glover/15364 CFNetwork/1404.0.5 Darwin/22.3.0"];
    var m8 := m7["content-type" := "application/json"];
    assert m8 == FixedHeaders;
    assert |m8| == 8;
  }

  /** The Headers object of the Fetch API, reduced to its entries; `set`
      overwrites the value stored under a name. */
  class Headers {
    var entries: map<string, string>

    constructor ()
      ensures entries == map[]
    {
      entries := map[];
    }

    method Set(name: string, value: string)
      modifies this
      ensures entries == old(entries)[name := value]
    {
      entries := entries[name := value];
    }
  }

  /** getHeaders: a fresh Headers object filled by successive `set` calls,
      the last one only when a token is given. */
  method GetHeaders(token: Option<string>) returns (headers: map<string, string>)
    ensures headers == HeadersFor(token)
  {
    var h := new Headers();
    h.Set("glovo-language-code", "pl");
    h.Set("glovo-app-type", "courier");
    h.Set("glovo-app-source", "app-store");
    h.Set("glovo-app-version", "2.175.0");
    h.Set("glovo-api-version", "8");
    h.Set("glovo-app-platform", "iOS");
    h.Set("user-agent", "Glover/15364 CFNetwork/1404.0.5 Darwin/22.3.0");
    h.Set("content-type", "application/json");
    if token.Some? {
      h.Set(Authorization, token.value);
    }
    headers := h.entries;
  }

  // ---------------------------------------------------------------------
  // Error discriminator
  // ---------------------------------------------------------------------

  /** isHttpError(obj): reads `obj.error` and compares it with `undefined`.
      Reading a property of `undefined` or `null` throws a TypeError; every
      other non-object value has no `error` property. */
  function IsHttpError(obj: JsValue): (r: Result<bool, JsError>)
    ensures r.Failure? <==> (obj.None? || obj.value.JNull?)
    ensures r.Failure? ==> r.error == TypeError
    ensures r == Success(true) <==> obj.Some? && obj.value.JObject? && "error" in obj.value.fields
  {
    match obj
    case None => Failure(TypeError)
    case Some(JNull) => Failure(TypeError)
    case Some(JObject(fields)) => Success("error" in fields)
    case Some(_) => Success(false)
  }

  /** The two edge cases of the `!== undefined` test: an `error` field holding
      null still marks an error, an object without the field does not. */
  lemma ErrorFieldPresence(fields: map<string, Json>)
    ensures IsHttpError(Some(JObject(fields["error" := JNull]))) == Success(true)
    ensures "error" !in fields ==> IsHttpError(Some(JObject(fields))) == Success(false)
  {
  }

  // ---------------------------------------------------------------------
  // Requests
  // ---------------------------------------------------------------------

  datatype Verb = Get | Post | Put
  {
    /** The method string the RequestInit carries: always written in lower case. */
    function Text(): (t: string)
      ensures t in {"get", "post", "put"}
      ensures |t| > 0 && forall k :: 0 <= k < |t| ==> 'a' <= t[k] <= 'z'
    {
      match this
      case Get => "get"
      case Post => "post"
      case Put => "put"
    }
  }

  /** Distinct verbs send distinct method strings. */
  lemma VerbTextInjective(v: Verb, w: Verb)
    ensures v.Text() == w.Text() ==> v == w
  {
  }

  /** An outbound request: method, URL, optional serialised body, headers. */
  datatype Request = Request(verb: Verb, url: string, body: Option<string>, headers: map<string, string>)

  /** get(path, token = null): method get, no body, getHeaders(token). */
  function GetRequest(path: string, token: Option<string> := None): (r: Request)
    ensures r.verb == Get && r.verb.Text() == "get" && r.url == path && r.body.None?
    ensures r.headers == HeadersFor(token)
  {
    Request(Get, path, None, HeadersFor(token))
  }

  /** post(path, body, token = null): method post, body JSON.stringify(body). */
  function PostRequest(path: string, body: Json, stringify: JsonStringifier, token: Option<string> := None): (r: Request)
    ensures r.verb == Post && r.verb.Text() == "post" && r.url == path && r.body == Some(stringify(body))
    ensures r.headers == HeadersFor(token)
  {
    Request(Post, path, Some(stringify(body)), HeadersFor(token))
  }

  /** put(path, body, token = null): method put, body JSON.stringify(body). */
  function PutRequest(path: string, body: Json, stringify: JsonStringifier, token: Option<string> := None): (r: Request)
    ensures r.verb == Put && r.verb.Text() == "put" && r.url == path && r.body == Some(stringify(body))
    ensures r.headers == HeadersFor(token)
  {
    Request(Put, path, Some(stringify(body)), HeadersFor(token))
  }

  /** Whatever the verb, a request carries an authorization header exactly when
      a token is passed, and then the token itself. */
  lemma AuthorizationIffToken(path: string, body: Json, stringify: JsonStringifier, token: Option<string>)
    ensures forall r :: r in [GetRequest(path, token), PostRequest(path, body, stringify, token),
                              PutRequest(path, body, stringify, token)] ==>
      (Authorization in r.headers <==> token.Some?) &&
      (token.Some? ==> r.headers[Authorization] == token.value) &&
      (forall name :: name in FixedHeaders ==> name in r.headers && r.headers[name] == FixedHeaders[name])
  {
  }

  // ---------------------------------------------------------------------
  // Responses and the decode step of `http`
  // ---------------------------------------------------------------------

  /** What fetch resolves to, as far as the client reads it. */
  datatype Reply = Reply(ok: bool, status: int, body: string)

  /** The parsedBody that `http` leaves on a response with this body. */
  function Decoded(body: string, parse: JsonParser): (parsed: JsValue)
    ensures parsed.Some? <==> parse(body).Success?
    ensures parse(body).Success? ==> parsed.value == parse(body).value
  {
    match parse(body)
    case Success(v) => Some(v)
    case Failure(_) => None
  }

  /** A fetched response; parsedBody starts absent. */
  class Response {
    const ok: bool
    const status: int
    const body: string
    var parsedBody: JsValue

    constructor (reply: Reply)
      ensures ok == reply.ok && status == reply.status && body == reply.body
      ensures parsedBody == None
    {
      ok, status, body := reply.ok, reply.status, reply.body;
      parsedBody := None;
    }
  }

  /** The try/catch of `http`: assign the parsed body in place; a parse
      failure is caught and leaves the response as it was. */
  method ParseBody(response: Response, parse: JsonParser)
    modifies response
    ensures response.parsedBody ==
      if parse(response.body).Success? then Some(parse(response.body).value) else old(response.parsedBody)
  {
    var attempt := parse(response.body);
    if attempt.Success? {
      response.parsedBody := Some(attempt.value);
    }
  }

  /** http(request) once fetch has produced `reply`: it never throws, and the
      body is present exactly when it parses. */
  method Receive(reply: Reply, parse: JsonParser) returns (response: Response)
    ensures fresh(response)
    ensures response.ok == reply.ok && response.status == reply.status && response.body == reply.body
    ensures response.parsedBody == Decoded(reply.body, parse)
  {
    response := new Response(reply);
    ParseBody(response, parse);
  }

  // ---------------------------------------------------------------------
  // Endpoint URL templates
  // ---------------------------------------------------------------------

  /** The host every endpoint lives on. */
  const ApiHost := "https://api.glovoapp.com/"

  /** The members of the Endpoints enum. */
  datatype Endpoint =
    | OAuthAuthorize | OAuthRefresh | OAuthRevoke
    | SwkSettings | Me | Profile | Challenges | Deliveries | CheckIn
    | Reports | Calendar | ReportDetails | BookSlot
  {
    /** The member's name in the enum. */
    function Name(): string
    {
      match this
      case OAuthAuthorize => "OAUTH_AUTHORIZE"
      case OAuthRefresh => "OAUTH_REFRESH"
      case OAuthRevoke => "OAUTH_REVOKE"
      case SwkSettings => "SWK_SETTINGS"
      case Me => "ME"
      case Profile => "PROFILE"
      case Challenges => "CHALLENGES"
      case Deliveries => "DELIVERIES"
      case CheckIn => "CHECK_IN"
      case Reports => "REPORTS"
      case Calendar => "CALENDAR"
      case ReportDetails => "REPORT_DETAILS"
      case BookSlot => "BOOK_SLOT"
    }

    /** The member's string value: the URL or URL template, always on the
        API's one host. */
    function Url(): (url: string)
      ensures ApiHost <= url
    {
      match this
      case OAuthAuthorize => ApiHost + "oauth/token"
      case OAuthRefresh => ApiHost + "oauth/refresh"
      case OAuthRevoke => ApiHost + "oauth/revoke"
      case SwkSettings => ApiHost + "v3/couriers/cities/SWK/settings"
      case Me => ApiHost + "v3/couriers/me"
      case Profile => ApiHost + "v3/couriers/profile"
      case Challenges => ApiHost + "courier-challenges/challenges?source=challenges"
      case Deliveries => ApiHost + "v3/couriers/app/deliveries"
      case CheckIn => ApiHost + "v3/couriers/scheduling/check_in_info"
      case Reports => ApiHost + "v3/couriers/summary_periods?limit=[LIMIT]&offset=[OFFSET]"
      case Calendar => ApiHost + "v3/scheduling/calendar"
      case ReportDetails => ApiHost + "robin/couriers/summary_periods/[REPORT_ID]"
      case BookSlot => ApiHost + "v3/scheduling/slots/[SLOT_ID]"
    }
  }

  /** `Endpoints[name]`: the member of that name, or `undefined`. */
  function EndpointNamed(name: string): (r: Option<Endpoint>)
    ensures r.Some? ==> r.value.Name() == name
    ensures r.None? ==> forall e: Endpoint :: e.Name() != name
  {
    if name == "OAUTH_AUTHORIZE" then Some(OAuthAuthorize)
    else if name == "OAUTH_REFRESH" then Some(OAuthRefresh)
    else if name == "OAUTH_REVOKE" then Some(OAuthRevoke)
    else if name == "SWK_SETTINGS" then Some(SwkSettings)
    else if name == "ME" then Some(Me)
    else if name == "PROFILE" then Some(Profile)
    else if name == "CHALLENGES" then Some(Challenges)
    else if name == "DELIVERIES" then Some(Deliveries)
    else if name == "CHECK_IN" then Some(CheckIn)
    else if name == "REPORTS" then Some(Reports)
    else if name == "CALENDAR" then Some(Calendar)
    else if name == "REPORT_DETAILS" then Some(ReportDetails)
    else if name == "BOOK_SLOT" then Some(BookSlot)
    else None
  }

  // ---------------------------------------------------------------------
  // One call of an endpoint wrapper
  // ---------------------------------------------------------------------

  /** Which field of the response a wrapper returns. */
  datatype ReturnField = ParsedBody | OkFlag

  /** What a wrapper does: issue one request, then read one response field. */
  datatype Plan = Plan(request: Request, returned: ReturnField)

  /** What a wrapper resolves to. */
  datatype Outcome = Payload(parsedBody: JsValue) | Flag(ok: bool)

  /** Run a plan against a transport `fetch` and the parser of Response.json():
      the plan's one request is sent, and the field it names is read from the
      reply. */
  function Run(plan: Plan, fetch: Request -> Reply, parse: JsonParser): (out: Outcome)
    ensures out.Payload? <==> plan.returned == ParsedBody
    ensures out.Payload? ==> (out.parsedBody.Some? <==> parse(fetch(plan.request).body).Success?)
    ensures out.Payload? && out.parsedBody.Some? ==> out.parsedBody.value == parse(fetch(plan.request).body).value
    ensures out.Flag? ==> out.ok == fetch(plan.request).ok
  {
    var reply := fetch(plan.request);
    match plan.returned
    case ParsedBody => Payload(Decoded(reply.body, parse))
    case OkFlag => Flag(reply.ok)
  }

  /** A wrapper that returns parsedBody hands back the parsed value unchanged,
      or `undefined` when the body does not parse; nothing is thrown. */
  lemma ParsedBodyPassThrough(plan: Plan, fetch: Request -> Reply, parse: JsonParser)
    requires plan.returned == ParsedBody
    ensures var out := Run(plan, fetch, parse);
      var parsed := parse(fetch(plan.request).body);
      out.Payload? && (out.parsedBody.Some? <==> parsed.Success?) &&
      (parsed.Success? ==> out.parsedBody.value == parsed.value)
  {
  }

  /** Nor does such a wrapper look at the status code or the ok flag: two
      replies with the same body give the same outcome. */
  lemma ParsedBodyIgnoresStatus(plan: Plan, fetch1: Request -> Reply, fetch2: Request -> Reply, parse: JsonParser)
    requires plan.returned == ParsedBody
    requires fetch1(plan.request).body == fetch2(plan.request).body
    ensures Run(plan, fetch1, parse) == Run(plan, fetch2, parse)
  {
  }

  /** A wrapper that returns `ok` ignores the body and the status code. */
  lemma OkFlagIgnoresBody(plan: Plan, fetch1: Request -> Reply, fetch2: Request -> Reply, parse1: JsonParser, parse2: JsonParser)
    requires plan.returned == OkFlag
    requires fetch1(plan.request).ok == fetch2(plan.request).ok
    ensures Run(plan, fetch1, parse1) == Run(plan, fetch2, parse2) == Flag(fetch1(plan.request).ok)
  {
  }
}
