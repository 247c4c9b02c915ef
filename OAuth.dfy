/** The token endpoints (src/OAuth.ts): authenticate, refresh and logout, each
    one POST through `post`. */
module OAuth {
  import opened Wrappers
  import opened JsRuntime
  import opened Http

  /** A POST of `url` whose body is the serialised `payload`; `token` decides
      the authorization header. */
  predicate PostOf(plan: Plan, url: string, payload: Json, stringify: JsonStringifier, token: Option<string>)
  {
    plan.request.verb == Post && plan.request.url == url &&
    plan.request.body == Some(stringify(payload)) &&
    plan.request.headers == (if token.Some? then FixedHeaders[Authorization := token.value] else FixedHeaders)
  }

  /** authenticate(authData): posts the credentials with no token, so without
      an authorization header, and returns the decoded body. */
  function Authenticate(authData: Json, stringify: JsonStringifier): (plan: Plan)
    ensures PostOf(plan, Endpoint.OAuthAuthorize.Url(), authData, stringify, None)
    ensures Authorization !in plan.request.headers
    ensures plan.returned == ParsedBody
  {
    Plan(PostRequest(Endpoint.OAuthAuthorize.Url(), authData, stringify), ParsedBody)
  }

  /** refresh(refreshToken): the body is JSON.stringify of the token string
      itself, no authorization header is sent, and the decoded body is returned. */
  function Refresh(refreshToken: string, stringify: JsonStringifier): (plan: Plan)
    ensures PostOf(plan, Endpoint.OAuthRefresh.Url(), JString(refreshToken), stringify, None)
    ensures Authorization !in plan.request.headers
    ensures plan.returned == ParsedBody
  {
    Plan(PostRequest(Endpoint.OAuthRefresh.Url(), JString(refreshToken), stringify), ParsedBody)
  }

  /** The object `{ token }`: one property, named `token`, holding the token. */
  function TokenObject(token: string): (obj: Json)
    ensures obj.JObject? && obj.fields.Keys == {"token"} && obj.fields["token"] == JString(token)
  {
    JObject(map["token" := JString(token)])
  }

  /** logout(token): posts `{ token }` and sends the same token as the
      authorization value; the result is `ok`, not the body. */
  function Logout(token: string, stringify: JsonStringifier): (plan: Plan)
    ensures PostOf(plan, Endpoint.OAuthRevoke.Url(), TokenObject(token), stringify, Some(token))
    ensures plan.request.headers[Authorization] == token
    ensures plan.returned == OkFlag
  {
    Plan(PostRequest(Endpoint.OAuthRevoke.Url(), TokenObject(token), stringify, Some(token)), OkFlag)
  }

  /** logout resolves to response.ok, whatever the body or status code. */
  lemma LogoutReturnsOk(token: string, stringify: JsonStringifier, fetch: Request -> Reply, parse: JsonParser)
    ensures Run(Logout(token, stringify), fetch, parse) == Flag(fetch(Logout(token, stringify).request).ok)
  {
    OkFlagIgnoresBody(Logout(token, stringify), fetch, fetch, parse, parse);
  }

  /** authenticate and refresh hand back the parsed body unchanged, or
      `undefined` when it does not parse. */
  lemma TokenCallsReturnParsedBody(authData: Json, refreshToken: string, stringify: JsonStringifier,
                                   fetch: Request -> Reply, parse: JsonParser)
    ensures Run(Authenticate(authData, stringify), fetch, parse) ==
      Payload(Decoded(fetch(Authenticate(authData, stringify).request).body, parse))
    ensures Run(Refresh(refreshToken, stringify), fetch, parse) ==
      Payload(Decoded(fetch(Refresh(refreshToken, stringify).request).body, parse))
  {
  }
}
