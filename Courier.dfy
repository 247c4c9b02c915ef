/** The courier endpoint wrappers (src/Courier.ts). Each issues one GET with
    the caller's access token and returns the response's parsedBody. */
module Courier {
  import opened Wrappers
  import opened JsRuntime
  import opened Http

  /** The plan every courier wrapper follows: a GET of `url` with no body,
      carrying the eight fixed headers and the access token as authorization,
      whose result is the decoded body. */
  predicate AuthorizedGet(plan: Plan, url: string, accessToken: string)
  {
    plan.request.verb == Get && plan.request.url == url && plan.request.body == None &&
    plan.request.headers == FixedHeaders[Authorization := accessToken] &&
    plan.returned == ParsedBody
  }

  function GetSWKSettings(accessToken: string): (plan: Plan)
    ensures AuthorizedGet(plan, Endpoint.SwkSettings.Url(), accessToken)
  {
    Plan(GetRequest(Endpoint.SwkSettings.Url(), Some(accessToken)), ParsedBody)
  }

  function GetMe(accessToken: string): (plan: Plan)
    ensures AuthorizedGet(plan, Endpoint.Me.Url(), accessToken)
  {
    Plan(GetRequest(Endpoint.Me.Url(), Some(accessToken)), ParsedBody)
  }

  function GetProfile(accessToken: string): (plan: Plan)
    ensures AuthorizedGet(plan, Endpoint.Profile.Url(), accessToken)
  {
    Plan(GetRequest(Endpoint.Profile.Url(), Some(accessToken)), ParsedBody)
  }

  function GetChallanges(accessToken: string): (plan: Plan)
    ensures AuthorizedGet(plan, Endpoint.Challenges.Url(), accessToken)
  {
    Plan(GetRequest(Endpoint.Challenges.Url(), Some(accessToken)), ParsedBody)
  }

  function GetDeliveries(accessToken: string): (plan: Plan)
    ensures AuthorizedGet(plan, Endpoint.Deliveries.Url(), accessToken)
  {
    Plan(GetRequest(Endpoint.Deliveries.Url(), Some(accessToken)), ParsedBody)
  }

  /** checkIn: the same plan as the others; its status code is never read. */
  function CheckIn(accessToken: string): (plan: Plan)
    ensures AuthorizedGet(plan, Endpoint.CheckIn.Url(), accessToken)
  {
    Plan(GetRequest(Endpoint.CheckIn.Url(), Some(accessToken)), ParsedBody)
  }

  function GetCalendar(accessToken: string): (plan: Plan)
    ensures AuthorizedGet(plan, Endpoint.Calendar.Url(), accessToken)
  {
    Plan(GetRequest(Endpoint.Calendar.Url(), Some(accessToken)), ParsedBody)
  }

  // ---------------------------------------------------------------------
  // getRaports: the paginated reports listing
  // ---------------------------------------------------------------------

  /** The path of the REPORTS template before `[LIMIT]`. */
  const ReportsPath := "v3/couriers/summary_periods?limit="

  /** The part of the REPORTS template before `[LIMIT]`. */
  const ReportsPrefix := ApiHost + ReportsPath

  /** The REPORTS template with the first `[LIMIT]` and then the first
      `[OFFSET]` replaced by the decimal text of the numbers. */
  function ReportsUrl(limit: int, offset: int): (url: string)
    ensures url == ReportsPrefix + NumberText(limit) + "&offset=" + NumberText(offset)
    ensures '[' !in url
  {
    var lim, off := NumberText(limit), NumberText(offset);
    ReportsTemplate();
    assert '[' !in lim && '[' !in off;
    FillBoth(ReportsPrefix, "&offset=", lim, off);
    ReplaceFirst(ReplaceFirst(Endpoint.Reports.Url(), "[LIMIT]", lim), "[OFFSET]", off)
  }

  /** Filling a template of the REPORTS shape: when no `[` stands outside the
      placeholders or in the replacements, each replace hits its own
      placeholder. */
  lemma FillBoth(prefix: string, middle: string, lim: string, off: string)
    requires '[' !in prefix && '[' !in middle && '[' !in lim && '[' !in off
    ensures ReplaceFirst(ReplaceFirst(prefix + "[LIMIT]" + (middle + "[OFFSET]"), "[LIMIT]", lim), "[OFFSET]", off)
      == prefix + lim + middle + off
    ensures '[' !in prefix + lim + middle + off
  {
    ReplaceFirstAt(prefix, "[LIMIT]", middle + "[OFFSET]", lim);
    var head := prefix + lim + middle;
    assert prefix + lim + (middle + "[OFFSET]") == head + "[OFFSET]" + "";
    ReplaceFirstAt(head, "[OFFSET]", "", off);
  }

  /** The REPORTS template split at its two placeholders. */
  lemma ReportsTemplate()
    ensures Endpoint.Reports.Url() == ReportsPrefix + "[LIMIT]" + ("&offset=" + "[OFFSET]")
    ensures '[' !in ReportsPrefix && '[' !in "&offset="
  {
    PrefixHasNoBracket();
  }

  lemma PrefixHasNoBracket()
    ensures '[' !in ReportsPrefix
  {
    HostHasNoBracket();
    PathHasNoBracket();
  }

  lemma HostHasNoBracket()
    ensures '[' !in ApiHost
  {
  }

  lemma PathHasNoBracket()
    ensures '[' !in ReportsPath
  {
  }

  /** Neither placeholder is left in the URL getRaports requests. */
  lemma ReportsUrlHasNoPlaceholders(limit: int, offset: int)
    ensures forall j :: 0 <= j <= |ReportsUrl(limit, offset)| ==> !OccursAt(ReportsUrl(limit, offset), "[LIMIT]", j)
    ensures forall j :: 0 <= j <= |ReportsUrl(limit, offset)| ==> !OccursAt(ReportsUrl(limit, offset), "[OFFSET]", j)
  {
    AbsentWithoutFirstChar(ReportsUrl(limit, offset), "[LIMIT]");
    AbsentWithoutFirstChar(ReportsUrl(limit, offset), "[OFFSET]");
  }

  /** getRaports(accessToken, limit = 20, offset = 0), written against the
      REPORTS member of the enum. */
  function GetRaports(accessToken: string, limit: int := 20, offset: int := 0): (plan: Plan)
    ensures AuthorizedGet(plan, ReportsUrl(limit, offset), accessToken)
  {
    Plan(GetRequest(ReportsUrl(limit, offset), Some(accessToken)), ParsedBody)
  }

  /** With the defaults, the first page of twenty reports is requested. */
  lemma GetRaportsDefaults(accessToken: string)
    ensures GetRaports(accessToken).request.url == ApiHost + "v3/couriers/summary_periods?limit=20&offset=0"
  {
    assert Digits(2) == "2";
    assert NumberText(20) == Digits(2) + "0" == "20";
    assert NumberText(0) == "0";
    var path := ReportsPath;
    assert path + "20" + "&offset=" + "0" == "v3/couriers/summary_periods?limit=20&offset=0";
    assert ReportsPrefix + "20" + "&offset=" + "0" == ApiHost + (path + "20" + "&offset=" + "0");
  }

  /** getRaports as the source spells it: `Endpoints.RAPORTS` names no member,
      so the template is `undefined` and calling `replace` on it throws. */
  function GetRaportsAsWritten(accessToken: string, limit: int := 20, offset: int := 0): (r: Result<Plan, JsError>)
    ensures r.Success? ==> EndpointNamed("RAPORTS").Some?
  {
    match EndpointNamed("RAPORTS")
    case None => Failure(TypeError)
    case Some(e) =>
      var url := ReplaceFirst(ReplaceFirst(e.Url(), "[LIMIT]", NumberText(limit)), "[OFFSET]", NumberText(offset));
      Success(Plan(GetRequest(url, Some(accessToken)), ParsedBody))
  }

  /** As written, every call of getRaports fails with a TypeError. */
  lemma RaportsAsWrittenThrows(accessToken: string, limit: int, offset: int)
    ensures GetRaportsAsWritten(accessToken, limit, offset) == Failure(TypeError)
  {
    assert EndpointNamed("RAPORTS") == None;
  }

  // ---------------------------------------------------------------------
  // What the wrappers return
  // ---------------------------------------------------------------------

  /** checkIn applies no status-code rule: a 204 and a 200 with the same body
      give the same result, which depends on the body alone. */
  lemma CheckInIgnoresStatus(accessToken: string, fetch1: Request -> Reply, fetch2: Request -> Reply, parse: JsonParser)
    requires fetch1(CheckIn(accessToken).request).body == fetch2(CheckIn(accessToken).request).body
    ensures Run(CheckIn(accessToken), fetch1, parse) == Run(CheckIn(accessToken), fetch2, parse)
  {
    ParsedBodyIgnoresStatus(CheckIn(accessToken), fetch1, fetch2, parse);
  }
}
