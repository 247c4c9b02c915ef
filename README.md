# glovo-wrapper: a Dafny model of the request pipeline

The repository is a thin TypeScript client for a courier platform's REST API.
Its behaviour sits in three files. This project models those files and proves
what they promise:

- **Request builder** (`src/utils/Http.ts`).
  - `getHeaders` fills a `Headers` object with eight fixed pairs. It adds `authorization` only for a non-null token.
  - `get`, `post` and `put` fix the method and body of each verb.
  - The `Endpoints` enum holds the URL templates.
- **Decode policy** (`http` in `src/utils/Http.ts`). It tries to parse the body and assigns `parsedBody` in place. A parse failure is swallowed.
- **Error discriminator** (`isHttpError`). It tests `obj.error !== undefined`.
- **Endpoint wrappers** (`src/Courier.ts`, `src/OAuth.ts`).
  - Each wrapper is one GET or POST followed by a read of `parsedBody` or `ok`.
  - `getRaports` is meant to fill `[LIMIT]` and `[OFFSET]` with `String.prototype.replace`. As written it reads a template that does not exist (see "## Findings").

Modules:

- `Wrappers`: Option and Result.
  - None is an absent value: `undefined`, a `null` token, or the -1 of `indexOf`.
  - Failure is a thrown exception.
- `JsRuntime`: the JavaScript pieces the code depends on.
  - JSON values.
  - `TypeError` and `SyntaxError`.
  - `indexOf` and first-occurrence `replace` with a string pattern.
  - The text that a template literal gives an integer.
- `Http`:
  - the `Headers` class and the `GetHeaders` method that fills it;
  - `HeadersFor`, the function that specifies `GetHeaders`;
  - `IsHttpError`;
  - the decode step, as a `Response` class with the in-place `ParseBody` and `Receive` methods, specified by the function `Decoded`;
  - the request arguments of each verb;
  - the `Endpoint` enum;
  - `Plan`/`Run`. A `Plan` is the request a wrapper issues plus the field it returns. `Run` executes a plan against a transport.
- `Courier` and `OAuth`: one plan function per wrapper.

Opaque collaborators are function parameters:

- `fetch`, the transport: `Request -> Reply`, where a reply carries `ok`, the status code and the body text.
- `JSON.parse`, reached through `Response.json()`: `string -> Result<Json, JsError>`.
- `JSON.stringify`: `Json -> string`.

Behaviour worth knowing:

- `isHttpError(undefined)` and `isHttpError(null)` throw a TypeError, because they read a property of `undefined` or `null`.
  - Every wrapper except `logout` can return `undefined`.
  - So applying the discriminator to a wrapper's result before checking for `undefined` can throw.
- `refresh` posts `JSON.stringify(refreshToken)`. That is the token as a quoted JSON string, not the raw token text.

Two behaviours one might expect of such a client are absent from the code:

- No operation books several slots with a stagger. `BOOK_SLOT` and `REPORT_DETAILS` are declared and never used.
- `checkIn` has no special rule for status 204. It returns the decoded body like every other wrapper (`Courier.CheckInIgnoresStatus`).

## Model

| member | source | states |
|---|---|---|
| `Http.HeadersFor` | src/utils/Http.ts:9-23 | all eight fixed name/value pairs are present for every token; `authorization` is a key iff the token is non-null; its value is then the token verbatim (no `Bearer ` prefix); the key set is the fixed names plus `authorization` exactly when a token is given |
| `Http.HeaderCount` | src/utils/Http.ts:11-20 | the nine names are pairwise distinct: `authorization` is not a fixed name; the map has 8 entries without a token and 9 with one |
| `Http.Headers.Set` | src/utils/Http.ts:11-20 | `set` overwrites the entry stored under the name and leaves the others unchanged |
| `Http.GetHeaders` | src/utils/Http.ts:9-23 | the successive `set` calls on a fresh `Headers` object, with the conditional last one, produce exactly `HeadersFor(token)` |
| `Http.IsHttpError` | src/utils/Http.ts:25-27 | true exactly for an object that has an `error` key, whatever its value, null included; false for other objects and for non-object values; a TypeError for `undefined` and `null` |
| `Http.ErrorFieldPresence` | src/utils/Http.ts:26 | `{error: null, ...}` is classified as an error; an object without the field is not |
| `Http.Verb.Text` | src/utils/Http.ts:41 | the method string is one of `'get'`, `'post'` and `'put'`, written in lower case as at lines 41, 50 and 59 |
| `Http.VerbTextInjective` | src/utils/Http.ts:41-59 | distinct verbs send distinct method strings |
| `Http.GetRequest` | src/utils/Http.ts:38-44 | method string `'get'`, the given URL, no body, headers `getHeaders(token)` with the token defaulting to null |
| `Http.PostRequest` | src/utils/Http.ts:46-53 | method string `'post'`, body `JSON.stringify(body)`, headers `getHeaders(token)`, token defaulting to null |
| `Http.PutRequest` | src/utils/Http.ts:55-62 | method string `'put'`, body `JSON.stringify(body)`, headers `getHeaders(token)`, token defaulting to null |
| `Http.AuthorizationIffToken` | src/utils/Http.ts:38-62 | for all three verbs, the request has an `authorization` header iff a token is passed; its value is the token; all fixed pairs are present |
| `Http.Decoded` | src/utils/Http.ts:29-36 | the parsed body is present iff the body parses, and then equals the parsed value |
| `Http.Response.constructor` | src/utils/Http.ts:1-3 | a fetched response carries `ok`, status and body, and `parsedBody` starts absent |
| `Http.ParseBody` | src/utils/Http.ts:31-33 | on a successful parse `parsedBody` is assigned the value in place; on a failure the exception is caught and `parsedBody` keeps its old value |
| `Http.Receive` | src/utils/Http.ts:29-36 | `http` returns normally for every reply; status, `ok` and body are kept; `parsedBody` is absent exactly when the body does not parse |
| `Http.Endpoint.Url` | src/utils/Http.ts:64-79 | the enum's string values, each one an exact URL or URL template, written as the shared host `ApiHost` followed by the path; every one of them lies on the host `https://api.glovoapp.com/` |
| `Http.EndpointNamed` | src/utils/Http.ts:64-79 | looking a name up in the enum gives the member of that name, or `undefined` when no member has it; `Object.prototype` names are excluded (see Left out) |
| `Http.Run` | src/Courier.ts:172-217 | one wrapper call: the plan's single request is sent. A `parsedBody` wrapper yields the body's parse, present iff parsing succeeds. An `ok` wrapper (src/OAuth.ts:31-32) yields the reply's `ok` |
| `Http.ParsedBodyPassThrough` | src/Courier.ts:172-175 | a wrapper returning `parsedBody` yields the parsed value unchanged (a success or an error-shaped object), or `undefined` when the body does not parse |
| `Http.ParsedBodyIgnoresStatus` | src/Courier.ts:172-217 | such a wrapper ignores the status code and `ok`: replies with equal bodies give equal results |
| `Http.OkFlagIgnoresBody` | src/OAuth.ts:30-33 | a wrapper returning `ok` gives `ok` itself, whatever the body and the parser |
| `JsRuntime.IndexOf` | src/Courier.ts:208 | the result is the leftmost index where the pattern occurs, or absent when it occurs nowhere |
| `JsRuntime.ReplaceFirst` | src/Courier.ts:208 | `replace` with a string pattern replaces only the leftmost occurrence and keeps every other character; with no occurrence it returns the string unchanged |
| `JsRuntime.ReplaceFirstAt` | src/Courier.ts:208 | when the pattern's first character does not occur before it, the replacement lands exactly where the pattern stood |
| `JsRuntime.Digits` | src/Courier.ts:208 | a non-empty string of decimal digits whose first digit is 0 only for the numeral `"0"` of zero |
| `JsRuntime.NumberText` | src/Courier.ts:208 | `${n}` for an integer: digits with no leading zero except in `"0"` itself, and a leading minus sign exactly when n is negative |
| `JsRuntime.NumberTextRoundTrip` | src/Courier.ts:208 | reading the text back as a decimal numeral gives n |
| `Courier.GetSWKSettings` | src/Courier.ts:172-175 | GET of `SWK_SETTINGS` with no body and exactly the fixed headers plus `authorization` = access token; returns `parsedBody` |
| `Courier.GetMe` | src/Courier.ts:177-180 | GET of `ME`, authorized with the access token, returns `parsedBody` |
| `Courier.GetProfile` | src/Courier.ts:182-185 | GET of `PROFILE`, authorized with the access token, returns `parsedBody` |
| `Courier.GetChallanges` | src/Courier.ts:187-190 | GET of `CHALLENGES` (its query string kept verbatim), authorized, returns `parsedBody` |
| `Courier.GetDeliveries` | src/Courier.ts:192-195 | GET of `DELIVERIES`, authorized with the access token, returns `parsedBody` |
| `Courier.CheckIn` | src/Courier.ts:197-200 | GET of `CHECK_IN`, authorized with the access token, returns `parsedBody` |
| `Courier.CheckInIgnoresStatus` | src/Courier.ts:197-200 | no status-code rule: a 204 and any other status with the same body give the same result |
| `Courier.GetCalendar` | src/Courier.ts:214-217 | GET of `CALENDAR`, authorized with the access token, returns `parsedBody` |
| `Courier.ReportsTemplate` | src/utils/Http.ts:75 | the REPORTS template is its prefix, `[LIMIT]`, `&offset=` and `[OFFSET]`, and no `[` appears outside the placeholders |
| `Courier.FillBoth` | src/Courier.ts:208 | when no `[` stands outside the two placeholders or in the replacements, the chained replaces put each number exactly in its own placeholder's place |
| `Courier.ReportsUrl` | src/Courier.ts:208 | replacing the first `[LIMIT]` by the decimal text of `limit`, then the first `[OFFSET]` by that of `offset`, gives the template with only those two spots changed; no `[` is left |
| `Courier.ReportsUrlHasNoPlaceholders` | src/Courier.ts:208 | the resulting URL contains neither `[LIMIT]` nor `[OFFSET]` |
| `Courier.GetRaports` | src/Courier.ts:202-212 | GET of the filled REPORTS URL, authorized with the access token, returns `parsedBody` |
| `Courier.GetRaportsDefaults` | src/Courier.ts:204-205 | with `limit` defaulting to 20 and `offset` to 0 the URL is `...summary_periods?limit=20&offset=0` |
| `Courier.GetRaportsAsWritten` | src/Courier.ts:207-210 | the source's spelling: a plan exists only if the enum has a member named `RAPORTS` |
| `Courier.RaportsAsWrittenThrows` | src/Courier.ts:208 | as written, every call fails with a TypeError, because `Endpoints.RAPORTS` is `undefined` |
| `OAuth.Authenticate` | src/OAuth.ts:20-23 | POST of `JSON.stringify(authData)` to `OAUTH_AUTHORIZE` with the fixed headers only, so no `authorization`; returns `parsedBody` |
| `OAuth.Refresh` | src/OAuth.ts:25-28 | POST of `JSON.stringify(refreshToken)` to `OAUTH_REFRESH` with no `authorization`; returns `parsedBody` |
| `OAuth.TokenObject` | src/OAuth.ts:31 | the shorthand `{ token }` is an object with the single property `token` holding the token |
| `OAuth.Logout` | src/OAuth.ts:30-33 | POST of `JSON.stringify({ token })` to `OAUTH_REVOKE` with the same token as `authorization`; returns `ok` |
| `OAuth.LogoutReturnsOk` | src/OAuth.ts:32 | logout resolves to `response.ok` and ignores the body |
| `OAuth.TokenCallsReturnParsedBody` | src/OAuth.ts:20-28 | authenticate and refresh return the decoded body unchanged |

## Left out

- Network I/O. `fetch`, the construction of Fetch API `Request` objects and network failures are not modelled. The transport is a total function parameter, so a rejected fetch, which the source lets propagate, is not represented.
- Promises and `async`/`await`. The model is sequential.
- The internals of `JSON.parse` and `JSON.stringify`. Both are opaque parameters, and no serialisation round trip is proved.
- `GetHeaders`: the model stores names and values verbatim. It does not model the normalisation and validation inside the `Headers` class. For instance, `set` trims surrounding whitespace from a value and throws on invalid characters.
- `GetRequest`: the optional `args` parameter of `get`, `post` and `put` is not modelled, because no caller passes it. The method-name normalisation of the Fetch API (`get` to `GET`) is not modelled either.
- `NumberText`: `limit` and `offset` are modelled as unbounded integers, printed with their exact digits. JavaScript numbers are doubles. Above 2^53, one more than `Number.MAX_SAFE_INTEGER`, `${n}` prints the shortest digits that read back to the same double, padded with zeros: `${2**60}` is `1152921504606847000`. From 1e21 up it switches to exponent notation. Neither is modelled, and neither is the formatting of fractional numbers, NaN or Infinity.
- `EndpointNamed`: it covers own members of the enum only. A name of an `Object.prototype` property, such as `toString`, `constructor` or `__proto__`, gives an inherited value in JavaScript but None in the model. The only name the source looks up besides the members is `RAPORTS`, which is not such a property.
- `ReplaceFirst`: the `$` patterns of a replacement string are not modelled. The only replacements passed are numerals, which contain no `$`.
- `IsHttpError`: the model covers `undefined` and JSON values only. Arbitrary JavaScript objects, such as objects with an `error` getter or an inherited property, are not covered.
- The DTO interfaces of `src/Courier.ts` and `src/OAuth.ts` have no behaviour. Payloads are plain JSON values.
- `src/index.ts` only re-exports.
- Slot-booking fan-out, the stagger delay and a special case for status 204 do not exist in this code, so they are not modelled.

## Findings

| source | as written | input that shows it | evidently intended | confidence | as-written member | corrected member |
|---|---|---|---|---|---|---|
| src/Courier.ts:208 | reads `Endpoints.RAPORTS`, but the enum's member is `REPORTS` (src/utils/Http.ts:75); the template is `undefined` and `.replace` throws a TypeError, so `getRaports` always rejects | `getRaports("token")` with the defaults | fill `Endpoints.REPORTS` with `limit` and `offset` | not executed; high (`tsc` would reject it too: `Endpoints` has no member `RAPORTS`) | `Courier.RaportsAsWrittenThrows` | `Courier.ReportsUrl` |
