/** The client's view of the web: parsed URLs, HTTP replies and requests, the
    outcomes a route handler produces, the application's configuration, and
    the third-party parsers the handlers call (gathered in `Env`, passed in as
    functions because their behaviour is not part of this model). */
module Web {
  import opened Js
  import opened Strs

  /** A parsed URL (the WHATWG `URL` class): the components the client reads.
      `href` is its serialisation as the parser produced it (`url.toString()`,
      `${url}`), kept verbatim: the query string as parsed, a lone `?` or `#`,
      non-special schemes without `//`. `query` is its `searchParams`. */
  datatype Url = Url(
    href: string,
    protocol: string,   // "https:"
    username: string,
    password: string,
    hostname: string,
    port: string,       // "" when none was given
    pathname: string,
    query: seq<Param>,
    hash: string)       // "" or "#…"

  /** One parsed entry of an HTTP `Link` header (RFC 8288): its relation type and target. */
  datatype LinkRef = LinkRef(rel: string, uri: string)

  /** One `<link>` element of an HTML page, with its `rel` and `href` attributes. */
  datatype LinkElement = LinkElement(rel: Option<string>, href: Option<string>)

  /** The local date and time fields handed to the time-zone library (strings
      as split from the form, or `undefined` when a field is missing). */
  datatype LocalDateTime = LocalDateTime(year: Json, month: Json, day: Json, hour: Json, minute: Json)

  /** A microformats2 root item: its types and its properties. */
  datatype MfItem = MfItem(types: Option<seq<string>>, properties: map<string, seq<Json>>)

  /** The libraries the handlers call, as functions.
      - parseUrl: `new URL(s)`; Err carries the TypeError's message.
      - isIp: the `is-ip` test.
      - parseLinkHeader: `http-link-header` parsing of a `Link` header value.
      - linkElements: the `<link>` elements of an HTML page in document order (cheerio).
      - parseJson: `response.json()`; Err carries the rejection's message.
      - formEncode: application/x-www-form-urlencoded escaping of one name or value.
      - zonedToUtcIso: luxon's `DateTime.fromObject(...).toUTC().toISO()`; None for an invalid date.
      - mf2: the microformats parser on a page body and its base URL. */
  datatype Env = Env(
    parseUrl: string -> Result<Url, string>,
    isIp: string -> bool,
    parseLinkHeader: string -> seq<LinkRef>,
    linkElements: string -> seq<LinkElement>,
    parseJson: string -> Result<Json, string>,
    formEncode: string -> string,
    zonedToUtcIso: (LocalDateTime, Json) -> Option<string>,
    mf2: (string, string) -> seq<MfItem>)

  /** `URLSearchParams.toString()`: escaped `name=value` pairs joined by `&`. */
  function Serialize(env: Env, params: seq<Param>): string {
    if params == [] then ""
    else
      var pair := env.formEncode(params[0].name) + "=" + env.formEncode(params[0].value);
      if |params| == 1 then pair else pair + "&" + Serialize(env, params[1..])
  }

  /** An HTTP response; header names are stored in lower case, as `Headers.get`
      looks them up case-insensitively. */
  datatype HttpResponse = HttpResponse(status: int, headers: map<string, string>, body: string)

  /** What a `fetch`/`got` call settles with: a rejection (network failure,
      refused URL, ...) or a response. */
  datatype Reply = Unreachable(message: string) | Received(response: HttpResponse)

  /** `response.ok`. */
  predicate IsOk(status: int) {
    200 <= status <= 299
  }

  /** `response.headers.get(name)` for a lower-case name. */
  function Header(r: HttpResponse, name: string): (v: Option<string>)
    ensures v.Some? <==> name in r.headers
  {
    if name in r.headers then Some(r.headers[name]) else None
  }

  /** A request the client sends. */
  datatype HttpRequest = HttpRequest(verb: string, url: string, headers: seq<Param>, form: seq<Param>)

  /** The error objects handed to Express's `next`: `{code: "AppError", message}`,
      `{code: "MicropubServerError", message}`, or a thrown error without a code. */
  datatype Failure = AppError(message: string) | MicropubServerError(message: string) | Uncaught(message: string)

  /** What a route handler answers first: a 302 redirect (with an optional
      query string), an error passed to `next`, or a rendered view. */
  datatype Outcome =
    | Redirect(location: string, query: seq<Param>)
    | Fail(failure: Failure)
    | Render(view: string, data: map<string, Json>)

  /** What a route handler leaves behind: the session's new contents, its
      first answer, and the requests it sent, in order. */
  datatype Transition = Transition(bag: map<string, Json>, outcome: Outcome, sent: seq<HttpRequest>)

  /** `fetch(...).then((response) => response.json())`: the rejection's
      message, or the parsed body. */
  function ReadJson(env: Env, reply: Reply): Result<Json, string> {
    match reply
    case Unreachable(m) => Err(m)
    case Received(r) => env.parseJson(r.body)
  }

  /** The application's constants: its title and subtitle and its IndieAuth
      client registration (`client_id`, `redirect_uri`). */
  datatype AppConfig = AppConfig(title: string, subtitle: string, clientId: string, redirectUri: string)

  /** The two members of the `AppUserState` enumeration, by name. */
  const GuestState: Json := Str("Guest")
  const UserState: Json := Str("User")

  /** `req.session?.appState || AppUserState.Guest`. */
  function AppStateOrGuest(bag: map<string, Json>): (r: Json)
    ensures Truthy(r)
    ensures Truthy(Get(bag, "appState")) ==> r == bag["appState"]
    ensures !Truthy(Get(bag, "appState")) ==> r == GuestState
  {
    if Truthy(Get(bag, "appState")) then bag["appState"] else GuestState
  }
}
