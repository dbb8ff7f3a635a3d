/** Identity canonicalisation, validation and redirect classification, and
    the time-zone setter (src/lib/user.ts), following sections 3.1, 3.3 and
    4.2 of the IndieAuth Living Standard as the client reads them. */
module User {
  import opened Strs
  import opened Js
  import opened Web
  import opened SessionStore

  /** The text `makeUrl` hands to the URL constructor: the lower-cased input,
      with `http://` in front only when `indexOf("://")` is 0 (a non-zero
      index, including -1 for "not found", is truthy and keeps the input as is). */
  function MakeUrlInput(url: string): (r: string)
    ensures StartsWith(url, "://") ==> r == "http://" + Lower(url)
    ensures !StartsWith(url, "://") ==> r == Lower(url)
    ensures Lower(r) == r
  {
    IndexOfZeroIffPrefix(url, "://");
    LowerIdempotent(url);
    LowerAppend("http://", url);
    if IndexOf(url, "://") != 0 then Lower(url) else "http://" + Lower(url)
  }

  /** `makeUrl`: the URL constructor applied to `MakeUrlInput`. */
  function MakeUrl(env: Env, url: string): Result<Url, string> {
    env.parseUrl(MakeUrlInput(url))
  }

  const UsernameMessage := "The URL specified is invalid, as it includes a username."
  const PasswordMessage := "The URL specified is invalid, as it includes a password."
  const PortMessage := "The URL specified is invalid, as it includes a port."
  const ProtocolMessage := "The URL specified is invalid, as its protocol is neither HTTP nor HTTPS."
  const HashMessage := "The URL specified is invalid, as it includes a hash/fragment."
  const IpMessage := "The URL specified is invalid, as it is an IP address (v4/v6)."

  datatype Validity = Valid | Invalid(message: string)

  /** The checks of `isValidUrl` in the order it runs them, each as
      (fails, message). The IP test runs on the whole serialised URL. */
  function ValidationChecks(env: Env, u: Url): seq<(bool, string)> {
    [ (u.username != "", UsernameMessage),
      (u.password != "", PasswordMessage),
      (u.port != "", PortMessage),
      (u.protocol != "http:" && u.protocol != "https:", ProtocolMessage),
      (u.hash != "", HashMessage),
      (env.isIp(u.href), IpMessage) ]
  }

  /** `isValidUrl`: `true` when every check passes, otherwise the message of
      the first check that fails. */
  function IsValidUrl(env: Env, u: Url): (r: Validity)
    ensures r == Valid <==> forall i :: 0 <= i < 6 ==> !ValidationChecks(env, u)[i].0
    ensures r.Invalid? ==> exists i :: 0 <= i < 6 && ValidationChecks(env, u)[i] == (true, r.message)
                                       && forall j :: 0 <= j < i ==> !ValidationChecks(env, u)[j].0
  {
    var c := ValidationChecks(env, u);
    if u.username != "" then assert c[0] == (true, UsernameMessage); Invalid(UsernameMessage)
    else if u.password != "" then assert c[1] == (true, PasswordMessage); Invalid(PasswordMessage)
    else if u.port != "" then assert c[2] == (true, PortMessage); Invalid(PortMessage)
    else if u.protocol != "http:" && u.protocol != "https:" then
      assert c[3] == (true, ProtocolMessage); Invalid(ProtocolMessage)
    else if u.hash != "" then assert c[4] == (true, HashMessage); Invalid(HashMessage)
    else if env.isIp(u.href) then assert c[5] == (true, IpMessage); Invalid(IpMessage)
    else Valid
  }

  /** A validated identity URL has no credentials, no port, no fragment, an
      HTTP(S) scheme, and an href the IP test rejects. */
  lemma ValidUrlShape(env: Env, u: Url)
    requires IsValidUrl(env, u) == Valid
    ensures u.username == "" && u.password == "" && u.port == "" && u.hash == ""
    ensures u.protocol == "http:" || u.protocol == "https:"
    ensures !env.isIp(u.href)
  {
    var c := ValidationChecks(env, u);
    assert !c[0].0 && !c[1].0 && !c[2].0 && !c[3].0 && !c[4].0 && !c[5].0;
  }

  const TemporaryNoLocationMessage := "We were given a temporary redirect to follow but the Location HTTP header was missing."
  const FollowFailedMessage := "We followed a temporary redirect but there was a problem fetching the redirected URL."
  const PermanentNoLocationMessage := "We were given a permanent redirect to follow, but the Location HTTP header was missing."

  /** The profile URL (the user's identity) and the discovery URL (where endpoints are looked up). */
  datatype ProfileUrls = ProfileUrls(profileUrl: string, discoveryUrl: string)

  /** What `getProfileAndDiscoveryUrls` settles with, and the requests it sent. */
  datatype Discovery = Discovery(result: Result<ProfileUrls, string>, sent: seq<HttpRequest>)

  datatype RedirectKind = Temporary | Permanent | NoRedirect

  /** How the HEAD reply's status is read. */
  function Classify(status: int): (k: RedirectKind)
    ensures k == Temporary <==> status == 302 || status == 307
    ensures k == Permanent <==> status == 301 || status == 308
  {
    if status == 302 || status == 307 then Temporary
    else if status == 301 || status == 308 then Permanent
    else NoRedirect
  }

  /** `response.headers.get("Location") as string` handed to `new URL`: a
      missing header is `null`, which the URL constructor reads as "null". */
  function LocationText(h: Option<string>): string {
    if h.Some? then h.value else "null"
  }

  /** The input is a URL that passes validation, and `u` is that URL. */
  predicate Accepted(env: Env, startingUrl: string, u: Url) {
    MakeUrl(env, startingUrl) == Ok(u) && IsValidUrl(env, u) == Valid
  }

  /** `getProfileAndDiscoveryUrls`, given the reply to its manual-redirect HEAD
      request and the reply to the follow-up GET of a temporary redirect. */
  function GetProfileAndDiscoveryUrls(env: Env, startingUrl: string, head: Reply, follow: Reply): (r: Discovery)
    ensures r.sent == [] <==> !(MakeUrl(env, startingUrl).Ok? && Accepted(env, startingUrl, MakeUrl(env, startingUrl).value))
    ensures MakeUrl(env, startingUrl).Ok? && IsValidUrl(env, MakeUrl(env, startingUrl).value).Invalid? ==>
              r.result == Err(IsValidUrl(env, MakeUrl(env, startingUrl).value).message)
    ensures r.sent != [] ==> r.sent[0] == HttpRequest("HEAD", MakeUrl(env, startingUrl).value.href, [], [])
    ensures |r.sent| <= 2
  {
    match MakeUrl(env, startingUrl)
    case Err(m) => Discovery(Err(m), [])
    case Ok(entered) =>
      match IsValidUrl(env, entered)
      case Invalid(m) => Discovery(Err(m), [])
      case Valid =>
        var headRequest := HttpRequest("HEAD", entered.href, [], []);
        match head
        case Unreachable(m) => Discovery(Err(m), [headRequest])
        case Received(resp) =>
          var kind := Classify(resp.status);
          if kind == Temporary then
            if Header(resp, "location").None? then Discovery(Err(TemporaryNoLocationMessage), [headRequest])
            else
              var sent := [headRequest, HttpRequest("GET", Header(resp, "location").value, [], [])];
              match follow
              case Unreachable(m) => Discovery(Err(m), sent)
              case Received(followed) =>
                if !IsOk(followed.status) then Discovery(Err(FollowFailedMessage), sent)
                else
                  match (env.parseUrl(entered.href), env.parseUrl(LocationText(Header(followed, "location"))))
                  case (Err(m), _) => Discovery(Err(m), sent)
                  case (Ok(_), Err(m)) => Discovery(Err(m), sent)
                  case (Ok(p), Ok(d)) => Discovery(Ok(ProfileUrls(p.href, d.href)), sent)
          else if kind == Permanent then
            if Header(resp, "location").None? then Discovery(Err(PermanentNoLocationMessage), [headRequest])
            else
              match env.parseUrl(Header(resp, "location").value)
              case Err(m) => Discovery(Err(m), [headRequest])
              case Ok(target) => Discovery(Ok(ProfileUrls(target.href, target.href)), [headRequest])
          else
            Discovery(Ok(ProfileUrls(entered.href, entered.href)), [headRequest])
  }

  /** 301/308 with a `Location`: profile and discovery URL are both that location. */
  lemma PermanentRedirect(env: Env, startingUrl: string, u: Url, resp: HttpResponse, follow: Reply, target: Url)
    requires Accepted(env, startingUrl, u)
    requires resp.status == 301 || resp.status == 308
    requires "location" in resp.headers && env.parseUrl(resp.headers["location"]) == Ok(target)
    ensures GetProfileAndDiscoveryUrls(env, startingUrl, Received(resp), follow).result
            == Ok(ProfileUrls(target.href, target.href))
  {
  }

  /** 301/308, or 302/307, without a `Location` header is an error. */
  lemma RedirectWithoutLocation(env: Env, startingUrl: string, u: Url, resp: HttpResponse, follow: Reply)
    requires Accepted(env, startingUrl, u)
    requires Classify(resp.status) != NoRedirect && "location" !in resp.headers
    ensures GetProfileAndDiscoveryUrls(env, startingUrl, Received(resp), follow).result
            == Err(if Classify(resp.status) == Temporary then TemporaryNoLocationMessage else PermanentNoLocationMessage)
  {
  }

  /** 302/307: the follow-up request goes to the `Location`; a failed follow-up
      is an error; otherwise the profile URL stays the entered URL and the
      discovery URL is read from the followed response's own `Location`. */
  lemma TemporaryRedirect(env: Env, startingUrl: string, u: Url, resp: HttpResponse, followed: HttpResponse)
    requires Accepted(env, startingUrl, u)
    requires resp.status == 302 || resp.status == 307
    requires "location" in resp.headers
    ensures var r := GetProfileAndDiscoveryUrls(env, startingUrl, Received(resp), Received(followed));
      && r.sent == [HttpRequest("HEAD", u.href, [], []), HttpRequest("GET", resp.headers["location"], [], [])]
      && (!IsOk(followed.status) ==> r.result == Err(FollowFailedMessage))
      && (r.result.Ok? <==>
            && IsOk(followed.status)
            && env.parseUrl(u.href).Ok?
            && env.parseUrl(LocationText(Header(followed, "location"))).Ok?)
      && (r.result.Ok? ==>
            && r.result.value.profileUrl == env.parseUrl(u.href).value.href
            && r.result.value.discoveryUrl == env.parseUrl(LocationText(Header(followed, "location"))).value.href)
  {
  }

  /** Any other status: no redirect is followed, both URLs are the entered URL, and it is not an error. */
  lemma NoRedirectFallback(env: Env, startingUrl: string, u: Url, resp: HttpResponse, follow: Reply)
    requires Accepted(env, startingUrl, u)
    requires Classify(resp.status) == NoRedirect
    ensures GetProfileAndDiscoveryUrls(env, startingUrl, Received(resp), follow)
            == Discovery(Ok(ProfileUrls(u.href, u.href)), [HttpRequest("HEAD", u.href, [], [])])
  {
  }

  /** `req.session.user.timezone = tz`, creating `user` when it is not an object;
      every other field of `user` and every other session key is kept. */
  function WithTimezone(bag: map<string, Json>, tz: Json): (r: map<string, Json>)
    ensures r.Keys == bag.Keys + {"user"}
    ensures forall k :: k in bag && k != "user" ==> r[k] == bag[k]
    ensures r["user"].Obj? && Get(r["user"].fields, "timezone") == tz
    ensures r["user"].fields.Keys == AsObject(Get(bag, "user")).Keys + {"timezone"}
    ensures forall k :: k in AsObject(Get(bag, "user")) && k != "timezone" ==>
              k in r["user"].fields && r["user"].fields[k] == AsObject(Get(bag, "user"))[k]
  {
    bag["user" := Obj(AsObject(Get(bag, "user"))["timezone" := tz])]
  }

  /** `setTimezone`: writes `body.timezone` (even when it is undefined) into
      `session.user.timezone`; without a session it does nothing. */
  method SetTimezone(s: Session?, body: map<string, Json>)
    modifies s
    ensures s != null ==> s.bag == WithTimezone(old(s.bag), Get(body, "timezone")) && s.destroyed == old(s.destroyed)
  {
    if s != null {
      var user := AsObject(Get(s.bag, "user"));
      user := user["timezone" := Get(body, "timezone")];
      s.bag := s.bag["user" := Obj(user)];
    }
  }
}
