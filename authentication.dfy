/** The login routes (src/routes/authentication.ts): the logged-in guard, the
    login page, endpoint discovery (`/try/`), the authorization redirect
    (`/auth/`), the authorization-code callback (`/callback/`), the token
    exchange (`/token/`) and the CSRF error handler. Each handler is a
    function from the session, the request and the remote replies to a
    `Transition`, and a method on the session that performs the same steps
    in place. */
module Authentication {
  import opened Strs
  import opened Js
  import opened Web
  import opened SessionStore
  import opened User
  import opened Endpoint

  // ---------------------------------------------------------------- guard

  /** The router-level guard: a session whose `isLoggedIn` is truthy is sent
      home before any login route runs. */
  function LoggedInGuard(bag: map<string, Json>): (r: Option<Outcome>)
    ensures r.Some? <==> Truthy(Get(bag, "isLoggedIn"))
    ensures r.Some? ==> r.value == Redirect("/", [])
  {
    if Truthy(Get(bag, "isLoggedIn")) then Some(Redirect("/", [])) else None
  }

  // ----------------------------------------------------------- login page

  /** The data the login page is rendered with. */
  function LoginPageData(config: AppConfig, bag: map<string, Json>, csrfToken: string): map<string, Json> {
    map["title" := Str(config.title), "subtitle" := Str(config.subtitle), "pageTitle" := Str("Login"),
        "appState" := AppStateOrGuest(bag), "csrfToken" := Str(csrfToken), "error" := Get(bag, "error")]
  }

  /** `GET /`: renders the login page with the pending error, then clears it. */
  function LoginPage(config: AppConfig, bag: map<string, Json>, csrfToken: string): (r: Transition)
    ensures r.outcome.Render? && r.outcome.view == "login" && r.sent == []
    ensures "error" in r.outcome.data && r.outcome.data["error"] == Get(bag, "error")
    ensures r.bag == bag["error" := Null]
  {
    Transition(bag["error" := Null], Render("login", LoginPageData(config, bag, csrfToken)), [])
  }

  /** A pending error is shown once: a second visit shows `null`, and nothing
      but `error` changes. */
  lemma LoginErrorShownOnce(config: AppConfig, bag: map<string, Json>, t1: string, t2: string)
    ensures var first := LoginPage(config, bag, t1);
            var second := LoginPage(config, first.bag, t2);
            && second.outcome.data["error"] == Null
            && second.bag == first.bag
            && (forall k :: k in bag && k != "error" ==> k in first.bag && first.bag[k] == bag[k])
  {
  }

  method LoginPageHandler(s: Session, config: AppConfig, csrfToken: string) returns (outcome: Outcome)
    modifies s
    ensures Transition(s.bag, outcome, []) == LoginPage(config, old(s.bag), csrfToken)
    ensures s.destroyed == old(s.destroyed)
  {
    var pageData := LoginPageData(config, s.bag, csrfToken);
    s.bag := s.bag["error" := Null];
    outcome := Render("login", pageData);
  }

  // -------------------------------------------------- discovery: headers

  /** The parsed `Link` header of a reply: empty when the header is missing or empty. */
  function LinkRefs(env: Env, resp: HttpResponse): seq<LinkRef> {
    var link := Header(resp, "link");
    if link.Some? && link.value != "" then env.parseLinkHeader(link.value) else []
  }

  /** The header lookup of each role, `findEndpointInHeaders` on the parsed `Link` header. */
  function HeaderLookup(links: seq<LinkRef>): Wanted -> Option<string> {
    (w: Wanted) => FindEndpointInHeaders(links, w.name)
  }

  /** The lookup gives the role a non-empty target (`if (endpoint)`). */
  predicate FoundInHeaders(find: Wanted -> Option<string>, w: Wanted) {
    find(w).Some? && find(w).value != ""
  }

  /** One iteration of the header pass. */
  function HeaderStep(find: Wanted -> Option<string>, endpoints: map<string, Json>, w: Wanted): map<string, Json> {
    if FoundInHeaders(find, w) then endpoints[w.key := Str(find(w).value)]
    else endpoints
  }

  /** The header pass over `wanted`, in list order, starting from `endpoints`. */
  function HeaderPass(find: Wanted -> Option<string>, wanted: seq<Wanted>, endpoints: map<string, Json>): map<string, Json>
    decreases |wanted|
  {
    if wanted == [] then endpoints
    else HeaderStep(find, HeaderPass(find, wanted[..|wanted| - 1], endpoints), wanted[|wanted| - 1])
  }

  /** The header pass leaves every key outside the list as it was. */
  lemma {:induction false} HeaderPassKeepsOthers(find: Wanted -> Option<string>, wanted: seq<Wanted>, endpoints: map<string, Json>, k: string)
    requires k !in Keys(wanted)
    ensures SameAt(HeaderPass(find, wanted, endpoints), endpoints, k)
    decreases |wanted|
  {
    if wanted != [] {
      var init := wanted[..|wanted| - 1];
      assert Keys(wanted) == Keys(init) + [wanted[|wanted| - 1].key];
      HeaderPassKeepsOthers(find, init, endpoints, k);
    }
  }

  /** A prefix of a list with distinct keys has distinct keys, none of them the last key. */
  lemma DistinctInit(wanted: seq<Wanted>)
    requires wanted != [] && DistinctKeys(wanted)
    ensures DistinctKeys(wanted[..|wanted| - 1])
    ensures wanted[|wanted| - 1].key !in Keys(wanted[..|wanted| - 1])
  {
  }

  /** With distinct keys, the header pass sets each role the lookup finds to
      the target found, and leaves each role it does not find as it was. */
  lemma {:induction false} HeaderPassRoles(find: Wanted -> Option<string>, wanted: seq<Wanted>, endpoints: map<string, Json>, i: int)
    requires DistinctKeys(wanted) && 0 <= i < |wanted|
    ensures var r := HeaderPass(find, wanted, endpoints);
            && (FoundInHeaders(find, wanted[i]) ==> wanted[i].key in r && r[wanted[i].key] == Str(find(wanted[i]).value))
            && (!FoundInHeaders(find, wanted[i]) ==> SameAt(r, endpoints, wanted[i].key))
    decreases |wanted|
  {
    var init := wanted[..|wanted| - 1];
    var last := wanted[|wanted| - 1];
    DistinctInit(wanted);
    var p := HeaderPass(find, init, endpoints);
    assert HeaderPass(find, wanted, endpoints) == HeaderStep(find, p, last);
    if i < |init| {
      assert wanted[i] == init[i];
      assert init[i].key != last.key by {
        assert Keys(init)[i] == init[i].key;
      }
      HeaderPassRoles(find, init, endpoints, i);
    } else {
      HeaderPassKeepsOthers(find, init, endpoints, last.key);
    }
  }

  /** `endpointsWanted.some((e) => !!endpoints[e.key])`. */
  predicate AnyRole(endpoints: map<string, Json>) {
    exists i :: 0 <= i < |EndpointsWanted| && Truthy(Get(endpoints, EndpointsWanted[i].key))
  }

  /** Starting from `{}`, some role is set after the header pass exactly when
      the `Link` header names one of the three relations with a non-empty target. */
  lemma HeaderPassAnyRole(links: seq<LinkRef>)
    ensures AnyRole(HeaderPass(HeaderLookup(links), EndpointsWanted, map[])) <==>
              exists i :: 0 <= i < |EndpointsWanted| && FoundInHeaders(HeaderLookup(links), EndpointsWanted[i])
  {
    EndpointsWantedShape();
    forall i | 0 <= i < |EndpointsWanted| {
      HeaderPassRoles(HeaderLookup(links), EndpointsWanted, map[], i);
    }
  }

  // ----------------------------------------------------- discovery: page

  /** Where the page pass stands: the roles collected so far, and the message
      of the error that aborted it, if any. */
  datatype Pass = Pass(endpoints: map<string, Json>, error: Option<string>)

  /** The page lookup of each role, `findEndpointInBody` on the page's `<link>` elements. */
  function PageLookup(env: Env, elements: seq<LinkElement>): Wanted -> Result<string, string> {
    (w: Wanted) => FindEndpointInBody(env, elements, w)
  }

  /** One iteration of the page pass: an empty role is looked up (with
      `find`); a lookup error aborts the pass and keeps what was written
      before it. */
  function BodyStep(find: Wanted -> Result<string, string>, p: Pass, w: Wanted): Pass {
    if p.error.Some? || Truthy(Get(p.endpoints, w.key)) then p
    else
      match find(w)
      case Ok(href) => Pass(p.endpoints[w.key := Str(href)], None)
      case Err(m) => Pass(p.endpoints, Some(m))
  }

  /** The page pass over `wanted`, in list order, starting from `endpoints`. */
  function BodyPass(find: Wanted -> Result<string, string>, wanted: seq<Wanted>, endpoints: map<string, Json>): Pass
    decreases |wanted|
  {
    if wanted == [] then Pass(endpoints, None)
    else BodyStep(find, BodyPass(find, wanted[..|wanted| - 1], endpoints), wanted[|wanted| - 1])
  }

  /** The page pass writes only roles that were empty: a role already set,
      and any key outside the list, keeps its value. */
  lemma {:induction false} BodyPassKeeps(find: Wanted -> Result<string, string>, wanted: seq<Wanted>, endpoints: map<string, Json>)
    ensures var r := BodyPass(find, wanted, endpoints);
            && (forall k :: k in endpoints && Truthy(endpoints[k]) ==> k in r.endpoints && r.endpoints[k] == endpoints[k])
            && (forall k :: k !in Keys(wanted) ==> SameAt(r.endpoints, endpoints, k))
    decreases |wanted|
  {
    if wanted != [] {
      var init := wanted[..|wanted| - 1];
      var last := wanted[|wanted| - 1];
      BodyPassKeeps(find, init, endpoints);
      assert Keys(wanted) == Keys(init) + [last.key];
    }
  }

  /** A role the page pass can settle: already set, or found in the page. */
  predicate Settled(find: Wanted -> Result<string, string>, endpoints: map<string, Json>, w: Wanted) {
    Truthy(Get(endpoints, w.key)) || find(w).Ok?
  }

  /** The page pass completes without error exactly when every role was
      either already set or is found in the page. */
  lemma {:induction false} BodyPassSucceeds(find: Wanted -> Result<string, string>, wanted: seq<Wanted>, endpoints: map<string, Json>)
    requires DistinctKeys(wanted)
    ensures BodyPass(find, wanted, endpoints).error.None? <==>
              forall i :: 0 <= i < |wanted| ==> Settled(find, endpoints, wanted[i])
    decreases |wanted|
  {
    if wanted != [] {
      var init := wanted[..|wanted| - 1];
      var last := wanted[|wanted| - 1];
      DistinctInit(wanted);
      BodyPassSucceeds(find, init, endpoints);
      BodyPassKeeps(find, init, endpoints);
      var p := BodyPass(find, init, endpoints);
      var r := BodyPass(find, wanted, endpoints);
      assert r == BodyStep(find, p, last);
      assert SameAt(p.endpoints, endpoints, last.key);
      if p.error.Some? {
        var i :| 0 <= i < |init| && !Settled(find, endpoints, init[i]);
        assert wanted[i] == init[i];
      } else if r.error.None? {
        assert Settled(find, endpoints, last);
        forall i | 0 <= i < |wanted| ensures Settled(find, endpoints, wanted[i]) {
          if i < |init| {
            assert wanted[i] == init[i];
          }
        }
      } else {
        assert !Settled(find, endpoints, wanted[|wanted| - 1]);
      }
    }
  }

  /** With distinct keys, a page pass that completes leaves every role set. */
  lemma {:induction false} BodyPassFillsAll(find: Wanted -> Result<string, string>, wanted: seq<Wanted>, endpoints: map<string, Json>)
    requires DistinctKeys(wanted)
    requires forall i :: 0 <= i < |wanted| && find(wanted[i]).Ok? ==> find(wanted[i]).value != ""
    requires BodyPass(find, wanted, endpoints).error.None?
    ensures forall i :: 0 <= i < |wanted| ==> Truthy(Get(BodyPass(find, wanted, endpoints).endpoints, wanted[i].key))
    decreases |wanted|
  {
    if wanted != [] {
      var init := wanted[..|wanted| - 1];
      var last := wanted[|wanted| - 1];
      DistinctInit(wanted);
      var p := BodyPass(find, init, endpoints);
      var r := BodyPass(find, wanted, endpoints);
      assert r == BodyStep(find, p, last);
      BodyPassFillsAll(find, init, endpoints);
      forall i | 0 <= i < |wanted| ensures Truthy(Get(r.endpoints, wanted[i].key)) {
        if i < |init| {
          assert wanted[i] == init[i] && Keys(init)[i] == init[i].key;
          assert Truthy(Get(p.endpoints, init[i].key));
        }
      }
    }
  }

  /** A failed page pass names the lookup error of a role that was empty. */
  lemma {:induction false} BodyPassError(find: Wanted -> Result<string, string>, wanted: seq<Wanted>, endpoints: map<string, Json>)
    ensures var r := BodyPass(find, wanted, endpoints);
            r.error.Some? ==> exists i :: 0 <= i < |wanted| && find(wanted[i]) == Err(r.error.value)
    decreases |wanted|
  {
    if wanted != [] {
      var init := wanted[..|wanted| - 1];
      BodyPassError(find, init, endpoints);
      var p := BodyPass(find, init, endpoints);
      if p.error.Some? {
        var i :| 0 <= i < |init| && find(init[i]) == Err(p.error.value);
        assert wanted[i] == init[i];
      }
    }
  }

  // ------------------------------------------------------ discovery: /try/

  const NoAddressMessage := "No web address specified."
  const HeadersFailedMessage := "Error while getting headers from your web address."
  const NoDiscoveryUrlMessage := "We could not make a request to the discovery endpoint."
  const PageFailedMessage := "Error while parsing the page source of your web address."
  const NotHtmlMessage := "The web address did not return HTML content. Are the headers set correctly?"

  /** The four replies `/try/` may wait for: the HEAD of the entered address,
      the GET of a temporary redirect's target, the HEAD of the discovery URL,
      and the GET of the discovery page. */
  datatype TryReplies = TryReplies(head: Reply, follow: Reply, discovery: Reply, page: Reply)

  /** `Object.assign({}, session.user, {profileUrl, discoveryUrl})`. */
  function WithProfile(bag: map<string, Json>, urls: ProfileUrls): (r: map<string, Json>)
    ensures r.Keys == bag.Keys + {"user"}
    ensures forall k :: k in bag && k != "user" ==> r[k] == bag[k]
    ensures r["user"].Obj?
    ensures Get(r["user"].fields, "profileUrl") == Str(urls.profileUrl)
    ensures Get(r["user"].fields, "discoveryUrl") == Str(urls.discoveryUrl)
    ensures r["user"].fields.Keys == AsObject(Get(bag, "user")).Keys + {"profileUrl", "discoveryUrl"}
    ensures forall k :: k in AsObject(Get(bag, "user")) && k != "profileUrl" && k != "discoveryUrl" ==>
              k in r["user"].fields && r["user"].fields[k] == AsObject(Get(bag, "user"))[k]
  {
    bag["user" := Obj(AsObject(Get(bag, "user"))["profileUrl" := Str(urls.profileUrl)]["discoveryUrl" := Str(urls.discoveryUrl)])]
  }

  /** How far the first part of `/try/` got: the session, the failure that
      stopped it (if any), and the requests sent. */
  datatype Progress = Progress(bag: map<string, Json>, failure: Option<Failure>, sent: seq<HttpRequest>)

  /** `/try/` up to storing the profile and discovery URLs in `session.user`. */
  function TryProfile(env: Env, bag: map<string, Json>, body: map<string, Json>, replies: TryReplies): Progress {
    var me := Get(body, "me");
    if me == Undefined then Progress(bag, Some(AppError(NoAddressMessage)), [])
    else
      var tz := Get(body, "timezone");
      var b := if Truthy(tz) then WithTimezone(bag, tz) else bag;
      if !me.Str? then Progress(b, Some(AppError(TypeErrorMessage)), [])
      else
        var d := GetProfileAndDiscoveryUrls(env, me.s, replies.head, replies.follow);
        match d.result
        case Err(m) => Progress(b, Some(AppError(m)), d.sent)
        case Ok(urls) => Progress(WithProfile(b, urls), None, d.sent)
  }

  /** `response.headers["content-type"]` is present and mentions `text/html`. */
  predicate IsHtml(page: HttpResponse) {
    var ct := Header(page, "content-type");
    ct.Some? && ct.value != "" && Includes(ct.value, "text/html")
  }

  /** `/try/` once the header pass found no role: fetch the discovery page
      and run the page pass on it. */
  function TryPage(env: Env, bag: map<string, Json>, page: Reply): Transition {
    var discoveryUrl := Prop(Get(bag, "user"), "discoveryUrl");
    if !Truthy(discoveryUrl) then Transition(bag, Fail(AppError(NoDiscoveryUrlMessage)), [])
    else
      var sent := [HttpRequest("GET", ToStr(discoveryUrl), [], [])];
      match page
      case Unreachable(m) => Transition(bag, Fail(AppError(m)), sent)
      case Received(resp) =>
        if !IsOk(resp.status) then Transition(bag, Fail(AppError(PageFailedMessage)), sent)
        else if !IsHtml(resp) then Transition(bag, Fail(AppError(NotHtmlMessage)), sent)
        else
          var p := BodyPass(PageLookup(env, env.linkElements(resp.body)), EndpointsWanted, AsObject(Get(bag, "endpoints")));
          var b := bag["endpoints" := Obj(p.endpoints)];
          if p.error.Some? then Transition(b, Fail(AppError(p.error.value)), sent)
          else Transition(b, Redirect("/login/auth/", []), sent)
  }

  /** `/try/` from the HEAD of the discovery URL on. */
  function TryDiscover(env: Env, bag: map<string, Json>, replies: TryReplies): Transition {
    var headRequest := HttpRequest("HEAD", ToStr(Prop(Get(bag, "user"), "discoveryUrl")), [], []);
    match replies.discovery
    case Unreachable(m) => Transition(bag, Fail(AppError(m)), [headRequest])
    case Received(resp) =>
      if !IsOk(resp.status) then Transition(bag, Fail(AppError(HeadersFailedMessage)), [headRequest])
      else
        var found := HeaderPass(HeaderLookup(LinkRefs(env, resp)), EndpointsWanted, map[]);
        var b := bag["endpoints" := Obj(found)];
        if AnyRole(found) then Transition(b, Redirect("/login/auth/", []), [headRequest])
        else
          var t := TryPage(env, b, replies.page);
          Transition(t.bag, t.outcome, [headRequest] + t.sent)
  }

  /** `POST /try/`. */
  function Try(env: Env, bag: map<string, Json>, body: map<string, Json>, replies: TryReplies): Transition {
    var p := TryProfile(env, bag, body, replies);
    if p.failure.Some? then Transition(p.bag, Fail(p.failure.value), p.sent)
    else
      var t := TryDiscover(env, p.bag, replies);
      Transition(t.bag, t.outcome, p.sent + t.sent)
  }

  /** Without an address the handler fails at once: nothing is sent and the
      session is unchanged. */
  lemma TryWithoutAddress(env: Env, bag: map<string, Json>, body: map<string, Json>, replies: TryReplies)
    requires Get(body, "me") == Undefined
    ensures Try(env, bag, body, replies) == Transition(bag, Fail(AppError(NoAddressMessage)), [])
  {
  }

  /** An address that fails validation fails with the validation message
      before any request is sent. */
  lemma TryInvalidAddress(env: Env, bag: map<string, Json>, body: map<string, Json>, replies: TryReplies, u: Url)
    requires Get(body, "me").Str? && MakeUrl(env, Get(body, "me").s) == Ok(u) && IsValidUrl(env, u).Invalid?
    ensures Try(env, bag, body, replies).outcome == Fail(AppError(IsValidUrl(env, u).message))
    ensures Try(env, bag, body, replies).sent == []
  {
  }

  /** The first part of `/try/` changes only `session.user`. */
  lemma TryProfileTouchesOnlyUser(env: Env, bag: map<string, Json>, body: map<string, Json>, replies: TryReplies)
    ensures forall k :: k != "user" ==> SameAt(TryProfile(env, bag, body, replies).bag, bag, k)
  {
  }

  /** The second part of `/try/` changes only `session.endpoints`. */
  lemma TryDiscoverTouchesOnlyEndpoints(env: Env, bag: map<string, Json>, replies: TryReplies)
    ensures forall k :: k != "endpoints" ==> SameAt(TryDiscover(env, bag, replies).bag, bag, k)
  {
  }

  /** The user fields `/try/` leaves as it found them, apart from the ones it sets. */
  predicate KeepsUserFields(before: map<string, Json>, after: map<string, Json>) {
    "user" in after && after["user"].Obj?
    && forall k :: k in AsObject(Get(before, "user")) && k !in {"timezone", "profileUrl", "discoveryUrl"} ==>
         k in after["user"].fields && after["user"].fields[k] == AsObject(Get(before, "user"))[k]
  }

  /** The first part of `/try/` stores a submitted time zone in `session.user`. */
  lemma TryProfileTimezone(env: Env, bag: map<string, Json>, body: map<string, Json>, replies: TryReplies)
    requires Get(body, "me") != Undefined && Truthy(Get(body, "timezone"))
    ensures var p := TryProfile(env, bag, body, replies);
            KeepsUserFields(bag, p.bag) && Get(p.bag["user"].fields, "timezone") == Get(body, "timezone")
  {
    var p := TryProfile(env, bag, body, replies);
    var b := WithTimezone(bag, Get(body, "timezone"));
    assert KeepsUserFields(bag, b);
    var me := Get(body, "me");
    if me.Str? {
      var d := GetProfileAndDiscoveryUrls(env, me.s, replies.head, replies.follow);
      if d.result.Ok? {
        assert p.bag == WithProfile(b, d.result.value);
      } else {
        assert p.bag == b;
      }
    } else {
      assert p.bag == b;
    }
  }

  /** A submitted time zone ends up in `session.user`, with the user's other
      fields kept, whatever happens after it. */
  lemma TryKeepsTimezone(env: Env, bag: map<string, Json>, body: map<string, Json>, replies: TryReplies)
    requires Get(body, "me") != Undefined && Truthy(Get(body, "timezone"))
    ensures var r := Try(env, bag, body, replies);
            KeepsUserFields(bag, r.bag) && Get(r.bag["user"].fields, "timezone") == Get(body, "timezone")
  {
    var p := TryProfile(env, bag, body, replies);
    TryProfileTimezone(env, bag, body, replies);
    if p.failure.None? {
      var t := TryDiscover(env, p.bag, replies);
      TryDiscoverTouchesOnlyEndpoints(env, p.bag, replies);
      assert SameAt(t.bag, p.bag, "user");
      assert Try(env, bag, body, replies).bag == t.bag;
    }
  }

  /** Once the discovery HEAD succeeds: `endpoints` becomes the header pass
      started from `{}`; when that found a role the handler redirects to
      `/login/auth/` without fetching the page, and the page is fetched only
      when no role was found. */
  lemma TryHeaderPass(env: Env, bag: map<string, Json>, replies: TryReplies, resp: HttpResponse)
    requires replies.discovery == Received(resp) && IsOk(resp.status)
    ensures var t := TryDiscover(env, bag, replies);
            var found := HeaderPass(HeaderLookup(LinkRefs(env, resp)), EndpointsWanted, map[]);
            && (AnyRole(found) ==> t == Transition(bag["endpoints" := Obj(found)], Redirect("/login/auth/", []),
                                                   [HttpRequest("HEAD", ToStr(Prop(Get(bag, "user"), "discoveryUrl")), [], [])]))
            && (|t.sent| == 2 <==> !AnyRole(found) && Truthy(Prop(Get(bag, "user"), "discoveryUrl")))
            && (|t.sent| == 2 ==> t.sent[1].verb == "GET")
  {
  }

  /** Every redirect to `/login/auth/` leaves at least one role in
      `endpoints`; when the page had to be read, all three roles are set. */
  lemma TryRedirectHasRoles(env: Env, bag: map<string, Json>, replies: TryReplies)
    ensures var t := TryDiscover(env, bag, replies);
            t.outcome.Redirect? ==>
              && "endpoints" in t.bag && t.bag["endpoints"].Obj?
              && AnyRole(t.bag["endpoints"].fields)
              && (|t.sent| == 2 ==> forall i :: 0 <= i < |EndpointsWanted| ==> Truthy(Get(t.bag["endpoints"].fields, EndpointsWanted[i].key)))
  {
    var t := TryDiscover(env, bag, replies);
    if t.outcome.Redirect? && |t.sent| == 2 {
      var resp := replies.discovery.response;
      var page := replies.page.response;
      var found := HeaderPass(HeaderLookup(LinkRefs(env, resp)), EndpointsWanted, map[]);
      EndpointsWantedShape();
      BodyPassFillsAll(PageLookup(env, env.linkElements(page.body)), EndpointsWanted, found);
      var e := t.bag["endpoints"].fields;
      assert Truthy(Get(e, EndpointsWanted[0].key));
    }
  }

  /** `/try/` never logs anyone in: `isLoggedIn` and `appState` keep their values. */
  lemma TryKeepsLoginState(env: Env, bag: map<string, Json>, body: map<string, Json>, replies: TryReplies)
    ensures var r := Try(env, bag, body, replies);
            Get(r.bag, "isLoggedIn") == Get(bag, "isLoggedIn") && Get(r.bag, "appState") == Get(bag, "appState")
  {
    var p := TryProfile(env, bag, body, replies);
    TryProfileTouchesOnlyUser(env, bag, body, replies);
    assert SameAt(p.bag, bag, "isLoggedIn") && SameAt(p.bag, bag, "appState");
    if p.failure.None? {
      var t := TryDiscover(env, p.bag, replies);
      TryDiscoverTouchesOnlyEndpoints(env, p.bag, replies);
      assert SameAt(t.bag, p.bag, "isLoggedIn") && SameAt(t.bag, p.bag, "appState");
      assert Try(env, bag, body, replies).bag == t.bag;
    }
  }

  /** The header pass as the handler runs it: `session.endpoints` is written
      role by role. */
  method CollectFromHeaders(s: Session, links: seq<LinkRef>)
    modifies s
    requires "endpoints" in s.bag && s.bag["endpoints"] == Obj(map[])
    ensures s.bag == old(s.bag)["endpoints" := Obj(HeaderPass(HeaderLookup(links), EndpointsWanted, map[]))]
    ensures s.destroyed == old(s.destroyed)
  {
    var i := 0;
    while i < |EndpointsWanted|
      invariant 0 <= i <= |EndpointsWanted|
      invariant s.bag == old(s.bag)["endpoints" := Obj(HeaderPass(HeaderLookup(links), EndpointsWanted[..i], map[]))]
      invariant s.destroyed == old(s.destroyed)
    {
      var wanted := EndpointsWanted[i];
      var endpoint := FindEndpointInHeaders(links, wanted.name);
      if endpoint.Some? && endpoint.value != "" {
        s.bag := s.bag["endpoints" := Obj(AsObject(s.bag["endpoints"])[wanted.key := Str(endpoint.value)])];
      }
      assert EndpointsWanted[..i + 1][..i] == EndpointsWanted[..i];
      i := i + 1;
    }
    assert EndpointsWanted[..|EndpointsWanted|] == EndpointsWanted;
  }

  /** One iteration of the page pass as the handler runs it: an empty role is
      looked up in the page and, when found, written to `session.endpoints`. */
  method CollectRoleFromPage(s: Session, env: Env, elements: seq<LinkElement>, p: Pass, wanted: Wanted)
    returns (q: Pass)
    modifies s
    requires "endpoints" in s.bag && s.bag["endpoints"] == Obj(p.endpoints)
    ensures q == BodyStep(PageLookup(env, elements), p, wanted)
    ensures s.bag == old(s.bag)["endpoints" := Obj(q.endpoints)]
    ensures s.destroyed == old(s.destroyed)
  {
    q := p;
    if p.error.None? && !Truthy(Get(p.endpoints, wanted.key)) {
      var endpoint := FindEndpointInBody(env, elements, wanted);
      if endpoint.Err? {
        q := Pass(p.endpoints, Some(endpoint.error));
      } else {
        q := Pass(p.endpoints[wanted.key := Str(endpoint.value)], None);
        s.bag := s.bag["endpoints" := Obj(q.endpoints)];
      }
    }
  }

  /** The page pass as the handler runs it over the wanted roles: each empty
      role is looked up and written; the first lookup error stops the loop. */
  method CollectFromPage(s: Session, env: Env, elements: seq<LinkElement>, wanted: seq<Wanted>)
    returns (error: Option<string>)
    modifies s
    requires "endpoints" in s.bag && s.bag["endpoints"].Obj?
    ensures var p := BodyPass(PageLookup(env, elements), wanted, old(s.bag)["endpoints"].fields);
            s.bag == old(s.bag)["endpoints" := Obj(p.endpoints)] && error == p.error
    ensures s.destroyed == old(s.destroyed)
  {
    ghost var start := s.bag["endpoints"].fields;
    ghost var find := PageLookup(env, elements);
    var p := Pass(s.bag["endpoints"].fields, None);
    var i := 0;
    while i < |wanted|
      invariant 0 <= i <= |wanted|
      invariant BodyPass(find, wanted[..i], start) == p
      invariant s.bag == old(s.bag)["endpoints" := Obj(p.endpoints)]
      invariant s.destroyed == old(s.destroyed)
    {
      var w := wanted[i];
      assert wanted[..i + 1][..i] == wanted[..i];
      p := CollectRoleFromPage(s, env, elements, p, w);
      i := i + 1;
    }
    assert wanted[..|wanted|] == wanted;
    error := p.error;
  }

  /** `/try/` up to storing the profile and discovery URLs, as the handler runs it. */
  method TryProfileStage(s: Session, env: Env, body: map<string, Json>, replies: TryReplies)
    returns (failure: Option<Failure>, sent: seq<HttpRequest>)
    modifies s
    ensures Progress(s.bag, failure, sent) == TryProfile(env, old(s.bag), body, replies)
    ensures s.destroyed == old(s.destroyed)
  {
    var me := Get(body, "me");
    if me == Undefined {
      return Some(AppError(NoAddressMessage)), [];
    }
    if Truthy(Get(body, "timezone")) {
      var user := AsObject(Get(s.bag, "user"));
      s.bag := s.bag["user" := Obj(user["timezone" := Get(body, "timezone")])];
    }
    if !me.Str? {
      return Some(AppError(TypeErrorMessage)), [];
    }
    var discovered := GetProfileAndDiscoveryUrls(env, me.s, replies.head, replies.follow);
    sent := discovered.sent;
    if discovered.result.Err? {
      return Some(AppError(discovered.result.error)), sent;
    }
    var urls := discovered.result.value;
    s.bag := s.bag["user" := Obj(AsObject(Get(s.bag, "user"))["profileUrl" := Str(urls.profileUrl)]["discoveryUrl" := Str(urls.discoveryUrl)])];
    failure := None;
  }

  /** `/try/` once no role was found in the headers, as the handler runs it. */
  method TryPageStage(s: Session, env: Env, page: Reply)
    returns (outcome: Outcome, sent: seq<HttpRequest>)
    modifies s
    requires "endpoints" in s.bag && s.bag["endpoints"].Obj?
    ensures Transition(s.bag, outcome, sent) == TryPage(env, old(s.bag), page)
    ensures s.destroyed == old(s.destroyed)
  {
    var discoveryUrl := Prop(Get(s.bag, "user"), "discoveryUrl");
    if !Truthy(discoveryUrl) {
      return Fail(AppError(NoDiscoveryUrlMessage)), [];
    }
    sent := [HttpRequest("GET", ToStr(discoveryUrl), [], [])];
    if page.Unreachable? {
      return Fail(AppError(page.message)), sent;
    }
    var resp := page.response;
    if !IsOk(resp.status) {
      return Fail(AppError(PageFailedMessage)), sent;
    }
    if !IsHtml(resp) {
      return Fail(AppError(NotHtmlMessage)), sent;
    }
    var error := CollectFromPage(s, env, env.linkElements(resp.body), EndpointsWanted);
    if error.Some? {
      return Fail(AppError(error.value)), sent;
    }
    outcome := Redirect("/login/auth/", []);
  }

  /** `/try/` from the HEAD of the discovery URL on, as the handler runs it. */
  method TryDiscoverStage(s: Session, env: Env, replies: TryReplies)
    returns (outcome: Outcome, sent: seq<HttpRequest>)
    modifies s
    ensures Transition(s.bag, outcome, sent) == TryDiscover(env, old(s.bag), replies)
    ensures s.destroyed == old(s.destroyed)
  {
    sent := [HttpRequest("HEAD", ToStr(Prop(Get(s.bag, "user"), "discoveryUrl")), [], [])];
    if replies.discovery.Unreachable? {
      return Fail(AppError(replies.discovery.message)), sent;
    }
    var resp := replies.discovery.response;
    if !IsOk(resp.status) {
      return Fail(AppError(HeadersFailedMessage)), sent;
    }
    s.bag := s.bag["endpoints" := Obj(map[])];
    CollectFromHeaders(s, LinkRefs(env, resp));
    ghost var found := HeaderPass(HeaderLookup(LinkRefs(env, resp)), EndpointsWanted, map[]);
    assert s.bag == old(s.bag)["endpoints" := Obj(found)];
    if AnyRole(s.bag["endpoints"].fields) {
      return Redirect("/login/auth/", []), sent;
    }
    ghost var afterHeaders := s.bag;
    var pageRequests;
    outcome, pageRequests := TryPageStage(s, env, replies.page);
    assert Transition(s.bag, outcome, pageRequests) == TryPage(env, afterHeaders, replies.page);
    sent := sent + pageRequests;
  }

  /** `POST /try/` as the handler runs it. */
  method TryHandler(s: Session, env: Env, body: map<string, Json>, replies: TryReplies)
    returns (outcome: Outcome, sent: seq<HttpRequest>)
    modifies s
    ensures Transition(s.bag, outcome, sent) == Try(env, old(s.bag), body, replies)
    ensures s.destroyed == old(s.destroyed)
  {
    var failure, profileRequests := TryProfileStage(s, env, body, replies);
    if failure.Some? {
      return Fail(failure.value), profileRequests;
    }
    var discoveryRequests;
    outcome, discoveryRequests := TryDiscoverStage(s, env, replies);
    sent := profileRequests + discoveryRequests;
  }

  // ------------------------------------------------------------- /auth/

  const LostAuthorizationMessage := "Uh oh. It looks like we somehow lost the authorization endpoint while processing your request. Try again?"

  /** The query of the authorization request: the user's profile URL, the
      client's registration, the CSRF secret as `state`, `scope=create` and
      `response_type=code`, in that order. */
  function AuthQuery(config: AppConfig, bag: map<string, Json>): (q: seq<Param>)
    ensures Names(q) == ["me", "client_id", "redirect_uri", "state", "scope", "response_type"]
    ensures Lookup(q, "me") == Some(ToStr(Prop(Get(bag, "user"), "profileUrl")))
    ensures Lookup(q, "client_id") == Some(config.clientId)
    ensures Lookup(q, "redirect_uri") == Some(config.redirectUri)
    ensures Lookup(q, "state") == Some(ToStr(Get(bag, "csrfSecret")))
    ensures Lookup(q, "scope") == Some("create")
    ensures Lookup(q, "response_type") == Some("code")
  {
    var q := [ Param("me", ToStr(Prop(Get(bag, "user"), "profileUrl"))),
               Param("client_id", config.clientId),
               Param("redirect_uri", config.redirectUri),
               Param("state", ToStr(Get(bag, "csrfSecret"))),
               Param("scope", "create"),
               Param("response_type", "code") ];
    assert Names(q) == ["me", "client_id", "redirect_uri", "state", "scope", "response_type"];
    LookupFirst(q, "me", 0);
    LookupFirst(q, "client_id", 1);
    LookupFirst(q, "redirect_uri", 2);
    LookupFirst(q, "state", 3);
    LookupFirst(q, "scope", 4);
    LookupFirst(q, "response_type", 5);
    q
  }

  /** `GET /auth/`: redirect to the stored authorization endpoint with the
      authorization request in the query, or fail when none is stored. */
  function Auth(config: AppConfig, bag: map<string, Json>): (o: Outcome)
    ensures o.Redirect? <==> Truthy(Prop(Get(bag, "endpoints"), "authorization"))
    ensures o.Redirect? ==> o.location == ToStr(Prop(Get(bag, "endpoints"), "authorization"))
                            && o.query == AuthQuery(config, bag)
    ensures o.Fail? ==> o == Fail(AppError(LostAuthorizationMessage))
  {
    if Truthy(Prop(Get(bag, "endpoints"), "authorization")) then
      Redirect(ToStr(Prop(Get(bag, "endpoints"), "authorization")), AuthQuery(config, bag))
    else Fail(AppError(LostAuthorizationMessage))
  }

  /** After discovery found the authorization endpoint in the `Link` header,
      `/auth/` sends the browser to exactly that endpoint. */
  lemma TryThenAuth(env: Env, config: AppConfig, bag: map<string, Json>, replies: TryReplies, resp: HttpResponse)
    requires replies.discovery == Received(resp) && IsOk(resp.status)
    requires FoundInHeaders(HeaderLookup(LinkRefs(env, resp)), EndpointsWanted[0])
    ensures var t := TryDiscover(env, bag, replies);
            Auth(config, t.bag) == Redirect(FindEndpointInHeaders(LinkRefs(env, resp), "authorization_endpoint").value,
                                             AuthQuery(config, t.bag))
  {
    var links := LinkRefs(env, resp);
    EndpointsWantedShape();
    HeaderPassRoles(HeaderLookup(links), EndpointsWanted, map[], 0);
    var found := HeaderPass(HeaderLookup(links), EndpointsWanted, map[]);
    assert Truthy(Get(found, EndpointsWanted[0].key));
    assert AnyRole(found);
  }

  // --------------------------------------------------------- /callback/

  const NoCodeMessage := "No code provided by the authorization server."
  const NoAuthorizationEndpointMessage := "We could not make a request to the authorization endpoint."
  const NoCanonicalUrlMessage := "The authorization server did not return your canonical URL."
  const NoScopeMessage := "The authorization server did not return any scope."

  /** The code-verification request sent to the authorization endpoint. */
  function VerificationRequest(config: AppConfig, bag: map<string, Json>, code: Json): HttpRequest {
    HttpRequest("POST", ToStr(Prop(Get(bag, "endpoints"), "authorization")),
                [Param("Accept", "application/json")],
                [Param("client_id", config.clientId), Param("redirect_uri", config.redirectUri), Param("code", ToStr(code))])
  }

  /** `GET /callback/`, given the authorization endpoint's reply. */
  function Callback(env: Env, config: AppConfig, bag: map<string, Json>, query: map<string, Json>, reply: Reply): Transition {
    var code := Get(query, "code");
    if !Truthy(code) then Transition(bag, Fail(AppError(NoCodeMessage)), [])
    else if !Truthy(Prop(Get(bag, "endpoints"), "authorization")) then
      Transition(bag, Fail(AppError(NoAuthorizationEndpointMessage)), [])
    else
      var sent := [VerificationRequest(config, bag, code)];
      match ReadJson(env, reply)
      case Err(m) => Transition(bag, Fail(AppError(m)), sent)
      case Ok(data) =>
        if !Truthy(Prop(data, "me")) then Transition(bag, Fail(AppError(NoCanonicalUrlMessage)), sent)
        else if !Truthy(Prop(data, "scope")) then Transition(bag, Fail(AppError(NoScopeMessage)), sent)
        else Transition(bag["code" := code], Redirect("/login/token/", []), sent)
  }

  /** The callback stores the code and moves on to `/login/token/` exactly when
      a code came in, an authorization endpoint is stored, and the verified
      reply carries both `me` and `scope`; in every other case it fails and
      the session is untouched. */
  lemma CallbackOutcome(env: Env, config: AppConfig, bag: map<string, Json>, query: map<string, Json>, reply: Reply)
    ensures var r := Callback(env, config, bag, query, reply);
            && (r.outcome.Redirect? <==>
                  && Truthy(Get(query, "code"))
                  && Truthy(Prop(Get(bag, "endpoints"), "authorization"))
                  && ReadJson(env, reply).Ok?
                  && Truthy(Prop(ReadJson(env, reply).value, "me"))
                  && Truthy(Prop(ReadJson(env, reply).value, "scope")))
            && (r.outcome.Redirect? ==> r.outcome == Redirect("/login/token/", []) && r.bag == bag["code" := Get(query, "code")])
            && (!r.outcome.Redirect? ==> r.outcome.Fail? && r.outcome.failure.AppError? && r.bag == bag)
            && (!Truthy(Get(query, "code")) ==> r.outcome == Fail(AppError(NoCodeMessage)) && r.sent == [])
  {
  }

  /** `GET /callback/` as the handler runs it. */
  method CallbackHandler(s: Session, env: Env, config: AppConfig, query: map<string, Json>, reply: Reply)
    returns (outcome: Outcome, sent: seq<HttpRequest>)
    modifies s
    ensures Transition(s.bag, outcome, sent) == Callback(env, config, old(s.bag), query, reply)
    ensures s.destroyed == old(s.destroyed)
  {
    var code := Get(query, "code");
    if !Truthy(code) {
      return Fail(AppError(NoCodeMessage)), [];
    }
    if !Truthy(Prop(Get(s.bag, "endpoints"), "authorization")) {
      return Fail(AppError(NoAuthorizationEndpointMessage)), [];
    }
    sent := [VerificationRequest(config, s.bag, code)];
    var data := ReadJson(env, reply);
    if data.Err? {
      return Fail(AppError(data.error)), sent;
    }
    if !Truthy(Prop(data.value, "me")) {
      return Fail(AppError(NoCanonicalUrlMessage)), sent;
    }
    if !Truthy(Prop(data.value, "scope")) {
      return Fail(AppError(NoScopeMessage)), sent;
    }
    s.bag := s.bag["code" := code];
    outcome := Redirect("/login/token/", []);
  }

  // -------------------------------------------------------- CSRF errors

  /** The error handler mounted after `/callback/`: a CSRF failure (`code`
      `EBADCSRFTOKEN`) becomes the "Form tampered with." AppError; any other
      error passes through unchanged. */
  function CsrfErrorHandler(err: Json): (r: Json)
    ensures Prop(err, "code") != Str("EBADCSRFTOKEN") ==> r == err
    ensures Prop(err, "code") == Str("EBADCSRFTOKEN") ==>
              r == Obj(map["code" := Str("AppError"), "message" := Str("Form tampered with.")])
    ensures Prop(r, "code") != Str("EBADCSRFTOKEN")
  {
    if Prop(err, "code") != Str("EBADCSRFTOKEN") then err
    else Obj(map["code" := Str("AppError"), "message" := Str("Form tampered with.")])
  }

  /** Handling twice is handling once. */
  lemma CsrfErrorHandlerIdempotent(err: Json)
    ensures CsrfErrorHandler(CsrfErrorHandler(err)) == CsrfErrorHandler(err)
  {
  }

  // ------------------------------------------------------------ /token/

  const TokenEndpointMissingMessage := "Strangely, the token endpoint went missing while processing your request. Try again?"
  const NoAccessTokenMessage := "We did not receive an access token from the token endpoint."
  const NoTokenTypeMessage := "We received an access token but not the access token type from the token endpoint."
  const NoTokenScopeMessage := "We received an access token and its type without any scope. This token was issued incorrectly."

  /** The token request sent to the token endpoint. */
  function TokenRequest(config: AppConfig, bag: map<string, Json>): HttpRequest {
    HttpRequest("POST", ToStr(Prop(Get(bag, "endpoints"), "token")),
                [Param("Accept", "application/json")],
                [ Param("me", ToStr(Prop(Get(bag, "user"), "profileUrl"))),
                  Param("client_id", config.clientId),
                  Param("redirect_uri", config.redirectUri),
                  Param("code", ToStr(Get(bag, "code"))),
                  Param("grant_type", "authorization_code") ])
  }

  /** The message of the first required field the token reply lacks, checked
      in the order `access_token`, `token_type`, `scope`. */
  function MissingTokenField(data: Json): (r: Option<string>)
    ensures r.None? <==> Truthy(Prop(data, "access_token")) && Truthy(Prop(data, "token_type")) && Truthy(Prop(data, "scope"))
    ensures !Truthy(Prop(data, "access_token")) ==> r == Some(NoAccessTokenMessage)
    ensures Truthy(Prop(data, "access_token")) && !Truthy(Prop(data, "token_type")) ==> r == Some(NoTokenTypeMessage)
    ensures Truthy(Prop(data, "access_token")) && Truthy(Prop(data, "token_type")) && !Truthy(Prop(data, "scope")) ==>
              r == Some(NoTokenScopeMessage)
  {
    if !Truthy(Prop(data, "access_token")) then Some(NoAccessTokenMessage)
    else if !Truthy(Prop(data, "token_type")) then Some(NoTokenTypeMessage)
    else if !Truthy(Prop(data, "scope")) then Some(NoTokenScopeMessage)
    else None
  }

  /** The three token fields, as `indieauth` holds them after the exchange. */
  function TokenFields(data: Json): map<string, Json> {
    map["access_token" := Prop(data, "access_token"), "token_type" := Prop(data, "token_type"), "scope" := Prop(data, "scope")]
  }

  /** The session after a successful token exchange. */
  function LoggedIn(bag: map<string, Json>, data: Json): map<string, Json> {
    bag["code" := Null]["indieauth" := Obj(TokenFields(data))]["isLoggedIn" := Bool(true)]["appState" := UserState]
  }

  /** `GET /token/`, given the token endpoint's reply. */
  function Token(env: Env, config: AppConfig, bag: map<string, Json>, reply: Reply): Transition {
    if !Truthy(Prop(Get(bag, "endpoints"), "token")) then Transition(bag, Fail(AppError(TokenEndpointMissingMessage)), [])
    else
      var sent := [TokenRequest(config, bag)];
      match ReadJson(env, reply)
      case Err(m) => Transition(bag, Fail(AppError(m)), sent)
      case Ok(data) =>
        match MissingTokenField(data)
        case Some(m) => Transition(bag, Fail(AppError(m)), sent)
        case None => Transition(LoggedIn(bag, data), Redirect("/", []), sent)
  }

  /** The token exchange logs the user in exactly when a token endpoint is
      stored and the reply carries `access_token`, `token_type` and `scope`;
      every other way out is an AppError that leaves the session untouched
      (`code`, `indieauth` and `isLoggedIn` included). */
  lemma TokenOutcome(env: Env, config: AppConfig, bag: map<string, Json>, reply: Reply)
    ensures var r := Token(env, config, bag, reply);
            r.outcome.Redirect? <==>
              && Truthy(Prop(Get(bag, "endpoints"), "token"))
              && ReadJson(env, reply).Ok?
              && MissingTokenField(ReadJson(env, reply).value).None?
    ensures var r := Token(env, config, bag, reply);
            !r.outcome.Redirect? ==> r.outcome.Fail? && r.outcome.failure.AppError? && r.bag == bag
  {
  }

  /** A successful exchange stores the reply's token fields and sends the
      browser home. */
  lemma TokenLogsIn(env: Env, config: AppConfig, bag: map<string, Json>, reply: Reply)
    requires Token(env, config, bag, reply).outcome.Redirect?
    ensures ReadJson(env, reply).Ok? && MissingTokenField(ReadJson(env, reply).value).None?
    ensures Token(env, config, bag, reply) ==
              Transition(LoggedIn(bag, ReadJson(env, reply).value), Redirect("/", []), [TokenRequest(config, bag)])
  {
  }

  /** The logged-in session: `code` is null, `indieauth` holds exactly the
      three token fields (all truthy when the reply had them), `isLoggedIn`
      is true, `appState` is User, and every other key is kept. */
  lemma LoggedInShape(bag: map<string, Json>, data: Json)
    requires MissingTokenField(data).None?
    ensures var r := LoggedIn(bag, data);
            && r["code"] == Null
            && r["indieauth"] == Obj(TokenFields(data))
            && r["indieauth"].fields.Keys == {"access_token", "token_type", "scope"}
            && (forall k :: k in r["indieauth"].fields ==> Truthy(r["indieauth"].fields[k]))
            && r["isLoggedIn"] == Bool(true)
            && r["appState"] == UserState
            && r.Keys == bag.Keys + {"code", "indieauth", "isLoggedIn", "appState"}
            && (forall k :: k in bag && k != "code" && k != "indieauth" && k != "isLoggedIn" && k != "appState" ==>
                  r[k] == bag[k])
  {
  }

  /** A reply lacking a required field fails with that field's message and
      changes nothing in the session. */
  lemma TokenMissingField(env: Env, config: AppConfig, bag: map<string, Json>, reply: Reply, data: Json)
    requires Truthy(Prop(Get(bag, "endpoints"), "token")) && ReadJson(env, reply) == Ok(data)
    requires !Truthy(Prop(data, "access_token")) || !Truthy(Prop(data, "token_type")) || !Truthy(Prop(data, "scope"))
    ensures Token(env, config, bag, reply) == Transition(bag, Fail(AppError(MissingTokenField(data).value)), [TokenRequest(config, bag)])
  {
  }

  /** The token request carries the stored code as its `code` parameter. */
  lemma TokenSendsCode(env: Env, config: AppConfig, bag: map<string, Json>, reply: Reply)
    ensures var t := Token(env, config, bag, reply);
            t.sent != [] ==> Lookup(t.sent[0].form, "code") == Some(ToStr(Get(bag, "code")))
  {
    var t := Token(env, config, bag, reply);
    if t.sent != [] {
      var form := TokenRequest(config, bag).form;
      assert t.sent[0].form == form;
      LookupFirst(form, "code", 3);
    }
  }

  /** The code the callback stored is the code the token request carries, and
      once the exchange succeeds the guard sends the browser home from every
      login route. */
  lemma CallbackThenToken(env: Env, config: AppConfig, bag: map<string, Json>, query: map<string, Json>,
                          verify: Reply, reply: Reply)
    requires Callback(env, config, bag, query, verify).outcome.Redirect?
    ensures var c := Callback(env, config, bag, query, verify);
            var t := Token(env, config, c.bag, reply);
            && (t.sent != [] ==> Lookup(t.sent[0].form, "code") == Some(ToStr(Get(query, "code"))))
            && (t.outcome.Redirect? ==> LoggedInGuard(t.bag) == Some(Redirect("/", [])))
  {
    var c := Callback(env, config, bag, query, verify);
    assert Get(c.bag, "code") == Get(query, "code");
    TokenSendsCode(env, config, c.bag, reply);
    var t := Token(env, config, c.bag, reply);
    if t.outcome.Redirect? {
      TokenLogsIn(env, config, c.bag, reply);
      assert Get(t.bag, "isLoggedIn") == Bool(true);
    }
  }

  /** No other login route changes `isLoggedIn` or `appState`. */
  lemma OnlyTokenLogsIn(env: Env, config: AppConfig, bag: map<string, Json>, query: map<string, Json>, reply: Reply, csrfToken: string)
    ensures var c := Callback(env, config, bag, query, reply);
            Get(c.bag, "isLoggedIn") == Get(bag, "isLoggedIn") && Get(c.bag, "appState") == Get(bag, "appState")
    ensures var l := LoginPage(config, bag, csrfToken);
            Get(l.bag, "isLoggedIn") == Get(bag, "isLoggedIn") && Get(l.bag, "appState") == Get(bag, "appState")
  {
  }

  /** `GET /token/` as the handler runs it. */
  method TokenHandler(s: Session, env: Env, config: AppConfig, reply: Reply)
    returns (outcome: Outcome, sent: seq<HttpRequest>)
    modifies s
    ensures Transition(s.bag, outcome, sent) == Token(env, config, old(s.bag), reply)
    ensures s.destroyed == old(s.destroyed)
  {
    if !Truthy(Prop(Get(s.bag, "endpoints"), "token")) {
      return Fail(AppError(TokenEndpointMissingMessage)), [];
    }
    sent := [TokenRequest(config, s.bag)];
    var data := ReadJson(env, reply);
    if data.Err? {
      return Fail(AppError(data.error)), sent;
    }
    var missing := MissingTokenField(data.value);
    if missing.Some? {
      return Fail(AppError(missing.value)), sent;
    }
    ghost var before := s.bag;
    assert Token(env, config, before, reply) == Transition(LoggedIn(before, data.value), Redirect("/", []), sent);
    s.bag := s.bag["code" := Null];
    var fields: map<string, Json> := map[];
    fields := fields["access_token" := Prop(data.value, "access_token")];
    fields := fields["token_type" := Prop(data.value, "token_type")];
    fields := fields["scope" := Prop(data.value, "scope")];
    s.bag := s.bag["indieauth" := Obj(fields)];
    s.bag := s.bag["isLoggedIn" := Bool(true)];
    s.bag := s.bag["appState" := UserState];
    assert s.bag == LoggedIn(before, data.value);
    outcome := Redirect("/", []);
  }
}
