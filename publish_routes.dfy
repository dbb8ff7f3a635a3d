/** The publishing routes (src/routes/publish.ts): `POST /publish/`, which
    sends the post to the Micropub endpoint and remembers the new post's
    address, and `GET /success/`, which shows that address once. */
module PublishRoutes {
  import opened Js
  import opened Web
  import opened SessionStore
  import opened Helpers
  import opened PublishLib

  /** The publishing request, or the exception `prepareParams` throws. */
  function PublishRequest(env: Env, bag: map<string, Json>, body: map<string, Json>): Result<HttpRequest, string> {
    match PreparedParams(env, body, bag)
    case Err(m) => Err(m)
    case Ok(params) =>
      Ok(HttpRequest("POST", ToStr(Prop(Get(bag, "endpoints"), "micropub")),
                     [ Param("Accept", "application/json"),
                       Param("Authorization", "Bearer " + ToStr(Prop(Get(bag, "indieauth"), "access_token"))) ],
                     params))
  }

  /** The request goes to the stored Micropub endpoint with
      `Accept: application/json` and `Authorization: Bearer <indieauth.access_token>`
      and carries the prepared parameters. */
  lemma PublishRequestShape(env: Env, bag: map<string, Json>, body: map<string, Json>)
    ensures PublishRequest(env, bag, body).Ok? <==> PreparedParams(env, body, bag).Ok?
    ensures var r := PublishRequest(env, bag, body);
            r.Ok? ==>
              && r.value.verb == "POST"
              && r.value.url == ToStr(Prop(Get(bag, "endpoints"), "micropub"))
              && Lookup(r.value.headers, "Accept") == Some("application/json")
              && Lookup(r.value.headers, "Authorization") == Some("Bearer " + ToStr(Prop(Get(bag, "indieauth"), "access_token")))
              && r.value.form == PreparedParams(env, body, bag).value
  {
    var r := PublishRequest(env, bag, body);
    if r.Ok? {
      LookupFirst(r.value.headers, "Accept", 0);
      LookupFirst(r.value.headers, "Authorization", 1);
    }
  }

  /** The error that reaches `next` after the redirect when the server
      answers with an error status: `"<error> <error_description>"` from a
      reply that parses to something other than null; nothing when it does
      not parse or is null (the rejection goes unhandled). */
  function LateFailure(env: Env, resp: HttpResponse): Option<Failure> {
    if IsOk(resp.status) then None
    else
      match env.parseJson(resp.body)
      case Err(_) => None
      case Ok(data) =>
        if Nullish(data) then None
        else Some(MicropubServerError(ToStr(Prop(data, "error")) + " " + ToStr(Prop(data, "error_description"))))
  }

  /** What `POST /publish/` leaves behind; `late` is the error handed to
      `next` after the redirect was already sent. */
  datatype Published = Published(bag: map<string, Json>, outcome: Outcome, sent: seq<HttpRequest>, late: Option<Failure>)

  /** `POST /publish/`, given the Micropub endpoint's reply. */
  function Publish(env: Env, bag: map<string, Json>, body: map<string, Json>, reply: Reply): Published {
    match PublishRequest(env, bag, body)
    case Err(m) => Published(bag, Fail(Uncaught(m)), [], None)
    case Ok(request) =>
      match reply
      case Unreachable(m) => Published(bag, Fail(AppError(m)), [request], None)
      case Received(resp) =>
        var location := Header(resp, "location");
        var stored := if location.Some? && location.value != "" then bag["postLink" := Str(location.value)] else bag;
        Published(stored, Redirect("/publish/success/", []), [request], LateFailure(env, resp))
  }

  /** Any reply redirects to the success page, whatever its status; only a
      non-empty `Location` header changes the session, and then only
      `postLink`. */
  lemma PublishStoresLocation(env: Env, bag: map<string, Json>, body: map<string, Json>, resp: HttpResponse)
    requires PublishRequest(env, bag, body).Ok?
    ensures var p := Publish(env, bag, body, Received(resp));
            && p.outcome == Redirect("/publish/success/", [])
            && p.sent == [PublishRequest(env, bag, body).value]
            && ("location" in resp.headers && resp.headers["location"] != "" ==>
                  p.bag == bag["postLink" := Str(resp.headers["location"])])
            && (!("location" in resp.headers && resp.headers["location"] != "") ==> p.bag == bag)
  {
  }

  /** An error status whose body parses to an object hands
      `MicropubServerError("<error> <error_description>")` to `next`; a
      success status hands nothing. */
  lemma PublishLateError(env: Env, bag: map<string, Json>, body: map<string, Json>, resp: HttpResponse, data: map<string, Json>)
    requires PublishRequest(env, bag, body).Ok?
    ensures IsOk(resp.status) ==> Publish(env, bag, body, Received(resp)).late.None?
    ensures !IsOk(resp.status) && env.parseJson(resp.body) == Ok(Obj(data)) ==>
              Publish(env, bag, body, Received(resp)).late
                == Some(MicropubServerError(ToStr(Get(data, "error")) + " " + ToStr(Get(data, "error_description"))))
  {
  }

  /** Nothing is sent, and the session is kept, when the parameters cannot
      be prepared; an unreachable server fails with an AppError. */
  lemma PublishFailures(env: Env, bag: map<string, Json>, body: map<string, Json>, reply: Reply)
    ensures PublishRequest(env, bag, body).Err? ==>
              Publish(env, bag, body, reply) == Published(bag, Fail(Uncaught(PublishRequest(env, bag, body).error)), [], None)
    ensures PublishRequest(env, bag, body).Ok? && reply.Unreachable? ==>
              Publish(env, bag, body, reply).outcome == Fail(AppError(reply.message))
              && Publish(env, bag, body, reply).bag == bag
  {
  }

  /** `POST /publish/` as the handler runs it. */
  method PublishHandler(s: Session, env: Env, body: map<string, Json>, reply: Reply)
    returns (outcome: Outcome, sent: seq<HttpRequest>, late: Option<Failure>)
    modifies s
    ensures Published(s.bag, outcome, sent, late) == Publish(env, old(s.bag), body, reply)
    ensures s.destroyed == old(s.destroyed)
  {
    var params := PrepareParams(env, body, s.bag);
    if params.Err? {
      return Fail(Uncaught(params.error)), [], None;
    }
    var request := HttpRequest("POST", ToStr(Prop(Get(s.bag, "endpoints"), "micropub")),
                               [ Param("Accept", "application/json"),
                                 Param("Authorization", "Bearer " + ToStr(Prop(Get(s.bag, "indieauth"), "access_token"))) ],
                               params.value);
    sent := [request];
    if reply.Unreachable? {
      return Fail(AppError(reply.message)), sent, None;
    }
    var resp := reply.response;
    late := LateFailure(env, resp);
    var location := Header(resp, "location");
    if location.Some? && location.value != "" {
      s.bag := s.bag["postLink" := Str(location.value)];
    }
    outcome := Redirect("/publish/success/", []);
  }

  /** `GET /success/`: the page shows the stored `postLink`, which is then
      cleared from the session. */
  function Success(config: AppConfig, bag: map<string, Json>): Transition {
    var data := PageDataHelper(config, bag, map["pageTitle" := Str("Post Successfully Created"),
                                                "postLink" := Get(bag, "postLink")]);
    Transition(ClearKeys(bag, ["postLink"]), Render("publish/success", data), [])
  }

  /** The page shows the stored `postLink`. */
  lemma SuccessShowsPostLink(config: AppConfig, bag: map<string, Json>)
    ensures Success(config, bag).outcome.Render?
    ensures Success(config, bag).outcome.data["postLink"] == Get(bag, "postLink")
  {
  }

  /** The success page leaves no truthy `postLink` behind and keeps every
      other key, so a second visit shows a falsy one. */
  lemma SuccessClearsPostLink(config: AppConfig, bag: map<string, Json>)
    ensures var r := Success(config, bag);
            && !Truthy(Get(r.bag, "postLink"))
            && (forall k :: k != "postLink" ==> SameAt(r.bag, bag, k))
            && !Truthy(Success(config, r.bag).outcome.data["postLink"])
  {
    var r := Success(config, bag);
    assert ["postLink"][..0] == [];
    assert r.bag == DropIfTruthy(bag, "postLink");
    SuccessShowsPostLink(config, r.bag);
  }

  /** The address a successful publication stored is shown on the next
      success page, and on that one only. */
  lemma PublishThenSuccess(config: AppConfig, env: Env, bag: map<string, Json>, body: map<string, Json>,
                           resp: HttpResponse, location: string)
    requires PublishRequest(env, bag, body).Ok?
    requires Header(resp, "location") == Some(location) && location != ""
    ensures var p := Publish(env, bag, body, Received(resp));
            var first := Success(config, p.bag);
            && first.outcome.data["postLink"] == Str(location)
            && !Truthy(Success(config, first.bag).outcome.data["postLink"])
  {
    var p := Publish(env, bag, body, Received(resp));
    SuccessShowsPostLink(config, p.bag);
    SuccessClearsPostLink(config, p.bag);
  }

  /** `GET /success/` as the handler runs it. */
  method SuccessHandler(s: Session, config: AppConfig) returns (outcome: Outcome)
    modifies s
    ensures Transition(s.bag, outcome, []) == Success(config, old(s.bag))
    ensures s.destroyed == old(s.destroyed)
  {
    var data := PageDataHelper(config, s.bag, map["pageTitle" := Str("Post Successfully Created"),
                                                  "postLink" := Get(s.bag, "postLink")]);
    ResetEphemeralSessionData(s, ["postLink"]);
    outcome := Render("publish/success", data);
  }
}
