/** `GET /logout/` (src/routes/logout.ts): asks the token endpoint to revoke
    the token, then destroys the session. */
module Logout {
  import opened Js
  import opened Web
  import opened SessionStore

  const NoTokenEndpointMessage := "Cannot find the token endpoint for this session. You might need to clear your cookies to access the client again."

  /** The revocation form: `me`, `action=revoke` and the session's top-level
      `access_token` (not `indieauth.access_token`). */
  function RevokeParams(bag: map<string, Json>): seq<Param> {
    [ Param("me", ToStr(Prop(Get(bag, "user"), "profileUrl"))),
      Param("action", "revoke"),
      Param("token", ToStr(Get(bag, "access_token"))) ]
  }

  /** The revocation request sent to the stored token endpoint. */
  function RevokeRequest(bag: map<string, Json>): HttpRequest {
    HttpRequest("POST", ToStr(Prop(Get(bag, "endpoints"), "token")), [Param("Accept", "application/json")], RevokeParams(bag))
  }

  /** What logging out leaves behind: the transition and whether the
      session was destroyed. */
  datatype LoggedOut = LoggedOut(transition: Transition, destroyed: bool)

  /** Reading the revocation reply: an ok reply passes the response itself
      on, which has no `error`; otherwise the parsed body is read, and
      `data.error` on a null body throws. The result is the message the
      chain rejects with, or nothing when the session is to be destroyed. */
  function RevokeError(env: Env, resp: HttpResponse): Option<string> {
    if IsOk(resp.status) then None
    else
      match env.parseJson(resp.body)
      case Err(m) => Some(m)
      case Ok(data) =>
        if Nullish(data) then Some(TypeErrorMessage)
        else if Truthy(Prop(data, "error")) then Some(ErrorMessage(Prop(data, "error_description")))
        else None
  }

  /** `GET /logout/`, given the token endpoint's reply. */
  function Logout(env: Env, bag: map<string, Json>, reply: Reply): LoggedOut {
    if !Truthy(Prop(Get(bag, "endpoints"), "token")) then
      LoggedOut(Transition(bag, Fail(AppError(NoTokenEndpointMessage)), []), false)
    else
      var sent := [RevokeRequest(bag)];
      match reply
      case Unreachable(m) => LoggedOut(Transition(bag, Fail(AppError(m)), sent), false)
      case Received(resp) =>
        match RevokeError(env, resp)
        case Some(m) => LoggedOut(Transition(bag, Fail(AppError(m)), sent), false)
        case None => LoggedOut(Transition(map[], Redirect("/", []), sent), true)
  }

  /** The session is destroyed exactly when the browser is sent home, and
      that happens exactly when a token endpoint is stored and the reply is
      ok, or parses to an object or value without a truthy `error`. Every
      other way out is an AppError that keeps the session as it was. */
  lemma LogoutDestroysIff(env: Env, bag: map<string, Json>, reply: Reply)
    ensures var r := Logout(env, bag, reply);
            && (r.destroyed <==> r.transition.outcome == Redirect("/", []))
            && (r.destroyed <==>
                  && Truthy(Prop(Get(bag, "endpoints"), "token"))
                  && reply.Received?
                  && (IsOk(reply.response.status)
                      || (env.parseJson(reply.response.body).Ok?
                          && !Nullish(env.parseJson(reply.response.body).value)
                          && !Truthy(Prop(env.parseJson(reply.response.body).value, "error")))))
            && (r.destroyed ==> r.transition.bag == map[])
            && (!r.destroyed ==> r.transition.bag == bag && r.transition.outcome.Fail?
                                 && r.transition.outcome.failure.AppError?)
  {
  }

  /** Without a token endpoint nothing is sent. */
  lemma LogoutNeedsTokenEndpoint(env: Env, bag: map<string, Json>, reply: Reply)
    requires !Truthy(Prop(Get(bag, "endpoints"), "token"))
    ensures Logout(env, bag, reply) == LoggedOut(Transition(bag, Fail(AppError(NoTokenEndpointMessage)), []), false)
  {
  }

  /** A reply carrying an `error` keeps the session and reports the
      reply's `error_description`. */
  lemma LogoutReportsDescription(env: Env, bag: map<string, Json>, resp: HttpResponse, data: Json)
    requires Truthy(Prop(Get(bag, "endpoints"), "token"))
    requires !IsOk(resp.status) && env.parseJson(resp.body) == Ok(data) && Truthy(Prop(data, "error"))
    ensures Logout(env, bag, Received(resp))
            == LoggedOut(Transition(bag, Fail(AppError(ErrorMessage(Prop(data, "error_description")))), [RevokeRequest(bag)]), false)
  {
  }

  /** The revoked token is the top-level `access_token`: the request does
      not depend on what `indieauth` holds. */
  lemma RevokeUsesTopLevelToken(bag: map<string, Json>, indieauth: Json)
    ensures Lookup(RevokeRequest(bag).form, "token") == Some(ToStr(Get(bag, "access_token")))
    ensures RevokeRequest(bag["indieauth" := indieauth]) == RevokeRequest(bag)
  {
    LookupFirst(RevokeRequest(bag).form, "token", 2);
    var other := bag["indieauth" := indieauth];
    assert Get(other, "user") == Get(bag, "user") && Get(other, "access_token") == Get(bag, "access_token");
    assert Get(other, "endpoints") == Get(bag, "endpoints");
  }

  /** `GET /logout/` as the handler runs it. */
  method LogoutHandler(s: Session, env: Env, reply: Reply) returns (outcome: Outcome, sent: seq<HttpRequest>)
    modifies s
    ensures var r := Logout(env, old(s.bag), reply);
            Transition(s.bag, outcome, sent) == r.transition
            && s.destroyed == (old(s.destroyed) || r.destroyed)
  {
    var params := RevokeParams(s.bag);
    if !Truthy(Prop(Get(s.bag, "endpoints"), "token")) {
      return Fail(AppError(NoTokenEndpointMessage)), [];
    }
    sent := [HttpRequest("POST", ToStr(Prop(Get(s.bag, "endpoints"), "token")), [Param("Accept", "application/json")], params)];
    if reply.Unreachable? {
      return Fail(AppError(reply.message)), sent;
    }
    var error := RevokeError(env, reply.response);
    if error.Some? {
      return Fail(AppError(error.value)), sent;
    }
    s.Destroy();
    outcome := Redirect("/", []);
  }
}
