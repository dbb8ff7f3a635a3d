/** Storing and trimming the token data kept under `session.indieauth`
    (src/lib/indieauth.ts). */
module IndieAuth {
  import opened Js
  import opened SessionStore

  /** The session after `setAuthData(req, data)`: `indieauth` is created
      when falsy, then its `access_token`, `token_type` and `scope` are set
      from `data?.…`; a truthy non-object `indieauth` makes the first
      assignment throw. */
  function WithAuthData(bag: map<string, Json>, data: Json): Result<map<string, Json>, string> {
    match WritableObject(Get(bag, "indieauth"))
    case Err(m) => Err(m)
    case Ok(fields) =>
      Ok(bag["indieauth" := Obj(fields["access_token" := Prop(data, "access_token")]
                                      ["token_type" := Prop(data, "token_type")]
                                      ["scope" := Prop(data, "scope")])])
  }

  /** What `setAuthData` promises: the three token fields come from the
      data, `indieauth` is created when it was falsy, every other field of
      `indieauth` (such as `code`) and every other session key is kept. It
      fails only when `indieauth` holds a truthy non-object. */
  lemma WithAuthDataSpec(bag: map<string, Json>, data: Json)
    ensures WithAuthData(bag, data).Err? <==> Truthy(Get(bag, "indieauth")) && !Get(bag, "indieauth").Obj?
    ensures WithAuthData(bag, data).Err? ==> WithAuthData(bag, data).error == TypeErrorMessage
    ensures var r := WithAuthData(bag, data);
            r.Ok? ==>
              && r.value.Keys == bag.Keys + {"indieauth"}
              && (forall k :: k in bag && k != "indieauth" ==> r.value[k] == bag[k])
              && r.value["indieauth"].Obj?
              && Get(r.value["indieauth"].fields, "access_token") == Prop(data, "access_token")
              && Get(r.value["indieauth"].fields, "token_type") == Prop(data, "token_type")
              && Get(r.value["indieauth"].fields, "scope") == Prop(data, "scope")
              && (forall k :: k in AsObject(Get(bag, "indieauth")) && k != "access_token" && k != "token_type" && k != "scope" ==>
                    SameAt(r.value["indieauth"].fields, AsObject(Get(bag, "indieauth")), k))
              && (!Truthy(Get(bag, "indieauth")) ==>
                    r.value["indieauth"].fields.Keys == {"access_token", "token_type", "scope"})
  {
  }

  /** Setting the same data twice is setting it once. */
  lemma WithAuthDataIdempotent(bag: map<string, Json>, data: Json)
    requires WithAuthData(bag, data).Ok?
    ensures WithAuthData(WithAuthData(bag, data).value, data) == WithAuthData(bag, data)
  {
    var once := WithAuthData(bag, data).value;
    var fields := once["indieauth"].fields;
    var again := fields["access_token" := Prop(data, "access_token")]
                       ["token_type" := Prop(data, "token_type")]
                       ["scope" := Prop(data, "scope")];
    assert again == fields;
    assert once["indieauth" := Obj(again)] == once;
  }

  /** `setAuthData`: without a session nothing happens; the error, when
      there is one, is the exception the assignment throws. */
  method SetAuthData(s: Session?, data: Json) returns (thrown: Option<string>)
    modifies s
    ensures s == null ==> thrown.None?
    ensures s != null ==> s.destroyed == old(s.destroyed)
    ensures s != null && WithAuthData(old(s.bag), data).Ok? ==>
              thrown.None? && s.bag == WithAuthData(old(s.bag), data).value
    ensures s != null && WithAuthData(old(s.bag), data).Err? ==>
              thrown == Some(WithAuthData(old(s.bag), data).error) && s.bag == old(s.bag)
  {
    thrown := None;
    if s != null && !Truthy(Get(s.bag, "indieauth")) {
      s.bag := s.bag["indieauth" := Obj(map[])];
    }
    if s != null {
      // A falsy `indieauth` was just replaced, so a non-object here is a
      // truthy primitive or array the assignment cannot write into.
      var indieauth := Get(s.bag, "indieauth");
      if !indieauth.Obj? {
        return Some(TypeErrorMessage);
      }
      var fields := indieauth.fields;
      fields := fields["access_token" := Prop(data, "access_token")];
      fields := fields["token_type" := Prop(data, "token_type")];
      fields := fields["scope" := Prop(data, "scope")];
      s.bag := s.bag["indieauth" := Obj(fields)];
    }
  }

  /** The session after `cleanupAuthData`: `indieauth.code` is deleted when
      `indieauth` is an object; `delete` on any other value changes nothing. */
  function WithoutCode(bag: map<string, Json>): map<string, Json> {
    if Get(bag, "indieauth").Obj? then bag["indieauth" := Obj(bag["indieauth"].fields - {"code"})]
    else bag
  }

  /** `cleanupAuthData` removes `indieauth.code` and nothing else: the other
      fields of `indieauth` and every other key are kept, and a session
      without an `indieauth` object is left as it is. */
  lemma WithoutCodeSpec(bag: map<string, Json>)
    ensures var r := WithoutCode(bag);
            && r.Keys == bag.Keys
            && (forall k :: k in bag && k != "indieauth" ==> r[k] == bag[k])
            && (!Get(bag, "indieauth").Obj? ==> r == bag)
            && (Get(bag, "indieauth").Obj? ==>
                  && r["indieauth"].Obj?
                  && "code" !in r["indieauth"].fields
                  && (forall k :: k != "code" ==> SameAt(r["indieauth"].fields, bag["indieauth"].fields, k)))
  {
  }

  /** Cleaning up twice is cleaning up once. */
  lemma WithoutCodeIdempotent(bag: map<string, Json>)
    ensures WithoutCode(WithoutCode(bag)) == WithoutCode(bag)
  {
    if Get(bag, "indieauth").Obj? {
      var fields := bag["indieauth"].fields - {"code"};
      assert fields - {"code"} == fields;
    }
  }

  /** Setting the token data and then cleaning up leaves the three token
      fields in place and no `code`. */
  lemma SetThenCleanup(bag: map<string, Json>, data: Json)
    requires WithAuthData(bag, data).Ok?
    ensures var r := WithoutCode(WithAuthData(bag, data).value);
            && r["indieauth"].Obj?
            && "code" !in r["indieauth"].fields
            && Get(r["indieauth"].fields, "access_token") == Prop(data, "access_token")
            && Get(r["indieauth"].fields, "token_type") == Prop(data, "token_type")
            && Get(r["indieauth"].fields, "scope") == Prop(data, "scope")
  {
    WithAuthDataSpec(bag, data);
  }

  /** `cleanupAuthData`: without a session nothing happens. */
  method CleanupAuthData(s: Session?)
    modifies s
    ensures s != null ==> s.bag == WithoutCode(old(s.bag)) && s.destroyed == old(s.destroyed)
  {
    if s != null && Truthy(Get(s.bag, "indieauth")) {
      var indieauth := s.bag["indieauth"];
      if indieauth.Obj? {
        s.bag := s.bag["indieauth" := Obj(indieauth.fields - {"code"})];
      }
    }
  }
}
