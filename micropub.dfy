/** Fetching the Micropub server's capabilities into `session.micropub`
    (src/lib/micropub.ts): the configuration query (section 3.7.1 of the
    Micropub W3C Recommendation) merged key by key, then, when it named no
    syndication targets, the syndication-target query (section 3.7.3). */
module Micropub {
  import opened Js
  import opened Web
  import opened SessionStore

  /** `${queryUrl}?${params}`: the endpoint's href, `?`, then the endpoint's
      own query parameters followed by `q=<q>`. The href already carries the
      endpoint's query, so a non-empty one appears twice. */
  function QueryUrl(env: Env, endpoint: Url, q: string): string {
    endpoint.href + "?" + Serialize(env, endpoint.query + [Param("q", q)])
  }

  /** Serialising a list with one more pair appends `&name=value` (or gives
      just `name=value` for an empty list). */
  lemma {:induction false} SerializeAppend(env: Env, params: seq<Param>, p: Param)
    ensures Serialize(env, params + [p]) ==
              (if params == [] then "" else Serialize(env, params) + "&")
              + env.formEncode(p.name) + "=" + env.formEncode(p.value)
    decreases |params|
  {
    if params != [] {
      assert (params + [p])[1..] == params[1..] + [p];
      SerializeAppend(env, params[1..], p);
    }
  }

  /** The query URL ends with `q=<q>`, after the endpoint's own parameters. */
  lemma QueryUrlShape(env: Env, endpoint: Url, q: string)
    ensures QueryUrl(env, endpoint, q) ==
              endpoint.href + "?"
              + (if endpoint.query == [] then "" else Serialize(env, endpoint.query) + "&")
              + env.formEncode("q") + "=" + env.formEncode(q)
  {
    SerializeAppend(env, endpoint.query, Param("q", q));
  }

  /** The headers of both capability queries. */
  function CapabilityHeaders(bag: map<string, Json>): seq<Param> {
    [ Param("Authorization", "Bearer " + ToStr(Prop(Get(bag, "indieauth"), "access_token"))),
      Param("Content-Type", "application/json"),
      Param("Accept", "application/json") ]
  }

  /** The capability query `q`, or the error `new URL` throws on the stored
      Micropub endpoint. */
  function CapabilityQuery(env: Env, bag: map<string, Json>, q: string): Result<HttpRequest, string> {
    match env.parseUrl(ToStr(Prop(Get(bag, "endpoints"), "micropub")))
    case Err(m) => Err(m)
    case Ok(u) => Ok(HttpRequest("GET", QueryUrl(env, u, q), CapabilityHeaders(bag), []))
  }

  /** What one step leaves behind: the session, the rejection if any, and
      the requests sent. */
  datatype Step = Step(bag: map<string, Json>, error: Option<string>, sent: seq<HttpRequest>)

  /** The entries `Object.keys(configData)` walks: an object's fields; none
      for booleans and numbers; `null` makes it throw. */
  function ConfigEntries(data: Json): Result<map<string, Json>, string> {
    if Nullish(data) then Err(TypeErrorMessage)
    else if data.Obj? then Ok(data.fields)
    else Ok(map[])
  }

  /** `if (!session.micropub) session.micropub = {}`. */
  function EnsureMicropub(bag: map<string, Json>): (r: map<string, Json>)
    ensures r.Keys == bag.Keys + {"micropub"}
    ensures Truthy(r["micropub"])
    ensures forall k :: k in bag && k != "micropub" ==> r[k] == bag[k]
    ensures Truthy(Get(bag, "micropub")) ==> r == bag
    ensures !Truthy(Get(bag, "micropub")) ==> r == bag["micropub" := Obj(map[])]
  {
    if !Truthy(Get(bag, "micropub")) then bag["micropub" := Obj(map[])] else bag
  }

  /** Copying the configuration's entries into the (truthy) `micropub`: the
      first assignment throws when `micropub` is not an object. */
  function MergeConfig(bag: map<string, Json>, config: map<string, Json>): Result<map<string, Json>, string> {
    var m := Get(bag, "micropub");
    if m.Obj? then Ok(bag["micropub" := Obj(m.fields + config)])
    else if config == map[] then Ok(bag)
    else Err(TypeErrorMessage)
  }

  /** What the session and the outcome of one step become. */
  datatype Applied = Applied(bag: map<string, Json>, error: Option<string>)

  /** Storing a parsed configuration reply: create `micropub`, then copy
      every entry into it. */
  function ApplyConfig(bag: map<string, Json>, data: Json): Applied {
    var created := EnsureMicropub(bag);
    match ConfigEntries(data)
    case Err(m) => Applied(created, Some(m))
    case Ok(config) =>
      match MergeConfig(created, config)
      case Err(m) => Applied(created, Some(m))
      case Ok(merged) => Applied(merged, None)
  }

  /** `setConfigurationData`, given the configuration query's reply. */
  function ConfigurationData(env: Env, bag: map<string, Json>, reply: Reply): Step {
    match CapabilityQuery(env, bag, "config")
    case Err(m) => Step(bag, Some(m), [])
    case Ok(request) =>
      match ReadJson(env, reply)
      case Err(m) => Step(bag, Some(m), [request])
      case Ok(data) => Step(ApplyConfig(bag, data).bag, ApplyConfig(bag, data).error, [request])
  }

  /** A configuration reply is stored whenever it is not null: `micropub`
      then holds every key of the reply with the reply's value, keeps the
      fields it held before under every other key, is created when it was
      falsy, and every other session key is kept. (A truthy non-object
      `micropub` throws at the first key, before anything is written.) */
  lemma ConfigurationMerges(bag: map<string, Json>, data: Json)
    requires ApplyConfig(bag, data).error.None?
    ensures ConfigEntries(data).Ok?
    ensures var r := ApplyConfig(bag, data).bag;
            var config := ConfigEntries(data).value;
            && r.Keys == bag.Keys + {"micropub"}
            && (forall k :: k in bag && k != "micropub" ==> r[k] == bag[k])
            && Truthy(r["micropub"])
            && (Get(bag, "micropub").Obj? ==> r["micropub"] == Obj(Get(bag, "micropub").fields + config))
            && (Truthy(Get(bag, "micropub")) && !Get(bag, "micropub").Obj? ==> r == bag)
            && (r["micropub"].Obj? <==> Get(bag, "micropub").Obj? || !Truthy(Get(bag, "micropub")))
            && (r["micropub"].Obj? ==>
                  && (forall k :: k in config ==> k in r["micropub"].fields && r["micropub"].fields[k] == config[k])
                  && (forall k :: k !in config ==> SameAt(r["micropub"].fields, AsObject(Get(bag, "micropub")), k)))
            && (!Truthy(Get(bag, "micropub")) ==> r["micropub"] == Obj(config))
  {
  }

  /** A null reply, or a truthy non-object `micropub` with keys to copy,
      makes the step throw; `micropub` is still created first. */
  lemma ConfigurationThrows(bag: map<string, Json>, data: Json)
    requires Nullish(data) || (Truthy(Get(bag, "micropub")) && !Get(bag, "micropub").Obj? && data.Obj? && data.fields != map[])
    ensures ApplyConfig(bag, data) == Applied(EnsureMicropub(bag), Some(TypeErrorMessage))
  {
  }

  /** A configuration query that cannot be built or answered changes nothing. */
  lemma ConfigurationFailsCleanly(env: Env, bag: map<string, Json>, reply: Reply)
    requires CapabilityQuery(env, bag, "config").Err? || ReadJson(env, reply).Err?
    ensures ConfigurationData(env, bag, reply).bag == bag
    ensures ConfigurationData(env, bag, reply).error.Some?
  {
  }

  /** Storing a parsed syndication reply. Reading `syndicate-to` of a null
      reply, or `length` of a missing list, throws; an empty list changes
      nothing; a non-empty one resets an existing `micropub` to `{}` and
      stores only the list, and throws when there is no `micropub` to write
      into. */
  function ApplyTargets(bag: map<string, Json>, data: Json): Applied {
    if Nullish(data) || Nullish(Prop(data, "syndicate-to")) then Applied(bag, Some(TypeErrorMessage))
    else
      var targets := Prop(data, "syndicate-to");
      if !Truthy(Prop(targets, "length")) then Applied(bag, None)
      else if !Truthy(Get(bag, "micropub")) then Applied(bag, Some(TypeErrorMessage))
      else Applied(bag["micropub" := Obj(map["syndicate-to" := targets])], None)
  }

  /** `setSyndicationTargets`, given the syndication query's reply. */
  function SyndicationTargets(env: Env, bag: map<string, Json>, reply: Reply): Step {
    match CapabilityQuery(env, bag, "syndicate-to")
    case Err(m) => Step(bag, Some(m), [])
    case Ok(request) =>
      match ReadJson(env, reply)
      case Err(m) => Step(bag, Some(m), [request])
      case Ok(data) => Step(ApplyTargets(bag, data).bag, ApplyTargets(bag, data).error, [request])
  }

  /** An empty target list leaves the session as it was. */
  lemma EmptyTargetsChangeNothing(env: Env, bag: map<string, Json>, reply: Reply)
    requires CapabilityQuery(env, bag, "syndicate-to").Ok?
    requires ReadJson(env, reply).Ok? && Prop(ReadJson(env, reply).value, "syndicate-to") == Arr([])
    ensures SyndicationTargets(env, bag, reply) == Step(bag, None, [CapabilityQuery(env, bag, "syndicate-to").value])
  {
  }

  /** A non-empty target list replaces an existing `micropub` by an object
      holding only `syndicate-to`; every other session key is kept. */
  lemma TargetsResetMicropub(env: Env, bag: map<string, Json>, reply: Reply, targets: seq<Json>)
    requires CapabilityQuery(env, bag, "syndicate-to").Ok?
    requires ReadJson(env, reply).Ok? && Prop(ReadJson(env, reply).value, "syndicate-to") == Arr(targets)
    requires targets != [] && Truthy(Get(bag, "micropub"))
    ensures var r := SyndicationTargets(env, bag, reply);
            r.error.None? && r.bag == bag["micropub" := Obj(map["syndicate-to" := Arr(targets)])]
  {
  }

  /** `setMicropubCapabilities`: the configuration step, then the syndication
      step only when `micropub["syndicate-to"]` is still falsy. */
  function Capabilities(env: Env, bag: map<string, Json>, config: Reply, syndication: Reply): Step {
    var c := ConfigurationData(env, bag, config);
    if c.error.Some? then c
    else if Truthy(Prop(Get(c.bag, "micropub"), "syndicate-to")) then c
    else
      var t := SyndicationTargets(env, c.bag, syndication);
      Step(t.bag, t.error, c.sent + t.sent)
  }

  /** The syndication query is sent exactly when the configuration step
      succeeded and left `syndicate-to` falsy, and the query could be built. */
  lemma SyndicationOnlyWhenMissing(env: Env, bag: map<string, Json>, config: Reply, syndication: Reply)
    ensures var c := ConfigurationData(env, bag, config);
            |Capabilities(env, bag, config, syndication).sent| == 2 <==>
              && c.error.None?
              && !Truthy(Prop(Get(c.bag, "micropub"), "syndicate-to"))
              && CapabilityQuery(env, c.bag, "syndicate-to").Ok?
  {
  }

  /** Both queries carry the headers built from the session they started
      with: neither step changes `indieauth` or `endpoints`. */
  lemma CapabilityQueriesCarryToken(env: Env, bag: map<string, Json>, config: Reply, syndication: Reply)
    ensures forall r | r in Capabilities(env, bag, config, syndication).sent :: r.headers == CapabilityHeaders(bag)
  {
    var c := ConfigurationData(env, bag, config);
    if c.error.None? {
      ConfigurationMerges(bag, ReadJson(env, config).value);
      assert Get(c.bag, "indieauth") == Get(bag, "indieauth");
    }
  }

  /** The reset discards what the configuration step stored: when the
      configuration names no syndication targets and the syndication query
      returns some, `micropub` ends up holding only `syndicate-to`, so a
      `media-endpoint` from the configuration is lost. */
  lemma TargetsDiscardConfiguration(env: Env, bag: map<string, Json>, config: Reply, syndication: Reply,
                                    targets: seq<Json>)
    requires ConfigurationData(env, bag, config).error.None?
    requires !Truthy(Prop(Get(ConfigurationData(env, bag, config).bag, "micropub"), "syndicate-to"))
    requires CapabilityQuery(env, bag, "syndicate-to").Ok?
    requires ReadJson(env, syndication).Ok? && Prop(ReadJson(env, syndication).value, "syndicate-to") == Arr(targets)
    requires targets != []
    ensures var r := Capabilities(env, bag, config, syndication);
            r.error.None? && r.bag["micropub"] == Obj(map["syndicate-to" := Arr(targets)])
            && !Truthy(Prop(r.bag["micropub"], "media-endpoint"))
  {
    var c := ConfigurationData(env, bag, config);
    ConfigurationMerges(bag, ReadJson(env, config).value);
    assert Get(c.bag, "endpoints") == Get(bag, "endpoints") && Get(c.bag, "indieauth") == Get(bag, "indieauth");
    assert CapabilityQuery(env, c.bag, "syndicate-to") == CapabilityQuery(env, bag, "syndicate-to");
    TargetsResetMicropub(env, c.bag, syndication, targets);
  }

  /** The configuration entries already copied when `unvisited` remain. */
  ghost function Copied(config: map<string, Json>, unvisited: set<string>): map<string, Json> {
    map k | k in config && k !in unvisited :: config[k]
  }

  /** `setConfigurationData` as it runs: the query, the creation of
      `micropub`, then one assignment per configuration key. */
  method SetConfigurationData(s: Session, env: Env, reply: Reply) returns (error: Option<string>, sent: seq<HttpRequest>)
    modifies s
    ensures Step(s.bag, error, sent) == ConfigurationData(env, old(s.bag), reply)
    ensures s.destroyed == old(s.destroyed)
  {
    var query := CapabilityQuery(env, s.bag, "config");
    if query.Err? {
      return Some(query.error), [];
    }
    sent := [query.value];
    var data := ReadJson(env, reply);
    if data.Err? {
      return Some(data.error), sent;
    }
    ghost var before := s.bag;
    if !Truthy(Get(s.bag, "micropub")) {
      s.bag := s.bag["micropub" := Obj(map[])];
    }
    var entries := ConfigEntries(data.value);
    if entries.Err? {
      return Some(entries.error), sent;
    }
    error := CopyEntries(s, entries.value);
    assert Applied(s.bag, error) == ApplyConfig(before, data.value);
  }

  /** Copying one more key extends the copied entries by that key. */
  lemma CopiedStep(base: map<string, Json>, config: map<string, Json>, unvisited: set<string>, key: string)
    requires key in unvisited && unvisited <= config.Keys
    ensures base + Copied(config, unvisited - {key}) == (base + Copied(config, unvisited))[key := config[key]]
  {
  }

  /** Nothing is copied before the walk and everything after it. */
  lemma CopiedEnds(base: map<string, Json>, config: map<string, Json>)
    ensures base + Copied(config, config.Keys) == base
    ensures Copied(config, {}) == config
  {
    assert Copied(config, config.Keys) == map[];
  }

  /** The `forEach` over the configuration's keys: one assignment into
      `micropub` per key, in whatever order the keys come. */
  method CopyEntries(s: Session, config: map<string, Json>) returns (error: Option<string>)
    requires "micropub" in s.bag
    modifies s
    ensures MergeConfig(old(s.bag), config).Ok? ==> error.None? && s.bag == MergeConfig(old(s.bag), config).value
    ensures MergeConfig(old(s.bag), config).Err? ==> error == Some(MergeConfig(old(s.bag), config).error) && s.bag == old(s.bag)
    ensures s.destroyed == old(s.destroyed)
  {
    var micropub := s.bag["micropub"];
    if !micropub.Obj? {
      // The first assignment into a truthy non-object throws.
      return if config == map[] then None else Some(TypeErrorMessage);
    }
    ghost var created := s.bag;
    var fields := micropub.fields;
    var unvisited := config.Keys;
    CopiedEnds(micropub.fields, config);
    while unvisited != {}
      invariant unvisited <= config.Keys
      invariant fields == micropub.fields + Copied(config, unvisited)
      invariant s.bag == created["micropub" := Obj(fields)]
      invariant s.destroyed == old(s.destroyed)
      decreases |unvisited|
    {
      var key :| key in unvisited;
      CopiedStep(micropub.fields, config, unvisited, key);
      fields := fields[key := config[key]];
      s.bag := s.bag["micropub" := Obj(fields)];
      unvisited := unvisited - {key};
    }
    error := None;
  }

  /** `setSyndicationTargets` as it runs. */
  method SetSyndicationTargets(s: Session, env: Env, reply: Reply) returns (error: Option<string>, sent: seq<HttpRequest>)
    modifies s
    ensures Step(s.bag, error, sent) == SyndicationTargets(env, old(s.bag), reply)
    ensures s.destroyed == old(s.destroyed)
  {
    var query := CapabilityQuery(env, s.bag, "syndicate-to");
    if query.Err? {
      return Some(query.error), [];
    }
    sent := [query.value];
    var data := ReadJson(env, reply);
    if data.Err? {
      return Some(data.error), sent;
    }
    if Nullish(data.value) || Nullish(Prop(data.value, "syndicate-to")) {
      return Some(TypeErrorMessage), sent;
    }
    var targets := Prop(data.value, "syndicate-to");
    error := None;
    if Truthy(Prop(targets, "length")) {
      if Truthy(Get(s.bag, "micropub")) {
        s.bag := s.bag["micropub" := Obj(map[])];
      } else {
        return Some(TypeErrorMessage), sent;
      }
      s.bag := s.bag["micropub" := Obj(s.bag["micropub"].fields["syndicate-to" := targets])];
    }
  }

  /** `setMicropubCapabilities` as it runs. */
  method SetMicropubCapabilities(s: Session, env: Env, config: Reply, syndication: Reply)
    returns (error: Option<string>, sent: seq<HttpRequest>)
    modifies s
    ensures Step(s.bag, error, sent) == Capabilities(env, old(s.bag), config, syndication)
    ensures s.destroyed == old(s.destroyed)
  {
    error, sent := SetConfigurationData(s, env, config);
    if error.None? && !Truthy(Prop(Get(s.bag, "micropub"), "syndicate-to")) {
      var more;
      error, more := SetSyndicationTargets(s, env, syndication);
      sent := sent + more;
    }
  }
}
