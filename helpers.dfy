/** The page-data defaults every view is rendered with, and the listing of
    an enumeration's values (src/lib/helpers.ts). */
module Helpers {
  import opened Js
  import opened Web

  /** The default `user` object: name and photo from the stored
      microformats, the identity from the stored profile URL, and the stored
      preferences. */
  function DefaultUser(bag: map<string, Json>): Json {
    var user := Get(bag, "user");
    Obj(map[
      "microformats" := Obj(map["name" := Prop(Prop(user, "microformats"), "name"),
                                "photo" := Prop(Prop(user, "microformats"), "photo")]),
      "indieauth" := Obj(map["identity" := Prop(user, "profileUrl")]),
      "preferences" := Obj(map["timezone" := Prop(Prop(user, "preferences"), "timezone"),
                               "formEncoding" := Prop(Prop(user, "preferences"), "formEncoding")])])
  }

  /** The defaults: title, subtitle, application state (Guest when the
      session has none) and the default user. */
  function PageDefaults(config: AppConfig, bag: map<string, Json>): map<string, Json> {
    map["title" := Str(config.title), "subtitle" := Str(config.subtitle),
        "appState" := AppStateOrGuest(bag), "user" := DefaultUser(bag)]
  }

  /** `pageDataHelper(req, data)`: `Object.assign({}, defaults, data)`. A
      missing session reads as an empty `bag`. */
  function PageDataHelper(config: AppConfig, bag: map<string, Json>, data: map<string, Json>): (r: map<string, Json>)
    ensures r.Keys == data.Keys + {"title", "subtitle", "appState", "user"}
    ensures forall k :: k in data ==> r[k] == data[k]
    ensures forall k :: k in PageDefaults(config, bag) && k !in data ==> r[k] == PageDefaults(config, bag)[k]
  {
    PageDefaults(config, bag) + data
  }

  /** Without overrides the page always carries the title, the subtitle, a
      truthy application state (the stored one, or Guest) and a user object
      whose identity is the stored profile URL. */
  lemma PageDataDefaults(config: AppConfig, bag: map<string, Json>, data: map<string, Json>)
    requires "title" !in data && "subtitle" !in data && "appState" !in data && "user" !in data
    ensures var r := PageDataHelper(config, bag, data);
            && r["title"] == Str(config.title)
            && r["subtitle"] == Str(config.subtitle)
            && Truthy(r["appState"])
            && (!Truthy(Get(bag, "appState")) ==> r["appState"] == GuestState)
            && (Truthy(Get(bag, "appState")) ==> r["appState"] == bag["appState"])
            && Prop(Prop(r["user"], "indieauth"), "identity") == Prop(Get(bag, "user"), "profileUrl")
  {
  }

  /** The override is shallow: a supplied `user` replaces the whole default
      user, so none of its default fields survive unless supplied. */
  lemma SuppliedUserReplacesDefault(config: AppConfig, bag: map<string, Json>, data: map<string, Json>)
    requires "user" in data
    ensures PageDataHelper(config, bag, data)["user"] == data["user"]
    ensures data["user"] == Obj(map[]) ==> Prop(Prop(PageDataHelper(config, bag, data)["user"], "indieauth"), "identity") == Undefined
  {
  }

  /** `FormEncoding`, the request encodings the client knows. */
  datatype FormEncoding = UrlEncoded | Multipart | JsonEncoded

  /** The string value of each member. */
  function EncodingValue(e: FormEncoding): string {
    match e
    case UrlEncoded => "application/x-www-form-urlencoded"
    case Multipart => "multipart/form-data"
    case JsonEncoded => "application/json"
  }

  /** The members in declaration order. */
  const FormEncodings: seq<FormEncoding> := [UrlEncoded, Multipart, JsonEncoded]

  /** `enumValuesAsArray` on a string enumeration: `Object.values` lists the
      values of its members in declaration order. */
  function EnumValuesAsArray(members: seq<FormEncoding>): (r: seq<string>)
    ensures |r| == |members|
    ensures forall i :: 0 <= i < |members| ==> r[i] == EncodingValue(members[i])
  {
    if members == [] then [] else [EncodingValue(members[0])] + EnumValuesAsArray(members[1..])
  }

  /** The three encodings, listed in declaration order. */
  lemma FormEncodingValues()
    ensures EnumValuesAsArray(FormEncodings)
            == ["application/x-www-form-urlencoded", "multipart/form-data", "application/json"]
  {
  }
}
