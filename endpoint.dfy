/** The three IndieAuth endpoints the client looks for, and the two lookups
    it uses to find them: in a parsed HTTP `Link` header (RFC 8288) and in the
    `<link>` elements of an HTML page (src/lib/endpoint.ts). */
module Endpoint {
  import opened Js
  import opened Web

  /** One endpoint to discover: the link relation it is published under
      (`name`) and the key it is stored under in the session (`key`). */
  datatype Wanted = Wanted(name: string, key: string)

  /** `endpointsWanted`, in the order the handlers walk it. */
  const EndpointsWanted: seq<Wanted> := [
    Wanted("authorization_endpoint", "authorization"),
    Wanted("token_endpoint", "token"),
    Wanted("micropub", "micropub")
  ]

  /** The keys of a list of wanted endpoints, in order. */
  function Keys(wanted: seq<Wanted>): (r: seq<string>)
    ensures |r| == |wanted|
    ensures forall i :: 0 <= i < |wanted| ==> r[i] == wanted[i].key
  {
    if wanted == [] then [] else [wanted[0].key] + Keys(wanted[1..])
  }

  /** No two entries of a list share a session key. */
  predicate DistinctKeys(wanted: seq<Wanted>) {
    forall i, j :: 0 <= i < j < |wanted| ==> wanted[i].key != wanted[j].key
  }

  /** The table has three entries with distinct relation names and distinct
      keys, and its keys are the three roles the session stores. */
  lemma EndpointsWantedShape()
    ensures |EndpointsWanted| == 3 && DistinctKeys(EndpointsWanted)
    ensures forall i, j :: 0 <= i < j < |EndpointsWanted| ==> EndpointsWanted[i].name != EndpointsWanted[j].name
    ensures Keys(EndpointsWanted) == ["authorization", "token", "micropub"]
  {
    assert Keys(EndpointsWanted) == ["authorization"] + Keys(EndpointsWanted[1..]);
    assert Keys(EndpointsWanted[1..]) == ["token"] + Keys(EndpointsWanted[2..]);
  }

  /** `findEndpointInHeaders`: the target of the first `Link` entry whose
      relation is `rel`, or nothing when no entry has it. */
  function FindEndpointInHeaders(links: seq<LinkRef>, rel: string): (r: Option<string>)
    ensures r.None? <==> forall i :: 0 <= i < |links| ==> links[i].rel != rel
    ensures r.Some? ==> exists i :: 0 <= i < |links| && links[i] == LinkRef(rel, r.value)
                          && forall j :: 0 <= j < i ==> links[j].rel != rel
  {
    if links == [] then None
    else if links[0].rel == rel then
      assert links[0] == LinkRef(rel, links[0].uri);
      Some(links[0].uri)
    else
      var r := FindEndpointInHeaders(links[1..], rel);
      assert forall i :: 1 <= i < |links| ==> links[i] == links[1..][i - 1];
      if r.Some? then
        ghost var i :| 0 <= i < |links[1..]| && links[1..][i] == LinkRef(rel, r.value)
                       && forall j :: 0 <= j < i ==> links[1..][j].rel != rel;
        assert links[i + 1] == LinkRef(rel, r.value);
        r
      else r
  }

  /** The position of the first element a `link[rel="name"]` selector matches
      (its `rel` attribute is exactly `name`), or -1. */
  function FirstLinkWithRel(elements: seq<LinkElement>, name: string): (r: int)
    ensures -1 <= r < |elements|
    ensures r == -1 <==> forall i :: 0 <= i < |elements| ==> elements[i].rel != Some(name)
    ensures r >= 0 ==> elements[r].rel == Some(name) && forall j :: 0 <= j < r ==> elements[j].rel != Some(name)
  {
    if elements == [] then -1
    else if elements[0].rel == Some(name) then 0
    else
      var k := FirstLinkWithRel(elements[1..], name);
      assert forall i :: 1 <= i < |elements| ==> elements[i] == elements[1..][i - 1];
      if k == -1 then -1 else k + 1
  }

  /** cheerio's `.attr("href")` on a selection: the `href` of its first element. */
  function SelectedHref(elements: seq<LinkElement>, name: string): (h: Option<string>)
    ensures FirstLinkWithRel(elements, name) == -1 ==> h.None?
    ensures FirstLinkWithRel(elements, name) >= 0 ==> h == elements[FirstLinkWithRel(elements, name)].href
  {
    var k := FirstLinkWithRel(elements, name);
    if k == -1 then None else elements[k].href
  }

  function NotInPageMessage(key: string): string {
    "Could not find " + key + " endpoint in the page source."
  }

  /** `findEndpointInBody`: the `href` of the first `<link>` with the wanted
      relation when it is non-empty and parses as a URL. An empty or missing
      `href`, or no such element, gives the error naming the endpoint's key;
      an `href` the URL constructor refuses gives the constructor's error. */
  function FindEndpointInBody(env: Env, elements: seq<LinkElement>, wanted: Wanted): (r: Result<string, string>)
    ensures r.Ok? <==> SelectedHref(elements, wanted.name).Some? && SelectedHref(elements, wanted.name).value != ""
                        && env.parseUrl(SelectedHref(elements, wanted.name).value).Ok?
    ensures r.Ok? ==> exists i :: 0 <= i < |elements| && elements[i] == LinkElement(Some(wanted.name), Some(r.value))
                        && r.value != ""
    ensures (forall i :: 0 <= i < |elements| ==> elements[i].rel != Some(wanted.name)) ==>
              r == Err(NotInPageMessage(wanted.key))
    ensures SelectedHref(elements, wanted.name).Some? && SelectedHref(elements, wanted.name).value != ""
            && env.parseUrl(SelectedHref(elements, wanted.name).value).Err? ==>
              r == Err(env.parseUrl(SelectedHref(elements, wanted.name).value).error)
  {
    var find := SelectedHref(elements, wanted.name);
    if find.None? || find.value == "" then Err(NotInPageMessage(wanted.key))
    else
      match env.parseUrl(find.value)
      case Err(m) => Err(m)
      case Ok(_) =>
        assert elements[FirstLinkWithRel(elements, wanted.name)] == LinkElement(Some(wanted.name), Some(find.value));
        Ok(find.value)
  }
}
