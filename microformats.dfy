/** Picking a microformats2 item and one of its properties out of a parsed
    page (src/lib/microformats.ts). The parser itself (`mf2`) is `Env.mf2`. */
module Microformats {
  import opened Js
  import opened Web

  /** `item?.type` holds `vocab`. An item without a type list never matches. */
  predicate HasType(item: MfItem, vocab: string) {
    item.types.Some? && vocab in item.types.value
  }

  /** The position of the first item of type `vocab`, or -1. */
  function FindVocabulary(items: seq<MfItem>, vocab: string): (r: int)
    ensures -1 <= r < |items|
    ensures r == -1 <==> forall i :: 0 <= i < |items| ==> !HasType(items[i], vocab)
    ensures r >= 0 ==> HasType(items[r], vocab) && forall j :: 0 <= j < r ==> !HasType(items[j], vocab)
  {
    if items == [] then -1
    else if HasType(items[0], vocab) then 0
    else
      var k := FindVocabulary(items[1..], vocab);
      assert forall i :: 1 <= i < |items| ==> items[i] == items[1..][i - 1];
      if k == -1 then -1 else k + 1
  }

  /** `parseVocabulary`: the first root item of the page whose types include
      `vocab`, or undefined when there is none. */
  function ParseVocabulary(env: Env, body: string, baseUrl: string, vocab: string): (r: Option<MfItem>)
    ensures r.None? <==> forall i :: 0 <= i < |env.mf2(body, baseUrl)| ==> !HasType(env.mf2(body, baseUrl)[i], vocab)
    ensures r.Some? ==> HasType(r.value, vocab)
    ensures r.Some? ==> exists i :: 0 <= i < |env.mf2(body, baseUrl)| && env.mf2(body, baseUrl)[i] == r.value
                          && forall j :: 0 <= j < i ==> !HasType(env.mf2(body, baseUrl)[j], vocab)
  {
    var items := env.mf2(body, baseUrl);
    var k := FindVocabulary(items, vocab);
    if k == -1 then None else Some(items[k])
  }

  /** `parseProperty`: walks the property names of the matched item and
      returns the values of the one named `property`; undefined when no item
      has the vocabulary or the item lacks the property. Property names are
      distinct, so the order of the walk does not change the answer. */
  method ParseProperty(env: Env, body: string, baseUrl: string, vocab: string, property: string)
    returns (r: Option<seq<Json>>)
    ensures r.Some? <==> ParseVocabulary(env, body, baseUrl, vocab).Some?
                         && property in ParseVocabulary(env, body, baseUrl, vocab).value.properties
    ensures r.Some? ==> r.value == ParseVocabulary(env, body, baseUrl, vocab).value.properties[property]
  {
    var vocabularies := ParseVocabulary(env, body, baseUrl, vocab);
    if vocabularies.Some? {
      var properties := vocabularies.value.properties;
      var unvisited := properties.Keys;
      while unvisited != {}
        invariant unvisited <= properties.Keys
        invariant property in properties ==> property in unvisited
        decreases |unvisited|
      {
        var key :| key in unvisited;
        if key == property {
          return Some(properties[key]);
        }
        unvisited := unvisited - {key};
      }
    }
    return None;
  }
}
