/** The per-visitor session record and `resetEphemeralSessionData`
    (src/lib/session.ts). */
module SessionStore {
  import opened Js

  /** `req.session`: a bag of top-level keys the handlers read, write and
      delete in place. `destroyed` records `req.session.destroy()`. */
  class Session {
    var bag: map<string, Json>
    var destroyed: bool

    constructor (initial: map<string, Json>)
      ensures bag == initial && !destroyed
    {
      bag := initial;
      destroyed := false;
    }

    /** `req.session.destroy()`: the stored session is gone. */
    method Destroy()
      modifies this
      ensures destroyed && bag == map[]
    {
      bag := map[];
      destroyed := true;
    }
  }

  /** One iteration of the `forEach`: delete the key when its value is truthy. */
  function DropIfTruthy(bag: map<string, Json>, key: string): map<string, Json> {
    if key in bag && Truthy(bag[key]) then bag - {key} else bag
  }

  /** The session after `resetEphemeralSessionData(req, keys)`, key by key in list order. */
  function ClearKeys(bag: map<string, Json>, keys: seq<string>): (r: map<string, Json>)
    ensures r.Keys <= bag.Keys
    decreases |keys|
  {
    if keys == [] then bag
    else DropIfTruthy(ClearKeys(bag, keys[..|keys| - 1]), keys[|keys| - 1])
  }

  /** The keys that survive: those not listed, and listed ones holding a falsy value. */
  ghost function Survivors(bag: map<string, Json>, keys: seq<string>): map<string, Json> {
    map k | k in bag && !(k in keys && Truthy(bag[k])) :: bag[k]
  }

  /** The key-by-key deletion equals the one-shot description. */
  lemma {:induction false} ClearKeysIsSurvivors(bag: map<string, Json>, keys: seq<string>)
    ensures ClearKeys(bag, keys) == Survivors(bag, keys)
    decreases |keys|
  {
    if keys != [] {
      var init := keys[..|keys| - 1];
      var last := keys[|keys| - 1];
      ClearKeysIsSurvivors(bag, init);
      assert forall k :: k in keys <==> k in init || k == last;
      var r := ClearKeys(bag, keys);
      var s := Survivors(bag, keys);
      assert r.Keys == s.Keys;
      assert forall k :: k in r ==> r[k] == s[k];
    }
  }

  /** No listed key holding a truthy value remains. */
  lemma ClearKeysRemovesTruthy(bag: map<string, Json>, keys: seq<string>)
    ensures forall k :: k in keys && k in ClearKeys(bag, keys) ==> !Truthy(ClearKeys(bag, keys)[k])
  {
    ClearKeysIsSurvivors(bag, keys);
  }

  /** Keys that are not listed keep their presence and value. */
  lemma ClearKeysKeepsUnlisted(bag: map<string, Json>, keys: seq<string>)
    ensures forall k :: k !in keys ==>
      (k in ClearKeys(bag, keys) <==> k in bag) && (k in bag ==> ClearKeys(bag, keys)[k] == bag[k])
  {
    ClearKeysIsSurvivors(bag, keys);
  }

  /** Listed keys holding a falsy value are left in place. */
  lemma ClearKeysKeepsFalsy(bag: map<string, Json>, keys: seq<string>)
    ensures forall k :: k in bag && !Truthy(bag[k]) ==> k in ClearKeys(bag, keys) && ClearKeys(bag, keys)[k] == bag[k]
  {
    ClearKeysIsSurvivors(bag, keys);
  }

  /** Listing every key of a session whose values are all truthy empties it. */
  lemma ClearKeysAllEmpties(bag: map<string, Json>, keys: seq<string>)
    requires forall k :: k in bag ==> k in keys && Truthy(bag[k])
    ensures ClearKeys(bag, keys) == map[]
  {
    ClearKeysIsSurvivors(bag, keys);
    assert Survivors(bag, keys).Keys == {};
  }

  /** Clearing the same keys twice is clearing them once. */
  lemma ClearKeysIdempotent(bag: map<string, Json>, keys: seq<string>)
    ensures ClearKeys(ClearKeys(bag, keys), keys) == ClearKeys(bag, keys)
  {
    ClearKeysIsSurvivors(bag, keys);
    ClearKeysIsSurvivors(ClearKeys(bag, keys), keys);
  }

  /** `resetEphemeralSessionData`: deletes, in place, every listed top-level key
      whose value is truthy; without a session it does nothing. */
  method ResetEphemeralSessionData(s: Session?, keys: seq<string>)
    modifies s
    ensures s != null ==> s.bag == ClearKeys(old(s.bag), keys) && s.destroyed == old(s.destroyed)
  {
    if s != null {
      var i := 0;
      while i < |keys|
        invariant 0 <= i <= |keys|
        invariant s.bag == ClearKeys(old(s.bag), keys[..i])
        invariant s.destroyed == old(s.destroyed)
      {
        var key := keys[i];
        if key in s.bag && Truthy(s.bag[key]) {
          s.bag := s.bag - {key};
        }
        assert keys[..i + 1][..i] == keys[..i];
        i := i + 1;
      }
      assert keys[..|keys|] == keys;
    }
  }
}
