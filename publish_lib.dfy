/** Turning the submitted post form into the Micropub request's parameters
    (src/lib/publish.ts). */
module PublishLib {
  import opened Strs
  import opened Js
  import opened Web

  /** Element `i` of a destructured array: `undefined` past its end. */
  function Part(parts: seq<string>, i: nat): (r: Json)
    ensures i < |parts| ==> r == Str(parts[i])
    ensures i >= |parts| ==> r == Undefined
  {
    if i < |parts| then Str(parts[i]) else Undefined
  }

  /** `date.split("-")` into year, month, day and `time.split(":")` into
      hour, minute; later pieces are dropped, missing ones are undefined. */
  function DateFields(date: string, time: string): LocalDateTime {
    var d := Split(date, '-');
    var t := Split(time, ':');
    LocalDateTime(Part(d, 0), Part(d, 1), Part(d, 2), Part(t, 0), Part(t, 1))
  }

  /** `deriveDate`: the local date and time, read in the user's time zone
      and written as a UTC ISO string by the time-zone library (null for a
      date it refuses). Splitting a date or time that is not a string throws. */
  function DeriveDate(env: Env, date: Json, time: Json, zone: Json): Result<Json, string> {
    if !date.Str? || !time.Str? then Err(TypeErrorMessage)
    else
      match env.zonedToUtcIso(DateFields(date.s, time.s), zone)
      case None => Ok(Null)
      case Some(iso) => Ok(Str(iso))
  }

  /** A form date `YYYY-MM-DD` and time `HH:MM` reach the time-zone library
      as their five fields. */
  lemma DateFieldsSplit(year: string, month: string, day: string, hour: string, minute: string)
    requires '-' !in year && '-' !in month && '-' !in day
    requires ':' !in hour && ':' !in minute
    ensures DateFields(year + "-" + month + "-" + day, hour + ":" + minute)
            == LocalDateTime(Str(year), Str(month), Str(day), Str(hour), Str(minute))
  {
    var ds := [year, month, day];
    var ts := [hour, minute];
    assert Join(ds, '-') == year + "-" + month + "-" + day by {
      assert Join(ds[1..], '-') == month + "-" + day by {
        assert Join(ds[2..], '-') == day;
      }
    }
    assert Join(ts, ':') == hour + ":" + minute by {
      assert Join(ts[1..], ':') == minute;
    }
    SplitJoin(ds, '-');
    SplitJoin(ts, ':');
  }

  /** A date without `-` gives the whole string as the year and leaves month
      and day undefined. */
  lemma DateWithoutSeparators(date: string, time: string)
    requires '-' !in date
    ensures DateFields(date, time).year == Str(date)
    ensures DateFields(date, time).month == Undefined && DateFields(date, time).day == Undefined
  {
    SplitJoin([date], '-');
  }

  /** One `mp-syndicate-to[]` pair per element of an array, in order. */
  function TargetParams(items: seq<Json>): (r: seq<Param>)
    ensures |r| == |items|
    ensures forall i :: 0 <= i < |items| ==> r[i] == Param("mp-syndicate-to[]", ToStr(items[i]))
  {
    if items == [] then [] else [Param("mp-syndicate-to[]", ToStr(items[0]))] + TargetParams(items[1..])
  }

  /** The syndication pairs for the submitted `mp-syndicate-to`: none when
      it is absent or empty, one `mp-syndicate-to[]` per element of an
      array, and a single `mp-syndicate-to` for anything else. */
  function SyndicationParams(targets: Json): seq<Param> {
    if !Truthy(targets) || targets == Str("") then []
    else if targets.Arr? then TargetParams(targets.items)
    else [Param("mp-syndicate-to", ToStr(targets))]
  }

  /** The parameters `prepareParams` builds, or the exception it throws. */
  function PreparedParams(env: Env, body: map<string, Json>, bag: map<string, Json>): Result<seq<Param>, string> {
    match DeriveDate(env, Get(body, "date"), Get(body, "time"), Prop(Get(bag, "user"), "timezone"))
    case Err(m) => Err(m)
    case Ok(published) =>
      if Nullish(published) then Err(TypeErrorMessage)
      else Ok([ Param("h", ToStr(Get(body, "h"))),
                Param("content", ToStr(Get(body, "note"))),
                Param("published", ToStr(published)) ]
              + SyndicationParams(Get(body, "mp-syndicate-to")))
  }

  /** The first three parameters are `h`, `content` (the form's `note`) and
      `published`, in that order, and every later one is a syndication pair. */
  lemma PreparedParamsOrder(env: Env, body: map<string, Json>, bag: map<string, Json>)
    requires PreparedParams(env, body, bag).Ok?
    ensures var p := PreparedParams(env, body, bag).value;
            && |p| >= 3
            && p[0] == Param("h", ToStr(Get(body, "h")))
            && p[1] == Param("content", ToStr(Get(body, "note")))
            && p[2].name == "published"
            && p[3..] == SyndicationParams(Get(body, "mp-syndicate-to"))
            && (forall i :: 3 <= i < |p| ==> p[i].name == "mp-syndicate-to[]" || p[i].name == "mp-syndicate-to")
  {
    var p := PreparedParams(env, body, bag).value;
    var targets := Get(body, "mp-syndicate-to");
    assert p[3..] == SyndicationParams(targets);
    if Truthy(targets) && targets != Str("") && targets.Arr? {
      assert forall i :: 3 <= i < |p| ==> p[i] == TargetParams(targets.items)[i - 3];
    }
  }

  /** The published time is the date the time-zone library derives; a date
      it refuses makes `toString` on null throw. */
  lemma PreparedParamsPublished(env: Env, body: map<string, Json>, bag: map<string, Json>)
    requires Get(body, "date").Str? && Get(body, "time").Str?
    ensures var iso := env.zonedToUtcIso(DateFields(Get(body, "date").s, Get(body, "time").s),
                                         Prop(Get(bag, "user"), "timezone"));
            && (iso.None? ==> PreparedParams(env, body, bag) == Err(TypeErrorMessage))
            && (iso.Some? ==> PreparedParams(env, body, bag).Ok?
                              && PreparedParams(env, body, bag).value[2] == Param("published", iso.value))
  {
  }

  /** An array of targets gives one `mp-syndicate-to[]` per element in
      order, a non-empty string a single `mp-syndicate-to`, and an absent or
      empty value none. */
  lemma SyndicationShapes(targets: Json)
    ensures targets.Arr? ==> SyndicationParams(targets) == TargetParams(targets.items)
    ensures targets.Str? && targets.s != "" ==> SyndicationParams(targets) == [Param("mp-syndicate-to", targets.s)]
    ensures !Truthy(targets) ==> SyndicationParams(targets) == []
  {
  }

  /** The `for … of` loop over an array of targets: one append each. */
  method AppendTargets(params: seq<Param>, items: seq<Json>) returns (r: seq<Param>)
    ensures r == params + TargetParams(items)
  {
    r := params;
    var i := 0;
    while i < |items|
      invariant 0 <= i <= |items|
      invariant |r| == |params| + i
      invariant r[..|params|] == params
      invariant forall j :: 0 <= j < i ==> r[|params| + j] == Param("mp-syndicate-to[]", ToStr(items[j]))
    {
      r := r + [Param("mp-syndicate-to[]", ToStr(items[i]))];
      i := i + 1;
    }
    assert r[|params|..] == TargetParams(items);
    assert r == r[..|params|] + r[|params|..];
  }

  /** `prepareParams` as it runs: three appends, then the syndication ones. */
  method PrepareParams(env: Env, body: map<string, Json>, bag: map<string, Json>) returns (r: Result<seq<Param>, string>)
    ensures r == PreparedParams(env, body, bag)
  {
    var published := DeriveDate(env, Get(body, "date"), Get(body, "time"), Prop(Get(bag, "user"), "timezone"));
    if published.Err? {
      return Err(published.error);
    }
    if Nullish(published.value) {
      return Err(TypeErrorMessage);
    }
    var params := [];
    params := params + [Param("h", ToStr(Get(body, "h")))];
    params := params + [Param("content", ToStr(Get(body, "note")))];
    params := params + [Param("published", ToStr(published.value))];
    ghost var base := [Param("h", ToStr(Get(body, "h"))), Param("content", ToStr(Get(body, "note"))),
                       Param("published", ToStr(published.value))];
    assert params == base;
    var targets := Get(body, "mp-syndicate-to");
    if Truthy(targets) && targets != Str("") {
      if targets.Arr? {
        params := AppendTargets(params, targets.items);
      } else {
        params := params + [Param("mp-syndicate-to", ToStr(targets))];
      }
    }
    assert params == base + SyndicationParams(targets);
    r := Ok(params);
  }
}
