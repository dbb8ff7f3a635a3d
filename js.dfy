/** The JavaScript values the client stores in its session and reads from
    requests and replies, with the parts of JavaScript's semantics the
    handlers depend on: truthiness, optional property access (`a?.b`) and
    conversion to a string (`String(v)`, template literals, `URLSearchParams`). */
module Js {
  import opened Strs

  datatype Option<T> = None | Some(value: T)

  datatype Result<T, E> = Ok(value: T) | Err(error: E)

  /** A JavaScript value. Numbers are integers here: no handler computes with
      fractions, NaN or infinities. */
  datatype Json =
    | Undefined
    | Null
    | Bool(b: bool)
    | Num(n: int)
    | Str(s: string)
    | Arr(items: seq<Json>)
    | Obj(fields: map<string, Json>)

  /** JavaScript truthiness: `undefined`, `null`, `false`, `0` and `""` are falsy. */
  predicate Truthy(v: Json) {
    match v
    case Undefined => false
    case Null => false
    case Bool(b) => b
    case Num(n) => n != 0
    case Str(s) => s != ""
    case Arr(_) => true
    case Obj(_) => true
  }

  /** `o[key]` on a plain object: `undefined` for a missing key. */
  function Get(o: map<string, Json>, key: string): (r: Json)
    ensures key !in o ==> r == Undefined
  {
    if key in o then o[key] else Undefined
  }

  /** `v?.[key]`: own fields of objects, `length` of arrays and strings, and
      `undefined` for everything else (including `null` and `undefined`). */
  function Prop(v: Json, key: string): (r: Json)
    ensures v.Obj? ==> r == Get(v.fields, key)
    ensures v.Undefined? || v.Null? ==> r == Undefined
  {
    match v
    case Obj(m) => Get(m, key)
    case Arr(xs) => if key == "length" then Num(|xs|) else Undefined
    case Str(s) => if key == "length" then Num(|s|) else Undefined
    case _ => Undefined
  }

  /** Reading `v.key` without `?.` throws a TypeError when `v` is null or undefined. */
  predicate Nullish(v: Json) {
    v.Undefined? || v.Null?
  }

  /** The fields of `v` when it is an object, otherwise none. The handlers
      only ever store objects (or nothing) under the keys they merge into. */
  function AsObject(v: Json): (r: map<string, Json>)
    ensures v.Obj? ==> r == v.fields
    ensures !v.Obj? ==> r == map[]
  {
    if v.Obj? then v.fields else map[]
  }

  /** `String(v)`: what template literals and `URLSearchParams.append` write. */
  function ToStr(v: Json): (r: string)
    ensures v.Str? ==> r == v.s
    ensures v.Undefined? ==> r == "undefined"
    ensures v.Null? ==> r == "null"
    decreases v
  {
    match v
    case Undefined => "undefined"
    case Null => "null"
    case Bool(b) => if b then "true" else "false"
    case Num(n) => IntToString(n)
    case Str(s) => s
    case Arr(xs) => ItemsToStr(xs)
    case Obj(_) => "[object Object]"
  }

  /** `Array.prototype.join(",")`, which writes `null` and `undefined` items as "". */
  function ItemsToStr(xs: seq<Json>): string
    decreases xs
  {
    if xs == [] then ""
    else
      var head := if Nullish(xs[0]) then "" else ToStr(xs[0]);
      if |xs| == 1 then head else head + "," + ItemsToStr(xs[1..])
  }

  /** `new Error(v).message`: an undefined message becomes "". */
  function ErrorMessage(v: Json): (r: string)
    ensures v.Str? ==> r == v.s
    ensures v.Undefined? ==> r == ""
  {
    if v.Undefined? then "" else ToStr(v)
  }

  /** Stands for the engine's own text of a TypeError (reading a property of
      `null`, calling a string method on a non-string, assigning into
      `undefined`); its exact wording belongs to the JavaScript engine. */
  const TypeErrorMessage: string := "TypeError"

  /** The object a handler writes fields into after `if (!o) o = {}`: a
      fresh one for a falsy value, the stored object itself, and for any
      other truthy value the TypeError that a strict-mode property
      assignment on a primitive throws. */
  function WritableObject(v: Json): (r: Result<map<string, Json>, string>)
    ensures !Truthy(v) ==> r == Ok(map[])
    ensures v.Obj? ==> r == Ok(v.fields)
    ensures Truthy(v) && !v.Obj? ==> r == Err(TypeErrorMessage)
  {
    if !Truthy(v) then Ok(map[])
    else if v.Obj? then Ok(v.fields)
    else Err(TypeErrorMessage)
  }

  /** One name/value pair of a `URLSearchParams` list. */
  datatype Param = Param(name: string, value: string)

  /** `URLSearchParams.get(name)`: the value of the first pair with that name. */
  function Lookup(params: seq<Param>, name: string): Option<string> {
    if params == [] then None
    else if params[0].name == name then Some(params[0].value)
    else Lookup(params[1..], name)
  }

  /** `Lookup` finds the first pair carrying the name. */
  lemma {:induction false} LookupFirst(params: seq<Param>, name: string, i: int)
    requires 0 <= i < |params| && params[i].name == name
    requires forall j :: 0 <= j < i ==> params[j].name != name
    ensures Lookup(params, name) == Some(params[i].value)
  {
    if i > 0 {
      LookupFirst(params[1..], name, i - 1);
    }
  }

  /** The two maps agree at `k`: both lack it, or both hold the same value. */
  predicate SameAt(m: map<string, Json>, n: map<string, Json>, k: string) {
    (k in m <==> k in n) && (k in m ==> m[k] == n[k])
  }

  /** The names of a parameter list, in order. */
  function Names(params: seq<Param>): (r: seq<string>)
    ensures |r| == |params|
    ensures forall i :: 0 <= i < |params| ==> r[i] == params[i].name
  {
    if params == [] then [] else [params[0].name] + Names(params[1..])
  }
}
