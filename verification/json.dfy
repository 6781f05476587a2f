/**
 * JSON values, as nlohmann::json holds them on the C++ side and as `JSON.parse`
 * produces them in the browser. Numbers are integers only; an absent key or a
 * JavaScript `undefined` is the absence of an entry, never a value.
 */
module Json {
  import opened Wrappers
  import Strings

  datatype Json =
    | JNull
    | JBool(b: bool)
    | JNum(n: int)
    | JStr(s: string)
    | JArr(items: seq<Json>)
    | JObj(fields: map<string, Json>)

  /** `j.find(key)` on the C++ side and `obj[key]` in the browser: the entry under `key`
      of an object; anything that is not an object has no entries. */
  function Prop(v: Json, key: string): (r: Option<Json>)
    ensures r.Some? <==> v.JObj? && key in v.fields
    ensures r.Some? ==> r.value == v.fields[key]
  {
    if v.JObj? && key in v.fields then Some(v.fields[key]) else None
  }

  /** JavaScript truthiness: `null`, `false`, `0` and `""` are falsy, every array and object is truthy. */
  predicate Truthy(v: Json) {
    match v
    case JNull => false
    case JBool(b) => b
    case JNum(n) => n != 0
    case JStr(s) => s != ""
    case JArr(_) => true
    case JObj(_) => true
  }

  /** `a || b` where `a` may be `undefined` (None). */
  function OrElse(a: Option<Json>, b: Json): (r: Json)
    ensures a.Some? && Truthy(a.value) ==> r == a.value
    ensures !(a.Some? && Truthy(a.value)) ==> r == b
  {
    if a.Some? && Truthy(a.value) then a.value else b
  }

  /** `a ?? b` where `a` may be `undefined` (None): only `null` and `undefined` fall through. */
  function Coalesce(a: Option<Json>, b: Json): (r: Json)
    ensures a.Some? && a.value != JNull ==> r == a.value
    ensures a.None? || a.value == JNull ==> r == b
  {
    if a.Some? && a.value != JNull then a.value else b
  }

  /** `arr.indexOf(x)` with `===`: the first position holding `x`, or -1. */
  function IndexOf(items: seq<Json>, x: Json): (r: int)
    ensures -1 <= r < |items|
    ensures r == -1 <==> x !in items
    ensures r >= 0 ==> items[r] == x && forall k :: 0 <= k < r ==> items[k] != x
  {
    if |items| == 0 then -1
    else if items[0] == x then 0
    else
      var r := IndexOf(items[1..], x);
      if r == -1 then
        assert forall k :: 1 <= k < |items| ==> items[k] == items[1..][k - 1];
        -1
      else
        assert items[1..][r] == items[r + 1];
        r + 1
  }

  /** `String(v)`, which is also what a template literal `${v}` inserts: strings as they
      are, integers in decimal, arrays as their elements' texts joined by commas (null
      elements contributing nothing), objects as "[object Object]". */
  function Text(v: Json): (r: string)
    ensures v.JStr? ==> r == v.s
    ensures v.JNum? ==> r == Strings.IntToString(v.n)
    decreases v, 1
  {
    match v
    case JNull => "null"
    case JBool(b) => if b then "true" else "false"
    case JNum(n) => Strings.IntToString(n)
    case JStr(s) => s
    case JArr(_) => JoinedText(v, 0)
    case JObj(_) => "[object Object]"
  }

  /** The comma-joined texts of the elements of the array `parent`, from position `from` on. */
  function JoinedText(parent: Json, from: nat): string
    requires parent.JArr? && from <= |parent.items|
    decreases parent, 0, |parent.items| - from
  {
    if from == |parent.items| then ""
    else
      var item := parent.items[from];
      var first := if item == JNull then "" else Text(item);
      if from + 1 == |parent.items| then first else first + "," + JoinedText(parent, from + 1)
  }
}
