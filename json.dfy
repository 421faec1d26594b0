/** JSON values as JavaScript sees them after `JSON.parse`, with the parts of
    JavaScript's value semantics the core relies on: truthiness, `typeof`,
    optional property access and the string conversion `Array.join` applies
    to its elements. `undefined` is `None` of an `Option<Json>`. */
module Json {
  import opened Wrappers
  import Text

  datatype Json =
    | JNull
    | JBool(b: bool)
    | JNum(n: real)
    | JStr(s: string)
    | JArr(items: seq<Json>)
    | JObj(fields: map<string, Json>)

  /** The foreign functions the core calls: `JSON.parse` (which throws on
      malformed text, here `None`), `JSON.stringify`, and the decimal
      rendering of a number that is not an integer. */
  datatype Foreign = Foreign(
    parse: string -> Option<Json>,
    stringify: Json -> string,
    fractionText: real -> string)

  /** JavaScript truthiness of a value that may be `undefined`. */
  predicate Truthy(v: Option<Json>) {
    match v
    case None => false
    case Some(JNull) => false
    case Some(JBool(b)) => b
    case Some(JNum(n)) => n != 0.0
    case Some(JStr(s)) => s != ""
    case Some(JArr(_)) => true
    case Some(JObj(_)) => true
  }

  /** `x && typeof x === "object"`: an array or a plain object. */
  predicate IsObjectLike(v: Option<Json>) {
    v.Some? && (v.value.JArr? || v.value.JObj?)
  }

  predicate IsString(v: Option<Json>) { v.Some? && v.value.JStr? }

  predicate IsNumber(v: Option<Json>) { v.Some? && v.value.JNum? }

  predicate IsArray(v: Option<Json>) { v.Some? && v.value.JArr? }

  /** `v?.key`: only a plain object holding the key yields a value. */
  function Prop(v: Option<Json>, key: string): (r: Option<Json>)
    ensures r.Some? <==> v.Some? && v.value.JObj? && key in v.value.fields
    ensures r.Some? ==> r.value == v.value.fields[key]
  {
    if v.Some? && v.value.JObj? && key in v.value.fields then Some(v.value.fields[key]) else None
  }

  /** `"key" in v` for an object-like `v`. */
  predicate HasKey(v: Option<Json>, key: string) {
    v.Some? && v.value.JObj? && key in v.value.fields
  }

  /** `typeof v?.key === "string" ? v.key : dflt`. */
  function StringProp(v: Option<Json>, key: string, dflt: string): (r: string)
    ensures IsString(Prop(v, key)) ==> r == Prop(v, key).value.s
    ensures !IsString(Prop(v, key)) ==> r == dflt
  {
    match Prop(v, key)
    case Some(JStr(s)) => s
    case _ => dflt
  }

  /** `typeof v?.key === "string" ? v.key : null`. */
  function OptStringProp(v: Option<Json>, key: string): (r: Option<string>)
    ensures r.Some? <==> IsString(Prop(v, key))
    ensures r.Some? ==> r.value == Prop(v, key).value.s
  {
    match Prop(v, key)
    case Some(JStr(s)) => Some(s)
    case _ => None
  }

  /** `String(n)`: integers are written as their decimal digits; the rendering of
      other numbers is the foreign `fractionText`. */
  function NumberText(env: Foreign, n: real): string {
    if n.Floor as real == n then Text.IntToString(n.Floor) else env.fractionText(n)
  }

  /** The string `Array.prototype.join` uses for an element: `null` becomes
      the empty string, an array is joined with commas and a plain object is
      `"[object Object]"`. */
  function ElementText(env: Foreign, j: Json): string
    decreases j, 1
  {
    match j
    case JNull => ""
    case JBool(b) => if b then "true" else "false"
    case JNum(n) => NumberText(env, n)
    case JStr(s) => s
    case JArr(items) => JoinJson(env, items, ",")
    case JObj(_) => "[object Object]"
  }

  /** `items.join(sep)` for an array of JSON values. */
  function JoinJson(env: Foreign, items: seq<Json>, sep: string): string
    decreases items, 0
  {
    if items == [] then ""
    else if |items| == 1 then ElementText(env, items[0])
    else ElementText(env, items[0]) + sep + JoinJson(env, items[1..], sep)
  }

  /** Joining JSON strings is joining their text. */
  lemma {:induction false} JoinJsonStrings(env: Foreign, xs: seq<string>, sep: string)
    ensures JoinJson(env, Strings(xs), sep) == Text.Join(xs, sep)
  {
    if |xs| > 1 {
      assert Strings(xs)[1..] == Strings(xs[1..]);
      JoinJsonStrings(env, xs[1..], sep);
    }
  }

  /** A list of strings as JSON string values. */
  function Strings(xs: seq<string>): (r: seq<Json>)
    ensures |r| == |xs|
    ensures forall i :: 0 <= i < |xs| ==> r[i] == JStr(xs[i])
  {
    seq(|xs|, i requires 0 <= i < |xs| => JStr(xs[i]))
  }
}
