/** JavaScript values as the backend and the frontend see them in documents and request bodies. */
module Js {
  import opened Base

  /** A JSON-like JavaScript value. `undefined` is not a value here: a property that
      is not there is `None` in an `Option<Json>`. `JNaN` is the number NaN. */
  datatype Json =
    | JNull
    | JBool(b: bool)
    | JNum(n: real)
    | JNaN
    | JStr(s: string)
    | JArr(items: seq<Json>)
    | JObj(fields: map<string, Json>)

  /** A stored document or a plain object: its fields by name. */
  type Doc = map<string, Json>

  predicate Truthy(v: Json) {
    match v
    case JNull => false
    case JBool(b) => b
    case JNum(n) => n != 0.0
    case JNaN => false
    case JStr(s) => s != ""
    case JArr(_) => true
    case JObj(_) => true
  }

  /** Truthiness of a value that may be `undefined`. */
  predicate TruthyOpt(v: Option<Json>) {
    v.Some? && Truthy(v.value)
  }

  /** `a || b`. */
  function OrElse(a: Option<Json>, b: Json): Json {
    if TruthyOpt(a) then a.value else b
  }

  /** `d.key` for a document `d`. */
  function Get(d: Doc, key: string): Option<Json> {
    if key in d then Some(d[key]) else None
  }

  /** `o?.key`: `undefined` unless `o` is an object holding `key`. */
  function Prop(o: Option<Json>, key: string): Option<Json> {
    match o
    case Some(JObj(m)) => Get(m, key)
    case _ => None
  }

  /** `v?.toUpperCase()`: `Some(None)` for `null` or `undefined`, `None` when `v` is
      some other non-text value and the call throws. */
  function UpperOf(v: Option<Json>): (r: Option<Option<string>>)
    ensures IsString(v) ==> r == Some(Some(Upper(v.value.s)))
    ensures r.None? <==> v.Some? && v.value != JNull && !v.value.JStr?
  {
    if v.None? || v.value == JNull then Some(None)
    else if v.value.JStr? then Some(Some(Upper(v.value.s)))
    else None
  }

  /** `x != null`: neither `null` nor `undefined`. */
  predicate IsPresent(v: Option<Json>) {
    v.Some? && v.value != JNull
  }

  /** `typeof v === "number"`. */
  predicate IsNumber(v: Option<Json>) {
    v.Some? && (v.value.JNum? || v.value.JNaN?)
  }

  predicate IsString(v: Option<Json>) {
    v.Some? && v.value.JStr?
  }

  /** `Number(s)` for a string, with `None` for NaN: surrounding whitespace is
      ignored, blank text is 0, otherwise a signed decimal numeral is required. */
  function StringToNumber(s: string): Option<real> {
    var t := Trim(s);
    if t == "" then Some(0.0) else ParseDecimal(t)
  }

  /** `Number(v)`, with `None` for NaN. An array converts through its string form:
      `[]` is 0, a one-element array is its element's conversion, longer ones are NaN. */
  function ToNumber(v: Option<Json>): Option<real> {
    match v
    case None => None
    case Some(JNull) => Some(0.0)
    case Some(JBool(b)) => Some(if b then 1.0 else 0.0)
    case Some(JNum(n)) => Some(n)
    case Some(JNaN) => None
    case Some(JStr(s)) => StringToNumber(s)
    case Some(JArr(items)) => ArrayToNumber(items)
    case Some(JObj(_)) => None
  }

  function ArrayToNumber(items: seq<Json>): Option<real>
    decreases items
  {
    if |items| == 0 then Some(0.0)
    else if |items| > 1 then None
    else match items[0]
      case JNull => Some(0.0)
      case JNum(n) => Some(n)
      case JStr(s) => StringToNumber(s)
      case JArr(inner) => ArrayToNumber(inner)
      case _ => None
  }

  /** The value `Number(v)`. */
  function NumberValue(v: Option<Json>): (r: Json)
    ensures r.JNum? || r.JNaN?
    ensures r.JNum? <==> ToNumber(v).Some?
  {
    match ToNumber(v)
    case Some(n) => JNum(n)
    case None => JNaN
  }

  /** `Number(v) || 0`: NaN and -0 become 0. */
  function NumberOrZero(v: Option<Json>): (r: real)
    ensures ToNumber(v).Some? ==> r == ToNumber(v).value
    ensures ToNumber(v).None? ==> r == 0.0
  {
    ToNumber(v).GetOr(0.0)
  }

  /** A number already converted is kept. */
  lemma NumberOfNumber(n: real)
    ensures ToNumber(Some(JNum(n))) == Some(n)
    ensures NumberValue(Some(JNum(n))) == JNum(n)
  {
  }
}
