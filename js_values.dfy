/**
 * Loosely-typed values as the two runtimes see them: a JavaScript number (or a
 * Python float, which has the same special values) and a parsed JSON value,
 * with the truthiness rules of each language.
 */
module JsValues {
  import opened Wrappers

  /** An IEEE double seen abstractly: NaN, a finite value, or an infinity. */
  datatype JsNum = NaN | Fin(x: real) | PosInf | NegInf

  /** A parsed JSON document. Objects are maps, so a repeated key keeps its
      last value, as both `json.loads` and `JSON.parse` do. */
  datatype Json =
    | JNull
    | JBool(b: bool)
    | JNum(n: JsNum)
    | JStr(s: string)
    | JArr(items: seq<Json>)
    | JObj(fields: map<string, Json>)

  /** An exception the page's own code throws: a property read on `null`,
      or a call of a method the value does not have. */
  datatype JsError = TypeError

  /** JavaScript truthiness: null, false, 0, NaN and "" are falsy; arrays and
      objects, even empty ones, are truthy. */
  predicate JsTruthy(v: Json) {
    match v
    case JNull => false
    case JBool(b) => b
    case JNum(n) => !(n.NaN? || n == Fin(0.0))
    case JStr(s) => s != ""
    case JArr(_) => true
    case JObj(_) => true
  }

  /** Python truthiness of the value `json.loads` returns: None, False, 0,
      "", [] and {} are falsy; NaN is truthy. */
  predicate PyTruthy(v: Json) {
    match v
    case JNull => false
    case JBool(b) => b
    case JNum(n) => n != Fin(0.0)
    case JStr(s) => s != ""
    case JArr(items) => |items| > 0
    case JObj(fields) => |fields| > 0
  }

  /** Property access on a possibly missing value: JavaScript's `v?.[key]`
      (undefined unless `v` is an object holding `key`) and Python's
      `d.get(key)` on a dict. */
  function Member(v: Option<Json>, key: string): (r: Option<Json>)
    ensures r.Some? <==> v.Some? && v.value.JObj? && key in v.value.fields
    ensures r.Some? ==> r.value == v.value.fields[key]
  {
    if v.Some? && v.value.JObj? && key in v.value.fields then Some(v.value.fields[key]) else None
  }

  /** `Math.max(0, Math.min(hi, n))` after a NaN check that maps NaN to 0:
      the clamp both pages apply before drawing a score. */
  function Clamp(n: JsNum, hi: real): (r: real)
    requires hi >= 0.0
    ensures 0.0 <= r <= hi
    ensures n.Fin? && 0.0 <= n.x <= hi ==> r == n.x
    ensures n.Fin? && n.x < 0.0 ==> r == 0.0
    ensures n.Fin? && n.x > hi ==> r == hi
    ensures n.PosInf? ==> r == hi
    ensures n.NaN? || n.NegInf? ==> r == 0.0
  {
    match n
    case NaN => 0.0
    case PosInf => hi
    case NegInf => 0.0
    case Fin(x) => if x < 0.0 then 0.0 else if x > hi then hi else x
  }

  /** Clamping twice is clamping once. */
  lemma ClampIdempotent(n: JsNum, hi: real)
    requires hi >= 0.0
    ensures Clamp(Fin(Clamp(n, hi)), hi) == Clamp(n, hi)
  {
  }

  /** A larger number never clamps lower. */
  lemma ClampMonotone(a: real, b: real, hi: real)
    requires hi >= 0.0 && a <= b
    ensures Clamp(Fin(a), hi) <= Clamp(Fin(b), hi)
  {
  }

  /** JavaScript's `Math.round`: the nearest integer, halves rounded up. */
  function Round(y: real): (r: int)
    ensures y - 0.5 < r as real <= y + 0.5
  {
    (y + 0.5).Floor
  }

  /** `e?.message || fallback`: the message of what was thrown when it is a
      non-empty text, otherwise the handler's fixed text. */
  function MessageOr(message: Option<string>, fallback: string): (r: string)
    ensures message.Some? && message.value != "" ==> r == message.value
    ensures message.None? || message.value == "" ==> r == fallback
    ensures fallback != "" ==> r != ""
  {
    if message.Some? && message.value != "" then message.value else fallback
  }

  /** JavaScript's `Number(v)` on a JSON value or `undefined`; the conversion
      of a string is the parameter `parse`. */
  function ToNumber(v: Option<Json>, parse: string -> JsNum): JsNum {
    match v
    case None => NaN
    case Some(j) => JsonToNumber(j, parse)
  }

  function JsonToNumber(j: Json, parse: string -> JsNum): JsNum {
    match j
    case JNull => Fin(0.0)
    case JBool(b) => if b then Fin(1.0) else Fin(0.0)
    case JNum(n) => n
    case JStr(s) => parse(s)
    case JObj(_) => NaN
    case JArr(items) =>
      // An array converts through its comma-joined text: empty gives 0, two
      // or more elements give a text with a comma, which is never a number.
      if |items| == 0 then Fin(0.0)
      else if |items| > 1 then NaN
      else ElementToNumber(items[0], parse)
  }

  /** The number of a one-element array: its element's text, where null
      prints as the empty text and `true`/`false` are not numbers. */
  function ElementToNumber(j: Json, parse: string -> JsNum): JsNum {
    match j
    case JNull => Fin(0.0)
    case JBool(_) => NaN
    case JNum(n) => n
    case JStr(s) => parse(s)
    case JObj(_) => NaN
    case JArr(items) =>
      if |items| == 0 then Fin(0.0)
      else if |items| > 1 then NaN
      else ElementToNumber(items[0], parse)
  }
}
