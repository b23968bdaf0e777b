/**
 * The JavaScript values the client code handles, with the language's own conversions:
 * truthiness (ECMA-262 section 7.1.2), `Number(v)` (7.1.4), `String(v)` (7.1.17),
 * property lookup and `==`-null checks.
 */
module Js {
  import opened Common
  import opened Text
  import opened Numbers
  import Dict

  /**
   * A JavaScript value. `JNum` is a finite number; `JNaN` is NaN; `JDate(t)` is a `Date` whose
   * time value is `t` (`None` for an invalid date); a plain object keeps its own enumerable
   * properties in insertion order.
   */
  datatype JsValue =
    | JUndefined
    | JNull
    | JBool(b: bool)
    | JNum(n: real)
    | JNaN
    | JStr(s: string)
    | JDate(time: Option<int>)
    | JObject(props: seq<(string, JsValue)>)

  /** `obj[key]`: the property's value, `undefined` when absent or when `v` is not an object. */
  function Prop(v: JsValue, key: string): (r: JsValue)
    ensures v.JObject? && key !in Dict.Keys(v.props) ==> r == JUndefined
  {
    if v.JObject? then
      Dict.GetKeys(v.props, key);
      Dict.Get(v.props, key).GetOr(JUndefined)
    else JUndefined
  }

  /** ToBoolean: `undefined`, `null`, `false`, `0`, `NaN` and `""` are falsy. */
  predicate Truthy(v: JsValue) {
    match v
    case JUndefined => false
    case JNull => false
    case JBool(b) => b
    case JNum(n) => n != 0.0
    case JNaN => false
    case JStr(s) => s != ""
    case JDate(_) => true
    case JObject(_) => true
  }

  /** `a || b`. */
  function Or(a: JsValue, b: JsValue): (r: JsValue)
    ensures Truthy(a) ==> r == a
    ensures !Truthy(a) ==> r == b
  {
    if Truthy(a) then a else b
  }

  /** `v == null`: true for `null` and `undefined`. */
  predicate IsNullish(v: JsValue) { v.JUndefined? || v.JNull? }

  /** `Number(v)`; `None` is NaN. */
  function ToNumber(v: JsValue): (r: Option<real>)
    ensures v.JNum? ==> r == Some(v.n)
    ensures v.JUndefined? || v.JNaN? || v.JObject? ==> r.None?
  {
    match v
    case JUndefined => None
    case JNull => Some(0.0)
    case JBool(b) => Some(if b then 1.0 else 0.0)
    case JNum(n) => Some(n)
    case JNaN => None
    case JStr(s) => JsStringToNumber(s)
    case JDate(t) => if t.Some? then Some(t.value as real) else None
    case JObject(_) => None
  }

  /** `Number(v) || 0`: NaN becomes 0. */
  function NumberOr0(v: JsValue): (r: real)
    ensures ToNumber(v).Some? ==> r == ToNumber(v).value
    ensures ToNumber(v).None? ==> r == 0.0
  {
    ToNumber(v).GetOr(0.0)
  }

  /** `parseFloat(v)`, which first converts `v` to a string. */
  function ParseFloat(v: JsValue, p: Printer): Option<real> {
    JsParseFloat(ToStr(v, p))
  }

  /**
   * How the platform prints numbers (Number::toString, ECMA-262 section 6.1.6.1.20, the
   * shortest round-tripping decimal form) and dates (`Date.prototype.toString`); both are
   * parameters of the model.
   */
  datatype Printer = Printer(num: real -> string, date: Option<int> -> string)

  /** `String(v)`. */
  function ToStr(v: JsValue, p: Printer): (r: string)
    ensures v.JStr? ==> r == v.s
  {
    match v
    case JUndefined => "undefined"
    case JNull => "null"
    case JBool(b) => if b then "true" else "false"
    case JNum(n) => p.num(n)
    case JNaN => "NaN"
    case JStr(s) => s
    case JDate(t) => p.date(t)
    case JObject(_) => "[object Object]"
  }

  /** `typeof v === 'number'` (NaN included). */
  predicate IsNumberType(v: JsValue) { v.JNum? || v.JNaN? }

  /**
   * `a === b`. NaN differs from everything; objects and dates compare by identity, which the
   * model does not track, so two of them are taken as different.
   */
  predicate StrictEquals(a: JsValue, b: JsValue) {
    a == b && !a.JNaN? && !a.JObject? && !a.JDate?
  }

  /** A plain object's own properties in insertion order, as in `JObject`. */
  type JsObject = seq<(string, JsValue)>

  /** `o[key]` on a plain object. */
  function Field(o: JsObject, key: string): JsValue {
    Prop(JObject(o), key)
  }

  // ---------------------------------------------------------------------------------------
  // Dates
  // ---------------------------------------------------------------------------------------

  /** A local calendar date whose month is 1..12 (`getMonth() + 1`). */
  type LocalDate = d: Date | 1 <= d.month <= 12 witness Date(1970, 1, 1)

  /**
   * The platform's date handling, a parameter of the model: `Date.parse` of a string (already
   * time-clipped; `None` is NaN) and the local calendar date of a time value, which depends on
   * the time zone.
   */
  datatype Calendar = Calendar(parse: string -> Option<int>, local: int -> LocalDate)

  /** The largest time value a `Date` holds, in milliseconds (ECMA-262 section 21.4.1.1). */
  const MaxTime: real := 8640000000000000.0

  /** TimeClip (ECMA-262 section 21.4.1.31): out of range is NaN, otherwise truncated toward zero. */
  function TimeClip(n: real): (r: Option<int>)
    ensures r.Some? <==> -MaxTime <= n <= MaxTime
    ensures r.Some? && n >= 0.0 ==> r.value as real <= n < r.value as real + 1.0
    ensures r.Some? && n < 0.0 ==> r.value as real - 1.0 < n <= r.value as real
  {
    if n < -MaxTime || n > MaxTime then None
    else if n >= 0.0 then Some(n.Floor)
    else Some(-((-n).Floor))
  }

  /**
   * The time value of `new Date(v)` (ECMA-262 section 21.4.2.1): a date is copied, a string is
   * parsed, anything else goes through ToPrimitive and ToNumber; `None` is an invalid date
   * (`getTime()` is NaN). A plain object's primitive is the text `"[object Object]"`.
   */
  function NewDate(v: JsValue, cal: Calendar): (r: Option<int>)
    ensures v.JDate? ==> r == v.time
    ensures v.JStr? ==> r == cal.parse(v.s)
    ensures v.JUndefined? || v.JNaN? ==> r.None?
  {
    match v
    case JDate(t) => t
    case JStr(s) => cal.parse(s)
    case JObject(_) => cal.parse("[object Object]")
    case JUndefined => None
    case JNaN => None
    case JNull => Some(0)
    case JBool(b) => Some(if b then 1 else 0)
    case JNum(n) => TimeClip(n)
  }
}
