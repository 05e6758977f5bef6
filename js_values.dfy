/**
 * JavaScript values as the core sees them: JSON documents read from disk or
 * from a response body, the JavaScript notion of truthiness, the `Number(v)`
 * and `String(v)` conversions, property reads and object spread.
 *
 * Arrays are not part of these documents (the core never stores one in a
 * config file or settings record), and numbers are integers. `undefined` is
 * the absence of a value: `Option<Json>` with `None`.
 */
module JsValues {
  import opened JsStrings
  import opened JsNumbers

  datatype Json = JNull | JBool(b: bool) | JNum(n: int) | JStr(s: string) | JObj(fields: map<string, Json>)

  /** The result of an operation that may throw. */
  datatype Outcome<T> = Returned(value: T) | Threw

  /** JavaScript truthiness: undefined, null, false, 0 and "" are falsy, everything else truthy. */
  predicate Truthy(v: Option<Json>) {
    match v
    case None => false
    case Some(JNull) => false
    case Some(JBool(b)) => b
    case Some(JNum(n)) => n != 0
    case Some(JStr(s)) => s != ""
    case Some(JObj(_)) => true
  }

  /** `Number(v)`; None is NaN. */
  function ToNumber(v: Option<Json>): (r: Option<int>)
    ensures v.Some? && v.value.JNum? ==> r == Some(v.value.n)
    ensures v.None? ==> r.None?
  {
    match v
    case None => None
    case Some(JNull) => Some(0)
    case Some(JBool(b)) => Some(if b then 1 else 0)
    case Some(JNum(n)) => Some(n)
    case Some(JStr(s)) => StringToNumber(s)
    case Some(JObj(_)) => None
  }

  /** `String(v)`. */
  function ToJsString(v: Json): string {
    match v
    case JNull => "null"
    case JBool(b) => if b then "true" else "false"
    case JNum(n) => IntToDecimal(n)
    case JStr(s) => s
    case JObj(_) => "[object Object]"
  }

  /** `m[key]` on a plain record; None is undefined. */
  function Lookup(m: map<string, Json>, key: string): (r: Option<Json>)
    ensures r.Some? <==> key in m
    ensures r.Some? ==> r.value == m[key]
  {
    if key in m then Some(m[key]) else None
  }

  /** `v[key]` on a value that is not null (on null it throws); primitives have none of the keys used here. */
  function Get(v: Json, key: string): Option<Json>
    requires v != JNull
  {
    if v.JObj? then Lookup(v.fields, key) else None
  }

  /**
   * The fields `{...v}` contributes: an object's own fields, a string's
   * characters under their indices `"0"`, `"1"`, ..., and nothing for null,
   * booleans and numbers.
   */
  function Fields(v: Json): map<string, Json> {
    if v.JObj? then v.fields
    else if v.JStr? then IndexFields(v.s)
    else map[]
  }

  /** A string's characters keyed by their indices in decimal. */
  function IndexFields(s: string): map<string, Json> {
    NatToDecimalInjective();
    map i | 0 <= i < |s| :: NatToDecimal(i) := JStr([s[i]])
  }

  /** Spreading a string gives one key per character, its index in decimal, holding that character. */
  lemma SpreadStringIndices(s: string)
    ensures forall i: nat :: i < |s| ==> NatToDecimal(i) in Fields(JStr(s)) && Fields(JStr(s))[NatToDecimal(i)] == JStr([s[i]])
    ensures forall k :: k in Fields(JStr(s)) ==> exists i: nat :: i < |s| && k == NatToDecimal(i)
  {
    NatToDecimalInjective();
  }

  /** `{...a, ...b}` on records: the keys of `b` win, every other key of `a` is kept. */
  lemma SpreadOverrides(a: map<string, Json>, b: map<string, Json>)
    ensures (a + b).Keys == a.Keys + b.Keys
    ensures forall k :: k in b ==> (a + b)[k] == b[k]
    ensures forall k :: k in a && k !in b ==> (a + b)[k] == a[k]
  {
  }
}
