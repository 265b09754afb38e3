/**
 * JSON values as the console handles them: request bodies, backend payloads and
 * error envelopes. Numbers are integers (see README).
 */
module Json {
  import opened Wrappers
  import Strings

  datatype Json =
    | JNull
    | JBool(b: bool)
    | JNum(n: int)
    | JStr(s: string)
    | JArr(items: seq<Json>)
    | JObj(fields: map<string, Json>)

  /** JavaScript truthiness of a present value: `null`, `false`, `0` and `""` are falsy. */
  predicate Truthy(j: Json) {
    match j
    case JNull => false
    case JBool(b) => b
    case JNum(n) => n != 0
    case JStr(s) => s != ""
    case _ => true
  }

  /** Truthiness of a possibly `undefined` value. */
  predicate TruthyOpt(o: Option<Json>) {
    o.Some? && Truthy(o.value)
  }

  /** `j?.[key]`: the field of an object, `undefined` for a missing key or a non-object. */
  function Field(j: Json, key: string): (r: Option<Json>)
    ensures r.Some? <==> j.JObj? && key in j.fields
    ensures r.Some? ==> r.value == j.fields[key]
  {
    if j.JObj? && key in j.fields then Some(j.fields[key]) else None
  }

  /** Decimal rendering of an integer, as `String(n)` gives it. */
  function NatToString(n: nat): (r: string)
    ensures |r| >= 1
    ensures forall i :: 0 <= i < |r| ==> '0' <= r[i] <= '9'
  {
    var d := ['0' + (n % 10) as char];
    if n < 10 then d else NatToString(n / 10) + d
  }

  /** `String(n)` for an integer: digits, with a leading '-' when negative. */
  function IntToString(n: int): (r: string)
    ensures r != "" && r != "-"
    ensures n >= 0 ==> r == NatToString(n)
    ensures n < 0 ==> r[0] == '-' && r[1..] == NatToString(-n)
  {
    if n < 0 then "-" + NatToString(-n) else NatToString(n)
  }

  /**
   * `${j}`: how a template literal renders a value. An array renders as its elements
   * joined by commas, with `null` elements rendered as empty.
   */
  function Interpolate(j: Json): string
  {
    match j
    case JNull => "null"
    case JBool(b) => if b then "true" else "false"
    case JNum(n) => IntToString(n)
    case JStr(s) => s
    case JArr(items) =>
      Strings.Join(seq(|items|, i requires 0 <= i < |items| =>
        if items[i].JNull? then "" else Interpolate(items[i])), ',')
    case JObj(_) => "[object Object]"
  }
}
