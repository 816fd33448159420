/** JavaScript values as the listing page sees them: the document produced by
    `JSON.parse`, plus `undefined` for a property that is not there, and the
    handful of JavaScript conversions the page relies on (truthiness, `String`,
    property access, `Object.entries`, `Array.prototype.join`). */
module JsValue {

  datatype Option<T> = None | Some(value: T)

  /** A value produced by `JSON.parse`. Numbers are integers. The members of an
      object are listed in JavaScript's property-enumeration order and their
      keys are distinct, as `JSON.parse` leaves them. */
  datatype Json =
    | JNull
    | JBool(b: bool)
    | JNumber(n: int)
    | JString(s: string)
    | JArray(items: seq<Json>)
    | JObject(members: seq<Member>)

  datatype Member = Member(key: string, value: Json)

  /** The result of reading a property: `Undefined` when the property is absent. */
  datatype Value = Undefined | Val(json: Json)

  const EmptyObject: Json := JObject([])

  /** JavaScript truthiness: `undefined`, `null`, `false`, `0` and `""` are falsy. */
  predicate Truthy(v: Value) {
    match v
    case Undefined => false
    case Val(j) =>
      match j
      case JNull => false
      case JBool(b) => b
      case JNumber(n) => n != 0
      case JString(s) => s != ""
      case JArray(_) => true
      case JObject(_) => true
  }

  /** The value of the first member named `key`, or `Undefined`. */
  function Lookup(ms: seq<Member>, key: string): (v: Value)
    ensures v == Undefined <==> forall i :: 0 <= i < |ms| ==> ms[i].key != key
    ensures forall i :: 0 <= i < |ms| && ms[i].key == key && (forall j :: 0 <= j < i ==> ms[j].key != key) ==>
              v == Val(ms[i].value)
  {
    if ms == [] then Undefined
    else if ms[0].key == key then Val(ms[0].value)
    else Lookup(ms[1..], key)
  }

  /** Property access `v.key` for a name that is neither an array index nor
      `length`: only an object has such a property. */
  function Field(v: Value, key: string): Value {
    match v
    case Val(JObject(ms)) => Lookup(ms, key)
    case _ => Undefined
  }

  /** `v || d`. */
  function Or(v: Value, d: Json): (r: Value)
    ensures Truthy(v) ==> r == v
    ensures !Truthy(v) ==> r == Val(d)
  {
    if Truthy(v) then v else Val(d)
  }

  /** The elements of an array; any other value is read as no elements. */
  function AsList(v: Value): seq<Json> {
    match v
    case Val(JArray(items)) => items
    case _ => []
  }

  /** `v[0]`: the first element of an array, the first character of a string,
      the member named "0" of an object. */
  function Index0(v: Value): Value {
    match v
    case Val(JArray(items)) => if |items| > 0 then Val(items[0]) else Undefined
    case Val(JString(s)) => if |s| > 0 then Val(JString([s[0]])) else Undefined
    case Val(JObject(ms)) => Lookup(ms, "0")
    case _ => Undefined
  }

  /** `Object.entries(v)`: the members of an object, the elements of an array
      or the characters of a string under their decimal indices; nothing for
      numbers, booleans and null. */
  function Entries(v: Value): (es: seq<Member>)
    ensures v.Val? && v.json.JObject? ==> es == v.json.members
    ensures v.Val? && v.json.JArray? ==>
              && |es| == |v.json.items|
              && forall i :: 0 <= i < |es| ==> es[i] == Member(NatToDecimal(i), v.json.items[i])
    ensures v.Val? && v.json.JString? ==>
              && |es| == |v.json.s|
              && forall i :: 0 <= i < |es| ==> es[i] == Member(NatToDecimal(i), JString([v.json.s[i]]))
    ensures (v.Undefined? || v.json.JNull? || v.json.JBool? || v.json.JNumber?) ==> es == []
  {
    match v
    case Val(JObject(ms)) => ms
    case Val(JArray(items)) => seq(|items|, i requires 0 <= i < |items| => Member(NatToDecimal(i), items[i]))
    case Val(JString(s)) => seq(|s|, i requires 0 <= i < |s| => Member(NatToDecimal(i), JString([s[i]])))
    case _ => []
  }

  function Digit(d: nat): (c: char)
    requires d < 10
    ensures '0' <= c <= '9' && c as int - '0' as int == d
  {
    "0123456789"[d]
  }

  /** The number a string of decimal digits denotes. */
  function DecimalValue(s: string): nat
    requires forall i :: 0 <= i < |s| ==> '0' <= s[i] <= '9'
  {
    if s == [] then 0
    else DecimalValue(s[..|s| - 1]) * 10 + (s[|s| - 1] as int - '0' as int)
  }

  /** Decimal digits of `n` without leading zeros. */
  function NatToDecimal(n: nat): (s: string)
    ensures |s| >= 1
    ensures forall i :: 0 <= i < |s| ==> '0' <= s[i] <= '9'
    ensures |s| > 1 ==> s[0] != '0'
  {
    if n < 10 then [Digit(n)] else NatToDecimal(n / 10) + [Digit(n % 10)]
  }

  /** The decimal text of `n` denotes `n`. */
  lemma {:induction false} NatToDecimalValue(n: nat)
    ensures DecimalValue(NatToDecimal(n)) == n
  {
    if n >= 10 {
      NatToDecimalValue(n / 10);
      var s := NatToDecimal(n);
      assert s[..|s| - 1] == NatToDecimal(n / 10);
    }
  }

  function IntToDecimal(n: int): string {
    if n < 0 then "-" + NatToDecimal(-n) else NatToDecimal(n)
  }

  /** `parts.join(sep)`. */
  function Join(parts: seq<string>, sep: string): string
    decreases |parts|
  {
    if |parts| == 0 then ""
    else if |parts| == 1 then parts[0]
    else Join(parts[..|parts| - 1], sep) + sep + parts[|parts| - 1]
  }

  /** `String(j)` for a value of the document. */
  function JsonText(j: Json): string
    decreases j
  {
    match j
    case JNull => "null"
    case JBool(b) => if b then "true" else "false"
    case JNumber(n) => IntToDecimal(n)
    case JString(s) => s
    case JArray(items) =>
      Join(seq(|items|, i requires 0 <= i < |items| => if items[i].JNull? then "" else JsonText(items[i])), ",")
    case JObject(_) => "[object Object]"
  }

  /** `String(v)`, which is also what a template literal `${v}` makes of `v`. */
  function ToStr(v: Value): string {
    match v
    case Undefined => "undefined"
    case Val(j) => JsonText(j)
  }

  /** What an assignment of `v` to `textContent` leaves as the text: `null`
      and `undefined` clear it, any other value is converted with `String`. */
  function TextContent(v: Value): (text: string)
    ensures (v.Undefined? || v.json.JNull?) ==> text == ""
    ensures !(v.Undefined? || v.json.JNull?) ==> text == ToStr(v)
  {
    if v.Undefined? || v.json.JNull? then "" else ToStr(v)
  }

  /** The text of `v || d` when it is written into the page. */
  function TextOr(v: Value, d: string): (text: string)
    ensures Truthy(v) ==> text == ToStr(v)
    ensures !Truthy(v) ==> text == d
  {
    if Truthy(v) then ToStr(v) else d
  }

  /** `v === s` for a string literal `s`. */
  predicate IsString(v: Value, s: string) {
    v == Val(JString(s))
  }
}
